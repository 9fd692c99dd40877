/**
 The Cloud Foundry adapter (platform/cf/adapter.go) as a transition system: any number of concurrent SpawnAgent calls,
 sharing one GUID cache, over a directory of orgs and spaces that may change. A step is one locked cache operation or
 one call of the Cloud Foundry API.
 */
module CfModel {
  import opened Lifecycle
  import opened GuidCache

  /** dedicated: an org per tenant; otherwise a space per tenant in one shared org. */
  datatype Config = Config(dedicated: bool, sharedOrg: string, ttl: nat)

  datatype Directory = Directory(orgs: map<string, string>, spaces: map<(string, string), string>)
  {
    function Answer(q: Query): Option<string> {
      match q
      case Org(name) => if name in orgs then Some(orgs[name]) else None
      case Space(org, name) => if (org, name) in spaces then Some(spaces[(org, name)]) else None
    }
  }

  /** A GUID stored in the cache at time `at`: what the directory's version `version` answered at time `asked`. */
  datatype Stored = Stored(query: Query, guid: string, version: nat, asked: int, at: int)

  /** A runner app, with the tenant and role in its environment. */
  datatype App = App(space: string, name: string, tenant: string, role: string)

  datatype Got = Got(guid: string, at: int)

  datatype Pc =
    | ReadOrg | AskOrg | StoreOrg(guid: string, version: nat, asked: int)
    | ReadSpace | AskSpace | StoreSpace(guid: string, version: nat, asked: int)
    | FindApp | PushApp | RunTask(app: nat)
    | Ran(app: nat)   // the task runs on this app
    | Unknown         // the directory knows no such org or space
    | ApiFailed       // an API call failed

  /** A SpawnAgent call; org and space are the GUIDs it has got, and when. */
  datatype Call = Call(tenant: string, role: string, pc: Pc, org: Option<Got>, space: Option<Got>)

  datatype World = World(cfg: Config, dirs: seq<Directory>, now: int, entries: map<string, Entry>,
                         log: seq<Stored>, calls: seq<Call>, apps: seq<App>)
  {
    function Dir(): Directory
      requires dirs != []
    {
      dirs[|dirs| - 1]
    }
  }

  datatype Step =
    | Spawn(tenant: string, role: string)
    | Proceed(i: nat, ok: bool, found: nat)   // `found` is the app GetAppByName finds, if it does
    | Change(dir: Directory)
    | Tick(d: nat)

  function OrgName(cfg: Config, tenant: string): string {
    if cfg.dedicated then tenant else cfg.sharedOrg
  }

  function SpaceName(cfg: Config, tenant: string): string {
    if cfg.dedicated then "muto-agents" else tenant
  }

  function RunnerName(tenant: string, role: string): string {
    "muto-" + tenant + "-" + role
  }

  /** The uncached two-step lookup. */
  function Direct(cfg: Config, dir: Directory, tenant: string): Option<string> {
    match dir.Answer(Org(OrgName(cfg, tenant)))
    case None => None
    case Some(org) => dir.Answer(Space(org, SpaceName(cfg, tenant)))
  }

  function Init(cfg: Config, dir: Directory): World {
    World(cfg, [dir], 0, map[], [], [], [])
  }

  /** What the call is about to look up. */
  function QueryOf(cfg: Config, call: Call): Query {
    match call.org
    case None => Org(OrgName(cfg, call.tenant))
    case Some(org) => Space(org.guid, SpaceName(cfg, call.tenant))
  }

  function Put(w: World, i: nat, call: Call): World
    requires i < |w.calls|
  {
    w.(calls := w.calls[i := call])
  }

  /** cache.get */
  function DoRead(w: World, i: nat): World
    requires i < |w.calls|
  {
    var call := w.calls[i];
    match Hit(w.entries, KeyOf(QueryOf(w.cfg, call)), w.now)
    case None => Put(w, i, call.(pc := if call.pc.ReadOrg? then AskOrg else AskSpace))
    case Some(guid) => Put(w, i, Take(call, guid, w.now))
  }

  /** The call has got the GUID it was looking up. */
  function Take(call: Call, guid: string, now: int): Call {
    if call.org.None? then call.(org := Some(Got(guid, now)), pc := ReadSpace)
    else call.(space := Some(Got(guid, now)), pc := FindApp)
  }

  /** GetOrgByName, GetSpaceByName */
  function DoAsk(w: World, i: nat, ok: bool): World
    requires i < |w.calls| && w.dirs != []
  {
    var call := w.calls[i];
    if !ok then Put(w, i, call.(pc := ApiFailed))
    else match w.Dir().Answer(QueryOf(w.cfg, call))
      case None => Put(w, i, call.(pc := Unknown))
      case Some(guid) =>
        var v := |w.dirs| - 1;
        Put(w, i, call.(pc := if call.pc.AskOrg? then StoreOrg(guid, v, w.now) else StoreSpace(guid, v, w.now)))
  }

  /** cache.set */
  function DoStore(w: World, i: nat): World
    requires i < |w.calls| && (w.calls[i].pc.StoreOrg? || w.calls[i].pc.StoreSpace?)
  {
    var call := w.calls[i];
    var q, pc := QueryOf(w.cfg, call), call.pc;
    Put(w, i, Take(call, pc.guid, w.now)).(
      entries := w.entries[KeyOf(q) := Entry(pc.guid, w.now + w.cfg.ttl)],
      log := w.log + [Stored(q, pc.guid, pc.version, pc.asked, w.now)])
  }

  /** ensureRunnerApp and RunTask. Any error of GetAppByName leads to a push. */
  function DoApp(w: World, i: nat, ok: bool, found: nat): World
    requires i < |w.calls|
  {
    var call := w.calls[i];
    if call.space.None? then w
    else
      var space, name := call.space.value.guid, RunnerName(call.tenant, call.role);
      match call.pc
      case FindApp =>
        var finds := ok && found < |w.apps| && w.apps[found].space == space && w.apps[found].name == name;
        Put(w, i, call.(pc := if finds then RunTask(found) else PushApp))
      case PushApp =>
        if !ok then Put(w, i, call.(pc := ApiFailed))
        else Put(w, i, call.(pc := RunTask(|w.apps|))).(apps := w.apps + [App(space, name, call.tenant, call.role)])
      case RunTask(app) => Put(w, i, call.(pc := if ok then Ran(app) else ApiFailed))
      case _ => w
  }

  function DoProceed(w: World, i: nat, ok: bool, found: nat): World {
    if i >= |w.calls| || w.dirs == [] then w
    else match w.calls[i].pc
      case ReadOrg => DoRead(w, i)
      case ReadSpace => DoRead(w, i)
      case AskOrg => DoAsk(w, i, ok)
      case AskSpace => DoAsk(w, i, ok)
      case StoreOrg(_, _, _) => DoStore(w, i)
      case StoreSpace(_, _, _) => DoStore(w, i)
      case _ => DoApp(w, i, ok, found)
  }

  function Next(w: World, step: Step): World {
    match step
    case Spawn(tenant, role) => w.(calls := w.calls + [Call(tenant, role, ReadOrg, None, None)])
    case Proceed(i, ok, found) => DoProceed(w, i, ok, found)
    case Change(dir) => w.(dirs := w.dirs + [dir])
    case Tick(d) => w.(now := w.now + d)
  }

  function Exec(w: World, steps: seq<Step>): World
    decreases |steps|
  {
    if steps == [] then w else Next(Exec(w, steps[..|steps| - 1]), steps[|steps| - 1])
  }

  function Run(cfg: Config, dir: Directory, steps: seq<Step>): World {
    Exec(Init(cfg, dir), steps)
  }
}
