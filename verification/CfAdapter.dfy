/**
 `CFAdapter` itself (platform/cf/adapter.go): SpawnAgent with resolveSpaceGUID and ensureRunnerApp, over the GUID cache,
 while other calls, the directory and the clock move before every locked section and every API call, as a script says.
 */
module CfAdapter {
  import opened Lifecycle
  import opened GuidCache
  import opened CfModel
  import opened CfTheorems

  /** Before one locked section or API call: what others do, whether the call succeeds, and the app that is found. */
  datatype Turn = Turn(others: seq<Step>, ok: bool, found: nat)

  /** The steps of a script that call i does not take itself. */
  function Elsewhere(i: nat, steps: seq<Step>): seq<Step>
    decreases |steps|
  {
    if steps == [] then []
    else
      var last := steps[|steps| - 1];
      Elsewhere(i, steps[..|steps| - 1]) + (if last.Proceed? && last.i == i then [] else [last])
  }

  /** The lookup of an app by this call's runner name in its space finds app number `found`. */
  predicate Finds(w: World, call: Call, ok: bool, found: nat)
    requires call.space.Some?
  {
    && ok && found < |w.apps|
    && w.apps[found].space == call.space.value.guid
    && w.apps[found].name == "muto-" + call.tenant + "-" + call.role
  }

  /** The app this call pushes. */
  function Pushed(call: Call): App
    requires call.space.Some?
  {
    App(call.space.value.guid, "muto-" + call.tenant + "-" + call.role, call.tenant, call.role)
  }

  /** A task of this call runs on this app: one of its space and runner name, pushed for its own tenant and role under
      the assumptions about GUIDs, and in the space the directory leads to if it has not changed. */
  ghost predicate RunsFor(cfg: Config, w: World, call: Call, app: App) {
    && call.space.Some? && app in w.apps
    && app.space == call.space.value.guid && app.name == "muto-" + call.tenant + "-" + call.role
    && (ColonFreeGuids(w.dirs) && GuidsTellApart(cfg, w.dirs) ==> app.tenant == call.tenant && app.role == call.role)
    && (ColonFreeGuids(w.dirs) && Steady(w.dirs, cfg, call.tenant) ==>
          w.dirs != [] && LeadsTo(cfg, w.Dir(), call.tenant, app.space))
  }

  class CFAdapter {
    const config: Config
    const dir0: Directory
    const cache: GuidCache
    const script: nat -> Turn
    var st: World
    var clock: nat
    ghost var trace: seq<Step>

    ghost predicate Valid()
      reads this, cache
    {
      && cache.Valid() && cache.ttl == config.ttl && cache.entries == st.entries
      && st == Run(config, dir0, trace) && st.cfg == config && st.dirs != []
    }

    ghost predicate At(i: nat, call: Call)
      reads this
    {
      i < |st.calls| && st.calls[i] == call
    }

    constructor (config: Config, dir: Directory, script: nat -> Turn)
      ensures Valid() && trace == [] && fresh(cache)
    {
      this.config, dir0, this.script := config, dir, script;
      cache := new GuidCache(config.ttl);
      st := Init(config, dir);
      clock, trace := 0, [];
    }

    method Do(step: Step)
      requires Valid()
      modifies this, cache
      ensures Valid() && trace == old(trace) + [step] && st == Next(old(st), step) && clock == old(clock)
    {
      hide Next, QueryOf, KeyOf;
      StepGrows(st, step);
      StoreSteps(st, step);
      if step.Proceed? && step.i < |st.calls| && (st.calls[step.i].pc.StoreOrg? || st.calls[step.i].pc.StoreSpace?) {
        var call := st.calls[step.i];
        cache.Set(KeyOf(QueryOf(config, call)), call.pc.guid, st.now);
      }
      trace := trace + [step];
      st := Next(st, step);
      assert trace[..|trace| - 1] == old(trace);
    }

    /** Everyone but call i acts. */
    method Others(i: nat, ghost call: Call)
      requires Valid() && At(i, call)
      modifies this, cache
      ensures Valid() && trace == old(trace) + Elsewhere(i, script(clock).others) && At(i, call) && clock == old(clock)
    {
      hide Run, Next;
      var steps := script(clock).others;
      for k := 0 to |steps|
        invariant Valid() && trace == old(trace) + Elsewhere(i, steps[..k]) && At(i, call) && clock == old(clock)
      {
        assert steps[..k + 1][..k] == steps[..k];
        if !(steps[k].Proceed? && steps[k].i == i) {
          OtherCalls(st, steps[k]);
          StepGrows(st, steps[k]);
          Do(steps[k]);
        }
      }
      assert steps[..|steps|] == steps;
    }

    /** cache.get, under the cache's lock */
    method CacheGet(i: nat, q: Query, ghost call: Call) returns (guid: Option<string>, ghost now: int)
      requires Valid() && At(i, call) && (call.pc.ReadOrg? || call.pc.ReadSpace?) && q == QueryOf(config, call)
      modifies this, cache
      ensures Valid() && old(trace) <= trace && clock == old(clock) + 1
      ensures At(i, match guid
                    case None => call.(pc := if call.pc.ReadOrg? then AskOrg else AskSpace)
                    case Some(g) => Take(call, g, now))
    {
      hide Run, KeyOf, QueryOf, Hit;
      Others(i, call);
      now := st.now;
      guid := cache.Get(KeyOf(q), st.now);
      Do(Proceed(i, true, 0));
      clock := clock + 1;
    }

    /** GetOrgByName, GetSpaceByName */
    method Lookup(i: nat, q: Query, ghost call: Call) returns (guid: Option<string>, ghost v: nat, ghost asked: int)
      requires Valid() && At(i, call) && (call.pc.AskOrg? || call.pc.AskSpace?) && q == QueryOf(config, call)
      modifies this, cache
      ensures Valid() && old(trace) <= trace && i < |st.calls| && clock == old(clock) + 1
      ensures guid.Some? ==> script(old(clock)).ok
      ensures match guid
              case None => st.calls[i] == call.(pc := if script(old(clock)).ok then Unknown else ApiFailed)
              case Some(g) => st.calls[i] == call.(pc := if call.pc.AskOrg? then StoreOrg(g, v, asked)
                  else StoreSpace(g, v, asked))
    {
      hide Run, KeyOf, QueryOf;
      Others(i, call);
      v, asked := |st.dirs| - 1, st.now;
      var turn := script(clock);
      guid := if turn.ok then st.Dir().Answer(q) else None;
      Do(Proceed(i, turn.ok, 0));
      clock := clock + 1;
    }

    /** cache.set, under the cache's lock */
    method CacheSet(i: nat, q: Query, guid: string, ghost call: Call) returns (ghost now: int)
      requires Valid() && At(i, call) && (call.pc.StoreOrg? || call.pc.StoreSpace?)
      requires q == QueryOf(config, call) && guid == call.pc.guid
      modifies this, cache
      ensures Valid() && old(trace) <= trace && At(i, Take(call, guid, now)) && clock == old(clock) + 1
    {
      hide Run, KeyOf, QueryOf;
      Others(i, call);
      now := st.now;
      Do(Proceed(i, true, 0));
      clock := clock + 1;
    }

    /** One GUID: from the cache, or else from the API, in which case it is stored. */
    method CachedLookup(i: nat, q: Query, ghost call: Call) returns (guid: Option<string>, ghost now: int)
      requires Valid() && At(i, call) && (call.pc.ReadOrg? || call.pc.ReadSpace?) && q == QueryOf(config, call)
      requires call.org.None? <==> call.pc.ReadOrg?
      modifies this, cache
      ensures Valid() && old(trace) <= trace && old(clock) < clock
      ensures At(i, match guid
                    case None => call.(pc := if script(clock - 1).ok then Unknown else ApiFailed)
                    case Some(g) => Take(call, g, now))
    {
      hide Run, Next, KeyOf, Elsewhere;
      guid, now := CacheGet(i, q, call);
      if guid == None {
        ghost var v, asked;
        guid, v, asked := Lookup(i, q, st.calls[i]);
        if guid == None {
          return;
        }
        now := CacheSet(i, q, guid.value, st.calls[i]);
      }
    }

    method ResolveSpaceGUID(i: nat, tenant: string, ghost call: Call) returns (spaceGUID: Option<string>)
      requires Valid() && At(i, call) && call.tenant == tenant && call.pc == ReadOrg && call.org == None
               && call.space == None
      modifies this, cache
      ensures Valid() && old(trace) <= trace && i < |st.calls| && old(clock) < clock
      ensures st.calls[i].tenant == tenant && st.calls[i].role == call.role
      ensures match spaceGUID
              case None => st.calls[i].pc == if script(clock - 1).ok then Unknown else ApiFailed
              case Some(guid) =>
                  st.calls[i].pc == FindApp && st.calls[i].space.Some? && st.calls[i].space.value.guid == guid
      ensures ColonFreeGuids(st.dirs) && Steady(st.dirs, config, tenant) ==>
                match spaceGUID
                case None => LookupFailed(config, dir0, trace, i) || forall s :: !LeadsTo(config, st.Dir(), tenant, s)
                case Some(guid) => LeadsTo(config, st.Dir(), tenant, guid) && !LookupFailed(config, dir0, trace, i)
    {
      hide Run, Next, KeyOf, LeadsTo, LookupFailed, Steady, ColonFreeGuids, Elsewhere;
      var orgName, spaceName;
      if config.dedicated {
        orgName, spaceName := tenant, "muto-agents";
      } else {
        orgName, spaceName := config.sharedOrg, tenant;
      }
      ghost var now;
      var orgGUID;
      orgGUID, now := CachedLookup(i, Org(orgName), call);
      if orgGUID == None {
        Resolves(i);
        return None;
      }
      spaceGUID, now := CachedLookup(i, Space(orgGUID.value, spaceName), Take(call, orgGUID.value, now));
      Resolves(i);
    }

    lemma Resolves(i: nat)
      requires Valid() && i < |st.calls| && (st.calls[i].space.Some? || st.calls[i].pc in {Unknown, ApiFailed})
      ensures var call := st.calls[i];
              ColonFreeGuids(st.dirs) && Steady(st.dirs, config, call.tenant) ==>
                && (call.space.Some? ==> LeadsTo(config, st.Dir(), call.tenant, call.space.value.guid))
                && (call.space.Some? <==>
                      (exists s :: LeadsTo(config, st.Dir(), call.tenant, s)) && !LookupFailed(config, dir0, trace, i))
    {
      hide Run, LeadsTo, LookupFailed, Steady, ColonFreeGuids;
      if ColonFreeGuids(st.dirs) && Steady(st.dirs, config, st.calls[i].tenant) {
        ResolvesIff(config, dir0, trace, i);
      }
    }

    /** One step of ensureRunnerApp or RunTask: an API call that may fail. before is the trace it met. */
    method AppCall(i: nat, ghost call: Call) returns (ok: bool, ghost before: seq<Step>)
      requires Valid() && At(i, call) && call.space.Some? && (call.pc.FindApp? || call.pc.PushApp? || call.pc.RunTask?)
      modifies this, cache
      ensures Valid() && i < |st.calls| && st.calls[i] == call.(pc := st.calls[i].pc) && clock == old(clock) + 1
      ensures var turn := script(old(clock));
              && before == old(trace) + Elsewhere(i, turn.others)
              && trace == before + [Proceed(i, turn.ok, turn.found)]
      ensures var turn, w := script(old(clock)), Run(config, dir0, before);
              match call.pc
              case FindApp =>
                && ok == Finds(w, call, turn.ok, turn.found) && st.apps == w.apps
                && st.calls[i].pc == if ok then RunTask(turn.found) else PushApp
              case PushApp =>
                && ok == turn.ok && st.apps == (if ok then w.apps + [Pushed(call)] else w.apps)
                && st.calls[i].pc == if ok then RunTask(|w.apps|) else ApiFailed
              case _ =>
                && ok == turn.ok && st.apps == w.apps
                && st.calls[i].pc == if ok then Ran(call.pc.app) else ApiFailed
    {
      hide Run, KeyOf, QueryOf, Elsewhere;
      Others(i, call);
      before := trace;
      var turn := script(clock);
      Do(Proceed(i, turn.ok, turn.found));
      clock := clock + 1;
      ok := st.calls[i].pc != PushApp && st.calls[i].pc != ApiFailed;
    }

    /** An app by its number, or None if the push failed. If the lookup finds one, that one, and nothing is pushed;
        otherwise the one it then pushes. */
    method EnsureRunnerApp(i: nat, ghost call: Call) returns (app: Option<nat>, ghost before: seq<Step>)
      requires Valid() && At(i, call) && call.space.Some? && call.pc == FindApp
      modifies this, cache
      ensures Valid() && old(trace) <= before < trace
      ensures At(i, call.(pc := match app case None => ApiFailed case Some(a) => RunTask(a)))
      ensures var turn := script(old(clock));
              && before == old(trace) + Elsewhere(i, turn.others)
              && trace[|before|] == Proceed(i, turn.ok, turn.found)
              && if Finds(Run(config, dir0, before), call, turn.ok, turn.found) then
                   && app == Some(turn.found) && trace == before + [trace[|before|]] && clock == old(clock) + 1
                 else
                   && clock == old(clock) + 2 && (app.Some? <==> script(old(clock) + 1).ok)
                   && (app.Some? ==> |st.apps| == app.value + 1 && st.apps[app.value] == Pushed(call))
    {
      hide Run, Next, Elsewhere, Finds;
      var ok;
      ok, before := AppCall(i, call);
      if !ok {
        ghost var later;
        ok, later := AppCall(i, st.calls[i]);
        if !ok {
          return None, before;
        }
      }
      app := Some(st.calls[i].pc.app);
    }

    /** A new call. */
    method Start(tenant: string, role: string) returns (i: nat)
      requires Valid()
      modifies this, cache
      ensures Valid() && trace == old(trace) + [Spawn(tenant, role)] && clock == old(clock)
      ensures i == |old(st).calls| && At(i, Call(tenant, role, ReadOrg, None, None))
    {
      hide Run;
      i := |st.calls|;
      Do(Spawn(tenant, role));
    }

    /** Answers the app the new task runs on. Under the assumptions about GUIDs that app was pushed for this tenant and
        role, in the space the directory itself names if it has not changed. */
    method SpawnAgent(tenant: string, roles: seq<string>) returns (app: Option<App>)
      requires Valid()
      modifies this, cache
      ensures Valid() && old(trace) <= trace
      ensures roles == [] ==> app == None && st == old(st)
      ensures roles != [] ==>
                && |old(st).calls| < |st.calls|
                && var call := st.calls[|old(st).calls|];
                && call.tenant == tenant && call.role == roles[0]
                && old(clock) < clock
                && (if app.Some? then call.pc.Ran? && script(clock - 1).ok
                    else call.pc == if script(clock - 1).ok then Unknown else ApiFailed)
      ensures app.Some? ==> RunsFor(config, st, st.calls[|old(st).calls|], app.value)
    {
      hide Valid, Run, Next, Elsewhere, Finds, Pushed, LookupFailed, LeadsTo, Steady, ColonFreeGuids, RunsFor;
      if roles == [] {
        return None;
      }
      var i := Start(tenant, roles[0]);
      var spaceGUID := ResolveSpaceGUID(i, tenant, st.calls[i]);
      if spaceGUID == None {
        return None;
      }
      ghost var before;
      var runner;
      runner, before := EnsureRunnerApp(i, st.calls[i]);
      if runner == None {
        return None;
      }
      var ok;
      ok, before := AppCall(i, st.calls[i]);
      if !ok {
        return None;
      }
      app := Finish(i, runner.value);
    }

    /** What is known of the app that call i now runs on. */
    method Finish(i: nat, a: nat) returns (app: Option<App>)
      requires Valid() && i < |st.calls| && st.calls[i].pc == Ran(a)
      ensures app.Some? && RunsFor(config, st, st.calls[i], app.value)
    {
      hide Direct, GuidsTellApart, Steady, LeadsTo, Run;
      RunsAlwaysOk(config, dir0, trace);
      assert RunsOk(st.calls[i], st.apps);
      app := Some(st.apps[a]);
      if ColonFreeGuids(st.dirs) {
        if GuidsTellApart(config, st.dirs) {
          RunsOnItsOwnApp(config, dir0, trace, i);
        }
        if Steady(st.dirs, config, st.calls[i].tenant) {
          ResolvesIff(config, dir0, trace, i);
        }
      }
    }
  }
}
