/** What holds in every run of the Cloud Foundry adapter. */
module CfTheorems {
  import opened Lifecycle
  import opened GuidCache
  import opened CfModel

  /** Assumption: org GUIDs hold no colon. */
  ghost predicate ColonFreeGuids(dirs: seq<Directory>) {
    forall v, name | 0 <= v < |dirs| && name in dirs[v].orgs :: ColonFree(dirs[v].orgs[name])
  }

  /** A directory version's answer, stored by some call at r.at. */
  ghost predicate Genuine(dirs: seq<Directory>, r: Stored) {
    Good(r.query) && r.version < |dirs| && dirs[r.version].Answer(r.query) == Some(r.guid) && r.asked <= r.at
  }

  ghost predicate LogOk(dirs: seq<Directory>, log: seq<Stored>, now: int) {
    forall r | r in log :: Genuine(dirs, r) && r.at <= now
  }

  ghost predicate EntryOk(log: seq<Stored>, key: string, e: Entry, ttl: nat) {
    exists r :: r in log && KeyOf(r.query) == key && r.guid == e.guid && r.at + ttl == e.expiry
  }

  ghost predicate EntriesOk(entries: map<string, Entry>, log: seq<Stored>, ttl: nat) {
    forall key | key in entries :: EntryOk(log, key, entries[key], ttl)
  }

  /** The GUID was got at a time when it had been stored, for this very query, at most ttl ago. */
  ghost predicate Vouched(log: seq<Stored>, ttl: nat, q: Query, got: Got) {
    exists r :: r in log && r.query == q && r.guid == got.guid && r.at <= got.at <= r.at + ttl
  }

  /** The call's two GUIDs are vouched for. */
  ghost predicate GotsOk(cfg: Config, log: seq<Stored>, call: Call) {
    && (call.org.Some? ==> Vouched(log, cfg.ttl, Org(OrgName(cfg, call.tenant)), call.org.value))
    && (call.space.Some? ==>
          call.org.Some? && Vouched(log, cfg.ttl, Space(call.org.value.guid, SpaceName(cfg, call.tenant)),
              call.space.value))
  }

  /** The call's place in SpawnAgent fits what it has got. */
  ghost predicate PlaceOk(cfg: Config, dirs: seq<Directory>, now: int, call: Call) {
    match call.pc
    case ReadOrg => call.org.None? && call.space.None?
    case AskOrg => call.org.None? && call.space.None?
    case StoreOrg(guid, v, asked) =>
        call.org.None? && call.space.None? && Answered(cfg, dirs, now, call, guid, v, asked)
    case ReadSpace => call.org.Some? && call.space.None?
    case AskSpace => call.org.Some? && call.space.None?
    case StoreSpace(guid, v, asked) =>
        call.org.Some? && call.space.None? && Answered(cfg, dirs, now, call, guid, v, asked)
    case Unknown => call.space.None? && exists v :: 0 <= v < |dirs| && dirs[v].Answer(QueryOf(cfg, call)) == None
    case ApiFailed => true
    case _ => call.space.Some?
  }

  ghost predicate Answered(cfg: Config, dirs: seq<Directory>, now: int, call: Call, guid: string, v: nat, asked: int) {
    v < |dirs| && dirs[v].Answer(QueryOf(cfg, call)) == Some(guid) && asked <= now
  }

  ghost predicate CallOk(cfg: Config, dirs: seq<Directory>, log: seq<Stored>, now: int, call: Call) {
    GotsOk(cfg, log, call) && PlaceOk(cfg, dirs, now, call)
  }

  ghost predicate CallsOk(w: World) {
    forall i | 0 <= i < |w.calls| :: CallOk(w.cfg, w.dirs, w.log, w.now, w.calls[i])
  }

  /** Some call resolved the tenant to this space. */
  ghost predicate Resolved(cfg: Config, log: seq<Stored>, tenant: string, space: string) {
    exists r, s :: r in log && s in log && r.query == Org(OrgName(cfg, tenant))
      && s.query == Space(r.guid, SpaceName(cfg, tenant)) && s.guid == space
  }

  ghost predicate AppsOk(cfg: Config, log: seq<Stored>, apps: seq<App>) {
    forall app | app in apps :: app.name == RunnerName(app.tenant, app.role)
        && Resolved(cfg, log, app.tenant, app.space)
  }

  /** A call that runs a task runs it on an app it found or pushed. */
  ghost predicate RunsOk(call: Call, apps: seq<App>) {
    call.pc.RunTask? || call.pc.Ran? ==>
      && call.pc.app < |apps| && call.space.Some?
      && apps[call.pc.app].space == call.space.value.guid
      && apps[call.pc.app].name == RunnerName(call.tenant, call.role)
  }

  ghost predicate AllRunsOk(calls: seq<Call>, apps: seq<App>) {
    forall i | 0 <= i < |calls| :: RunsOk(calls[i], apps)
  }

  ghost predicate Inv(w: World) {
    && w.dirs != [] && LogOk(w.dirs, w.log, w.now) && EntriesOk(w.entries, w.log, w.cfg.ttl)
    && CallsOk(w) && AppsOk(w.cfg, w.log, w.apps) && AllRunsOk(w.calls, w.apps)
  }

  /** Everything but the calls only grows. */
  ghost predicate Grows(w: World, w': World) {
    w'.cfg == w.cfg && w.dirs <= w'.dirs && w.log <= w'.log && w.apps <= w'.apps && w.now <= w'.now
        && |w.calls| <= |w'.calls|
  }

  lemma StepGrows(w: World, step: Step)
    ensures Grows(w, Next(w, step))
  {
    hide KeyOf, Hit, QueryOf;
  }

  lemma KeepsVouched(log: seq<Stored>, log': seq<Stored>, ttl: nat, q: Query, got: Got)
    requires log <= log' && Vouched(log, ttl, q, got)
    ensures Vouched(log', ttl, q, got)
  {
    var r :| r in log && r.query == q && r.guid == got.guid && r.at <= got.at <= r.at + ttl;
    assert r in log';
  }

  lemma KeepsCall(w: World, w': World, call: Call)
    requires Grows(w, w') && CallOk(w.cfg, w.dirs, w.log, w.now, call)
    ensures CallOk(w.cfg, w'.dirs, w'.log, w'.now, call)
  {
    hide QueryOf, OrgName, SpaceName;
    if call.org.Some? {
      KeepsVouched(w.log, w'.log, w.cfg.ttl, Org(OrgName(w.cfg, call.tenant)), call.org.value);
    }
    if call.space.Some? {
      KeepsVouched(w.log, w'.log, w.cfg.ttl, Space(call.org.value.guid, SpaceName(w.cfg, call.tenant)),
          call.space.value);
    }
    if call.pc.Unknown? {
      var v :| 0 <= v < |w.dirs| && w.dirs[v].Answer(QueryOf(w.cfg, call)) == None;
      assert w'.dirs[v] == w.dirs[v];
    }
    hide Vouched;
  }

  lemma KeepsLog(w: World, w': World, r: Stored)
    requires Grows(w, w') && Genuine(w.dirs, r)
    ensures Genuine(w'.dirs, r)
  {
    assert w'.dirs[r.version] == w.dirs[r.version];
  }

  lemma KeepsEntries(entries: map<string, Entry>, log: seq<Stored>, log': seq<Stored>, ttl: nat)
    requires log <= log' && EntriesOk(entries, log, ttl)
    ensures EntriesOk(entries, log', ttl)
  {
    forall key | key in entries
      ensures EntryOk(log', key, entries[key], ttl)
    {
      assert EntryOk(log, key, entries[key], ttl);
      var r :| r in log && KeyOf(r.query) == key && r.guid == entries[key].guid && r.at + ttl == entries[key].expiry;
      assert r in log';
    }
  }

  lemma KeepsResolved(cfg: Config, log: seq<Stored>, log': seq<Stored>, tenant: string, space: string)
    requires log <= log' && Resolved(cfg, log, tenant, space)
    ensures Resolved(cfg, log', tenant, space)
  {
    var r, s :| r in log && s in log && r.query == Org(OrgName(cfg, tenant))
      && s.query == Space(r.guid, SpaceName(cfg, tenant)) && s.guid == space;
    assert r in log' && s in log';
  }

  /** An org GUID of the directory makes a good space query. */
  lemma QueriesAreGood(w: World, call: Call)
    requires ColonFreeGuids(w.dirs) && LogOk(w.dirs, w.log, w.now) && GotsOk(w.cfg, w.log, call)
    ensures Good(QueryOf(w.cfg, call))
  {
    if call.org.Some? {
      var q := Org(OrgName(w.cfg, call.tenant));
      assert Vouched(w.log, w.cfg.ttl, q, call.org.value);
      var r :| r in w.log && r.query == q && r.guid == call.org.value.guid;
      assert Genuine(w.dirs, r);
      assert q.name in w.dirs[r.version].orgs;
    }
  }

  /** A hit is a GUID stored for this very query. */
  lemma HitIsVouched(w: World, q: Query, guid: string)
    requires LogOk(w.dirs, w.log, w.now) && EntriesOk(w.entries, w.log, w.cfg.ttl) && Good(q)
    requires Hit(w.entries, KeyOf(q), w.now) == Some(guid)
    ensures Vouched(w.log, w.cfg.ttl, q, Got(guid, w.now))
  {
    var e := w.entries[KeyOf(q)];
    assert EntryOk(w.log, KeyOf(q), e, w.cfg.ttl);
    var r :| r in w.log && KeyOf(r.query) == KeyOf(q) && r.guid == e.guid && r.at + w.cfg.ttl == e.expiry;
    assert Genuine(w.dirs, r);
    KeysInjective(r.query, q);
  }

  /** The step's own call is fine afterwards. */
  lemma OwnCall(w: World, i: nat, ok: bool, found: nat)
    requires ColonFreeGuids(w.dirs) && Inv(w) && i < |w.calls|
    ensures var w' := Next(w, Proceed(i, ok, found));
            i < |w'.calls| && CallOk(w.cfg, w'.dirs, w'.log, w'.now, w'.calls[i])
  {
    var w' := Next(w, Proceed(i, ok, found));
    var call := w.calls[i];
    StepGrows(w, Proceed(i, ok, found));
    assert CallOk(w.cfg, w.dirs, w.log, w.now, call);
    KeepsCall(w, w', call);
    QueriesAreGood(w, call);
    var q := QueryOf(w.cfg, call);
    hide KeyOf, OrgName, SpaceName, RunnerName, ColonFreeGuids, LogOk, EntriesOk, CallsOk, AppsOk, AllRunsOk, Grows;
    match call.pc
    case ReadOrg => ReadOk(w, i);
    case ReadSpace => ReadOk(w, i);
    case AskOrg => AskOk(w, i, ok);
    case AskSpace => AskOk(w, i, ok);
    case StoreOrg(_, _, _) => StoreOk(w, i);
    case StoreSpace(_, _, _) => StoreOk(w, i);
    case _ =>
  }

  lemma ReadOk(w: World, i: nat)
    requires LogOk(w.dirs, w.log, w.now) && EntriesOk(w.entries, w.log, w.cfg.ttl)
    requires i < |w.calls| && CallOk(w.cfg, w.dirs, w.log, w.now, w.calls[i]) && Good(QueryOf(w.cfg, w.calls[i]))
    requires w.calls[i].pc.ReadOrg? || w.calls[i].pc.ReadSpace?
    ensures CallOk(w.cfg, w.dirs, w.log, w.now, DoRead(w, i).calls[i])
  {
    var q := QueryOf(w.cfg, w.calls[i]);
    var hit := Hit(w.entries, KeyOf(q), w.now);
    if hit.Some? {
      HitIsVouched(w, q, hit.value);
    }
    hide Vouched, Hit, KeyOf, LogOk, EntriesOk, Good, OrgName, SpaceName;
  }

  lemma AskOk(w: World, i: nat, ok: bool)
    requires w.dirs != [] && i < |w.calls| && CallOk(w.cfg, w.dirs, w.log, w.now, w.calls[i])
    requires w.calls[i].pc.AskOrg? || w.calls[i].pc.AskSpace?
    ensures CallOk(w.cfg, w.dirs, w.log, w.now, DoAsk(w, i, ok).calls[i])
  {
    hide Vouched, OrgName, SpaceName;
    var call := w.calls[i];
    assert forall pc :: QueryOf(w.cfg, call.(pc := pc)) == QueryOf(w.cfg, call);
  }

  lemma StoreOk(w: World, i: nat)
    requires i < |w.calls| && CallOk(w.cfg, w.dirs, w.log, w.now, w.calls[i])
    requires w.calls[i].pc.StoreOrg? || w.calls[i].pc.StoreSpace?
    ensures CallOk(w.cfg, w.dirs, DoStore(w, i).log, w.now, DoStore(w, i).calls[i])
  {
    var call, w' := w.calls[i], DoStore(w, i);
    var q, guid := QueryOf(w.cfg, call), call.pc.guid;
    var r := w'.log[|w.log|];
    assert r in w'.log;
    assert Vouched(w'.log, w.cfg.ttl, q, Got(guid, w.now));
    if call.org.Some? {
      KeepsVouched(w.log, w'.log, w.cfg.ttl, Org(OrgName(w.cfg, call.tenant)), call.org.value);
    }
    hide Vouched, OrgName, SpaceName;
  }

  /** A step moves at most the call it names, and may add one. */
  lemma OtherCalls(w: World, step: Step)
    ensures var w' := Next(w, step);
            && (forall k | 0 <= k < |w.calls| && !(step.Proceed? && step.i == k) :: w'.calls[k] == w.calls[k])
            && (forall k | |w.calls| <= k < |w'.calls| ::
                  w'.calls[k].pc == ReadOrg && w'.calls[k].org == None && w'.calls[k].space == None)
  {
    hide KeyOf, Hit, QueryOf, RunnerName;
  }

  lemma StepCalls(w: World, step: Step)
    requires ColonFreeGuids(w.dirs) && Inv(w)
    ensures CallsOk(Next(w, step))
  {
    var w' := Next(w, step);
    StepGrows(w, step);
    OtherCalls(w, step);
    hide Next, Grows, Inv, Vouched, ColonFreeGuids;
    forall k | 0 <= k < |w'.calls|
      ensures CallOk(w'.cfg, w'.dirs, w'.log, w'.now, w'.calls[k])
    {
      assert w'.cfg == w.cfg by { StepCfg(w, step); }
      if k < |w.calls| {
        if step.Proceed? && step.i == k {
          OwnCall(w, k, step.ok, step.found);
        } else {
          InvCall(w, k);
          KeepsCall(w, w', w.calls[k]);
        }
      }
    }
  }

  lemma StepCfg(w: World, step: Step)
    ensures Next(w, step).cfg == w.cfg
  {
    StepGrows(w, step);
  }

  lemma InvCall(w: World, k: nat)
    requires Inv(w) && k < |w.calls|
    ensures CallOk(w.cfg, w.dirs, w.log, w.now, w.calls[k]) && RunsOk(w.calls[k], w.apps)
  {
  }

  /** What the steps do to cache and log: only a store writes, and it writes both. */
  lemma StoreSteps(w: World, step: Step)
    ensures var w' := Next(w, step);
            if step.Proceed? && step.i < |w.calls| && w.dirs != []
                && (w.calls[step.i].pc.StoreOrg? || w.calls[step.i].pc.StoreSpace?) then
              var call := w.calls[step.i];
              var r := Stored(QueryOf(w.cfg, call), call.pc.guid, call.pc.version, call.pc.asked, w.now);
              w'.log == w.log + [r] && w'.entries == w.entries[KeyOf(r.query) := Entry(r.guid, r.at + w.cfg.ttl)]
            else w'.log == w.log && w'.entries == w.entries
  {
    hide KeyOf, Hit, QueryOf, RunnerName;
  }

  lemma StepLog(w: World, step: Step)
    requires ColonFreeGuids(w.dirs) && Inv(w)
    ensures var w' := Next(w, step);
            LogOk(w'.dirs, w'.log, w'.now) && EntriesOk(w'.entries, w'.log, w'.cfg.ttl)
  {
    var w' := Next(w, step);
    StepGrows(w, step);
    StoreSteps(w, step);
    KeepsEntries(w.entries, w.log, w'.log, w.cfg.ttl);
    hide Next, KeyOf, QueryOf;
    forall r | r in w.log
      ensures Genuine(w'.dirs, r)
    {
      KeepsLog(w, w', r);
    }
    if w'.log != w.log {
      var call := w.calls[step.i];
      var r := w'.log[|w.log|];
      InvCall(w, step.i);
      QueriesAreGood(w, call);
      assert Genuine(w.dirs, r);
      KeepsLog(w, w', r);
      hide Genuine, CallsOk, AppsOk, ColonFreeGuids, CallOk;
      EntryStored(w.entries, w.log, r, w.cfg.ttl);
    }
  }

  lemma EntryStored(entries: map<string, Entry>, log: seq<Stored>, r: Stored, ttl: nat)
    requires EntriesOk(entries, log, ttl)
    ensures EntriesOk(entries[KeyOf(r.query) := Entry(r.guid, r.at + ttl)], log + [r], ttl)
  {
    KeepsEntries(entries, log, log + [r], ttl);
    assert r in log + [r];
    assert EntryOk(log + [r], KeyOf(r.query), Entry(r.guid, r.at + ttl), ttl);
  }

  /** A resolved call has resolved its tenant. */
  lemma CallResolved(cfg: Config, log: seq<Stored>, call: Call)
    requires GotsOk(cfg, log, call) && call.space.Some?
    ensures Resolved(cfg, log, call.tenant, call.space.value.guid)
  {
    var q := Org(OrgName(cfg, call.tenant));
    var r :| r in log && r.query == q && r.guid == call.org.value.guid;
    var s :| s in log && s.query == Space(r.guid, SpaceName(cfg, call.tenant)) && s.guid == call.space.value.guid;
  }

  lemma AppCalls(w: World, i: nat, ok: bool, found: nat)
    requires i < |w.calls| && RunsOk(w.calls[i], w.apps)
    ensures var w', call := DoApp(w, i, ok, found), w.calls[i];
            && (w'.apps != w.apps ==>
                  && call.space.Some?
                  && w'.apps == w.apps + [App(call.space.value.guid, RunnerName(call.tenant, call.role), call.tenant,
                       call.role)])
            && RunsOk(w'.calls[i], w'.apps)
  {
    hide RunnerName;
  }

  lemma LookupCalls(w: World, i: nat, ok: bool)
    requires i < |w.calls| && w.dirs != []
    ensures DoRead(w, i).apps == w.apps && RunsOk(DoRead(w, i).calls[i], w.apps)
    ensures DoAsk(w, i, ok).apps == w.apps && RunsOk(DoAsk(w, i, ok).calls[i], w.apps)
    ensures w.calls[i].pc.StoreOrg? || w.calls[i].pc.StoreSpace? ==>
              DoStore(w, i).apps == w.apps && RunsOk(DoStore(w, i).calls[i], w.apps)
  {
    hide KeyOf, Hit, QueryOf, RunnerName;
  }

  /** What the steps do to the apps: only a push adds one, of the call's own tenant, role and space. */
  lemma AppSteps(w: World, step: Step)
    requires step.Proceed? && step.i < |w.calls| ==> RunsOk(w.calls[step.i], w.apps)
    ensures var w' := Next(w, step);
            && (w'.apps != w.apps ==>
                  && step.Proceed? && step.i < |w.calls| && w.calls[step.i].space.Some?
                  && var call := w.calls[step.i];
                  w'.apps == w.apps + [App(call.space.value.guid, RunnerName(call.tenant, call.role), call.tenant,
                      call.role)])
            && (step.Proceed? && step.i < |w.calls| ==> RunsOk(w'.calls[step.i], w'.apps))
  {
    if step.Proceed? && step.i < |w.calls| && w.dirs != [] {
      AppCalls(w, step.i, step.ok, step.found);
      LookupCalls(w, step.i, step.ok);
      hide DoApp, DoRead, DoAsk, DoStore;
    }
    hide RunsOk, RunnerName;
  }

  lemma StepApps(w: World, step: Step)
    requires Inv(w)
    ensures var w' := Next(w, step);
            AppsOk(w'.cfg, w'.log, w'.apps) && AllRunsOk(w'.calls, w'.apps)
  {
    var w' := Next(w, step);
    StepGrows(w, step);
    OtherCalls(w, step);
    if step.Proceed? && step.i < |w.calls| {
      InvCall(w, step.i);
    }
    AppSteps(w, step);
    hide Next, LogOk, EntriesOk, RunnerName, Resolved, GotsOk, PlaceOk;
    forall app | app in w'.apps
      ensures app.name == RunnerName(app.tenant, app.role) && Resolved(w'.cfg, w'.log, app.tenant, app.space)
    {
      if app !in w.apps {
        CallResolved(w.cfg, w.log, w.calls[step.i]);
      }
      KeepsResolved(w.cfg, w.log, w'.log, app.tenant, app.space);
    }
  }

  lemma {:induction false} RunInv(cfg: Config, dir: Directory, steps: seq<Step>)
    requires ColonFreeGuids(Run(cfg, dir, steps).dirs)
    ensures Inv(Run(cfg, dir, steps)) && Run(cfg, dir, steps).cfg == cfg
    decreases |steps|
  {
    if steps != [] {
      var front, step := steps[..|steps| - 1], steps[|steps| - 1];
      var w := Run(cfg, dir, front);
      StepGrows(w, step);
      assert Run(cfg, dir, steps) == Next(w, step);
      hide Next;
      assert forall v | 0 <= v < |w.dirs| :: Next(w, step).dirs[v] == w.dirs[v];
      assert ColonFreeGuids(w.dirs);
      RunInv(cfg, dir, front);
      StepCalls(w, step);
      StepLog(w, step);
      StepApps(w, step);
    }
  }

  /** Whatever the GUIDs look like, a task runs on an app that exists. */
  lemma {:induction false} RunsAlwaysOk(cfg: Config, dir: Directory, steps: seq<Step>)
    ensures AllRunsOk(Run(cfg, dir, steps).calls, Run(cfg, dir, steps).apps)
    decreases |steps|
  {
    if steps != [] {
      var front, step := steps[..|steps| - 1], steps[|steps| - 1];
      RunsAlwaysOk(cfg, dir, front);
      var w := Run(cfg, dir, front);
      StepGrows(w, step);
      OtherCalls(w, step);
      AppSteps(w, step);
      assert Run(cfg, dir, steps) == Next(w, step);
      hide Next, RunnerName;
    }
  }

  // ------------------------------------------------------------------ main results

  /** However many calls interleave and however the directory changes, the GUIDs a call works with are answers: the org
      GUID and the space GUID were each stored by a call that had asked the directory this very question, at most ttl
      before this call took them. In the dedicated tier the questions are for the tenant's own org and its space
      "muto-agents", in the shared one for the shared org and the tenant's own space. */
  lemma GuidsAreAnswers(cfg: Config, dir: Directory, steps: seq<Step>, i: nat) returns (org: Stored, space: Stored)
    requires ColonFreeGuids(Run(cfg, dir, steps).dirs)
    requires i < |Run(cfg, dir, steps).calls| && Run(cfg, dir, steps).calls[i].space.Some?
    ensures var w := Run(cfg, dir, steps);
            var call := w.calls[i];
            && call.org.Some? && org in w.log && space in w.log
            && org.guid == call.org.value.guid && space.guid == call.space.value.guid
            && org.version < |w.dirs| && space.version < |w.dirs| && org.asked <= org.at && space.asked <= space.at
            && var orgs, spaces := w.dirs[org.version].orgs, w.dirs[space.version].spaces;
            && (if cfg.dedicated then
                  && org.query == Org(call.tenant) && space.query == Space(org.guid, "muto-agents")
                  && call.tenant in orgs && orgs[call.tenant] == org.guid
                  && (org.guid, "muto-agents") in spaces && spaces[(org.guid, "muto-agents")] == space.guid
                else
                  && org.query == Org(cfg.sharedOrg) && space.query == Space(org.guid, call.tenant)
                  && cfg.sharedOrg in orgs && orgs[cfg.sharedOrg] == org.guid
                  && (org.guid, call.tenant) in spaces && spaces[(org.guid, call.tenant)] == space.guid)
            && org.at <= call.org.value.at <= org.at + cfg.ttl
            && space.at <= call.space.value.at <= space.at + cfg.ttl
  {
    RunInv(cfg, dir, steps);
    var w := Run(cfg, dir, steps);
    hide Run;
    InvCall(w, i);
    var call := w.calls[i];
    hide CallsOk, AppsOk, EntriesOk, PlaceOk, AllRunsOk;
    var p, q := Org(OrgName(cfg, call.tenant)), Space(call.org.value.guid, SpaceName(cfg, call.tenant));
    assert Vouched(w.log, cfg.ttl, p, call.org.value) && Vouched(w.log, cfg.ttl, q, call.space.value);
    org :| org in w.log && org.query == p && org.guid == call.org.value.guid
        && org.at <= call.org.value.at <= org.at + cfg.ttl;
    space :| space in w.log && space.query == q && space.guid == call.space.value.guid
      && space.at <= call.space.value.at <= space.at + cfg.ttl;
    assert Genuine(w.dirs, org) && Genuine(w.dirs, space);
  }

  /** The writes of a log, by key. */
  function Writes(log: seq<Stored>): seq<Write> {
    seq(|log|, k requires 0 <= k < |log| => Write(KeyOf(log[k].query), log[k].guid, log[k].at))
  }

  lemma {:induction false} CacheIsReplay(cfg: Config, dir: Directory, steps: seq<Step>)
    ensures var w := Run(cfg, dir, steps);
            w.cfg == cfg && w.entries == Replay(Writes(w.log), cfg.ttl)
    decreases |steps|
  {
    if steps != [] {
      var front, step := steps[..|steps| - 1], steps[|steps| - 1];
      CacheIsReplay(cfg, dir, front);
      var w := Run(cfg, dir, front);
      StepGrows(w, step);
      StoreSteps(w, step);
      assert Run(cfg, dir, steps) == Next(w, step);
      hide Next, KeyOf, QueryOf;
      var w' := Run(cfg, dir, steps);
      if w'.log != w.log {
        assert Writes(w'.log)[..|w.log|] == Writes(w.log);
      }
    }
  }

  /** Entry k of the log is the newest answer to this question. */
  ghost predicate NewestAnswer(log: seq<Stored>, q: Query, k: int) {
    0 <= k < |log| && log[k].query == q && forall l | k < l < |log| :: log[l].query != q
  }

  /** The newest answer to this question was stored at most ttl ago. */
  ghost predicate Remembered(w: World, q: Query, guid: string) {
    exists k :: NewestAnswer(w.log, q, k) && w.log[k].guid == guid && w.now <= w.log[k].at + w.cfg.ttl
  }

  lemma NewestByKey(dirs: seq<Directory>, log: seq<Stored>, now: int, q: Query, k: int)
    requires LogOk(dirs, log, now) && Good(q)
    ensures NewestAnswer(log, q, k) <==> Newest(Writes(log), KeyOf(q), k)
  {
    forall l | 0 <= l < |log|
      ensures log[l].query == q <==> Writes(log)[l].key == KeyOf(q)
    {
      assert log[l] in log && Genuine(dirs, log[l]);
      if KeyOf(log[l].query) == KeyOf(q) {
        KeysInjective(log[l].query, q);
      }
    }
    hide KeyOf, LogOk, Good;
    assert forall l | 0 <= l < |log| :: Writes(log)[l].guid == log[l].guid;
  }

  lemma HitIsRemembered(w: World, q: Query, guid: string)
    requires LogOk(w.dirs, w.log, w.now) && Good(q) && w.entries == Replay(Writes(w.log), w.cfg.ttl)
    ensures Hit(w.entries, KeyOf(q), w.now) == Some(guid) <==> Remembered(w, q, guid)
  {
    HitIff(Writes(w.log), w.cfg.ttl, KeyOf(q), w.now, guid);
    hide KeyOf, LogOk, Good, Hit, Newest;
    forall k
      ensures NewestAnswer(w.log, q, k) <==> Newest(Writes(w.log), KeyOf(q), k)
    {
      NewestByKey(w.dirs, w.log, w.now, q, k);
    }
    assert forall k | NewestAnswer(w.log, q, k) :: 0 <= k < |w.log|;
    var ws := Writes(w.log);
    assert forall k | 0 <= k < |w.log| :: ws[k].guid == w.log[k].guid && ws[k].at == w.log[k].at;
  }

  /** When the cache saves a call: a call that looks for a GUID takes the newest one any call has stored for this very
      question if that is at most ttl ago, and asks the API if and only if there is none. */
  lemma AsksIff(cfg: Config, dir: Directory, steps: seq<Step>, i: nat, ok: bool, found: nat)
    requires ColonFreeGuids(Run(cfg, dir, steps).dirs) && i < |Run(cfg, dir, steps).calls|
    requires Run(cfg, dir, steps).calls[i].pc in {ReadOrg, ReadSpace}
    ensures var w := Run(cfg, dir, steps);
            var call, w' := w.calls[i], Next(w, Proceed(i, ok, found));
            var q := QueryOf(cfg, call);
            && i < |w'.calls|
            && (w'.calls[i].pc in {AskOrg, AskSpace} <==> forall guid :: !Remembered(w, q, guid))
            && (forall guid | Remembered(w, q, guid) ::
                  w'.calls[i] == if call.pc == ReadOrg then call.(org := Some(Got(guid, w.now)), pc := ReadSpace)
                                 else call.(space := Some(Got(guid, w.now)), pc := FindApp))
  {
    RunInv(cfg, dir, steps);
    CacheIsReplay(cfg, dir, steps);
    var w := Run(cfg, dir, steps);
    hide Run;
    InvCall(w, i);
    QueriesAreGood(w, w.calls[i]);
    var q := QueryOf(cfg, w.calls[i]);
    forall guid
      ensures Hit(w.entries, KeyOf(q), w.now) == Some(guid) <==> Remembered(w, q, guid)
    {
      HitIsRemembered(w, q, guid);
    }
    hide KeyOf, QueryOf, Remembered, Hit, GotsOk, ColonFreeGuids, EntriesOk, LogOk, CallsOk, AppsOk, AllRunsOk;
  }

  ghost predicate AnsweredOnce(dirs: seq<Directory>, name: string, guid: string) {
    exists v :: 0 <= v < |dirs| && dirs[v].Answer(Org(name)) == Some(guid)
  }

  lemma OrgAnswer(w: World, call: Call) returns (r: Stored)
    requires LogOk(w.dirs, w.log, w.now) && GotsOk(w.cfg, w.log, call) && call.org.Some?
    ensures r in w.log && Genuine(w.dirs, r) && r.query == Org(OrgName(w.cfg, call.tenant))
            && r.guid == call.org.value.guid
    ensures AnsweredOnce(w.dirs, OrgName(w.cfg, call.tenant), call.org.value.guid)
  {
    var q := Org(OrgName(w.cfg, call.tenant));
    r :| r in w.log && r.query == q && r.guid == call.org.value.guid;
  }

  lemma SpaceAnswer(w: World, call: Call) returns (r: Stored)
    requires LogOk(w.dirs, w.log, w.now) && GotsOk(w.cfg, w.log, call) && call.space.Some?
    ensures call.org.Some? && r in w.log && Genuine(w.dirs, r) && r.guid == call.space.value.guid
    ensures r.query == Space(call.org.value.guid, SpaceName(w.cfg, call.tenant))
  {
    var q := Space(call.org.value.guid, SpaceName(w.cfg, call.tenant));
    r :| r in w.log && r.query == q && r.guid == call.space.value.guid;
  }

  /** The directory has not changed in what this tenant's calls ask it. */
  ghost predicate Steady(dirs: seq<Directory>, cfg: Config, tenant: string) {
    forall u, v | 0 <= u < |dirs| && 0 <= v < |dirs| :: SameAnswers(dirs[u], dirs[v], cfg, tenant)
  }

  ghost predicate SameAnswers(d: Directory, e: Directory, cfg: Config, tenant: string) {
    var org := d.Answer(Org(OrgName(cfg, tenant)));
    && e.Answer(Org(OrgName(cfg, tenant))) == org
    && (org.Some? ==>
          d.Answer(Space(org.value, SpaceName(cfg, tenant))) == e.Answer(Space(org.value, SpaceName(cfg, tenant))))
  }

  /** As long as the answers for its tenant do not change, a cached resolve agrees with the uncached one of the current
      directory, in both answers; what else changes in the directory does not matter. */
  lemma AgreesWithDirect(cfg: Config, dir: Directory, steps: seq<Step>, i: nat)
    requires ColonFreeGuids(Run(cfg, dir, steps).dirs) && i < |Run(cfg, dir, steps).calls|
    requires Steady(Run(cfg, dir, steps).dirs, cfg, Run(cfg, dir, steps).calls[i].tenant)
    ensures var w := Run(cfg, dir, steps);
            var call := w.calls[i];
            && w.dirs != []
            && (call.space.Some? ==> Direct(cfg, w.Dir(), call.tenant) == Some(call.space.value.guid))
            && (call.pc.Unknown? ==> Direct(cfg, w.Dir(), call.tenant) == None)
  {
    RunInv(cfg, dir, steps);
    var w := Run(cfg, dir, steps);
    hide Run;
    InvCall(w, i);
    var call, last := w.calls[i], |w.dirs| - 1;
    hide ColonFreeGuids, EntriesOk, CallsOk, AppsOk, AllRunsOk;
    if call.org.Some? {
      var r := OrgAnswer(w, call);
      assert SameAnswers(w.dirs[r.version], w.dirs[last], cfg, call.tenant);
      if call.space.Some? {
        var s := SpaceAnswer(w, call);
        assert SameAnswers(w.dirs[s.version], w.dirs[last], cfg, call.tenant);
      }
      hide LogOk;
    }
    if call.pc.Unknown? {
      var v :| 0 <= v < |w.dirs| && w.dirs[v].Answer(QueryOf(cfg, call)) == None;
      assert SameAnswers(w.dirs[v], w.dirs[last], cfg, call.tenant);
    }
  }

  /** The directory leads from this tenant to this space: over its own org and the space "muto-agents" there in the
      dedicated tier, over the shared org and its own space there in the shared one. */
  ghost predicate LeadsTo(cfg: Config, d: Directory, tenant: string, space: string) {
    if cfg.dedicated then
      && tenant in d.orgs
      && (d.orgs[tenant], "muto-agents") in d.spaces && d.spaces[(d.orgs[tenant], "muto-agents")] == space
    else
      && cfg.sharedOrg in d.orgs
      && (d.orgs[cfg.sharedOrg], tenant) in d.spaces && d.spaces[(d.orgs[cfg.sharedOrg], tenant)] == space
  }

  lemma DirectIff(cfg: Config, d: Directory, tenant: string, space: string)
    ensures Direct(cfg, d, tenant) == Some(space) <==> LeadsTo(cfg, d, tenant, space)
  {
  }

  /** Step k of the run is a lookup of call i that fails at the API. */
  ghost predicate FailsAt(cfg: Config, dir: Directory, steps: seq<Step>, k: nat, i: nat)
    requires k < |steps|
  {
    var w := Run(cfg, dir, steps[..k]);
    && steps[k].Proceed? && steps[k].i == i && !steps[k].ok
    && i < |w.calls| && (w.calls[i].pc == AskOrg || w.calls[i].pc == AskSpace)
  }

  ghost predicate LookupFailed(cfg: Config, dir: Directory, steps: seq<Step>, i: nat) {
    exists k :: 0 <= k < |steps| && FailsAt(cfg, dir, steps, k, i)
  }

  /** The call has got no space, and never will. */
  predicate Lost(call: Call) { call.pc == ApiFailed && call.space == None }

  lemma StepLoses(w: World, step: Step, i: nat)
    requires w.dirs != [] && i < |Next(w, step).calls|
    requires i < |w.calls| ==> PlaceOk(w.cfg, w.dirs, w.now, w.calls[i])
    ensures Lost(Next(w, step).calls[i]) <==>
              && i < |w.calls|
              && (|| Lost(w.calls[i])
                  || (step.Proceed? && step.i == i && !step.ok
                      && (w.calls[i].pc == AskOrg || w.calls[i].pc == AskSpace)))
  {
    hide KeyOf, Hit, QueryOf, RunnerName;
  }

  lemma FailedBefore(cfg: Config, dir: Directory, steps: seq<Step>, i: nat)
    requires steps != []
    ensures LookupFailed(cfg, dir, steps, i) <==>
              LookupFailed(cfg, dir, steps[..|steps| - 1], i) || FailsAt(cfg, dir, steps, |steps| - 1, i)
  {
    var n := |steps| - 1;
    var front := steps[..n];
    forall k | 0 <= k < n
      ensures FailsAt(cfg, dir, front, k, i) <==> FailsAt(cfg, dir, steps, k, i)
    {
      assert front[..k] == steps[..k];
    }
  }

  lemma {:induction false} LostIffFailed(cfg: Config, dir: Directory, steps: seq<Step>, i: nat)
    requires ColonFreeGuids(Run(cfg, dir, steps).dirs) && i < |Run(cfg, dir, steps).calls|
    ensures Lost(Run(cfg, dir, steps).calls[i]) <==> LookupFailed(cfg, dir, steps, i)
    decreases |steps|
  {
    if steps != [] {
      var n := |steps| - 1;
      var front := steps[..n];
      var w := Run(cfg, dir, front);
      assert Run(cfg, dir, steps) == Next(w, steps[n]);
      StepGrows(w, steps[n]);
      hide Run, Next, PlaceOk, GotsOk;
      StillColonFree(w.dirs, Next(w, steps[n]).dirs);
      RunInv(cfg, dir, front);
      if i < |w.calls| {
        InvCall(w, i);
        LostIffFailed(cfg, dir, front, i);
      } else {
        NeverFailed(cfg, dir, front, i);
      }
      hide Inv, LookupFailed, ColonFreeGuids;
      StepLoses(w, steps[n], i);
      FailedBefore(cfg, dir, steps, i);
    }
  }

  lemma StillColonFree(dirs: seq<Directory>, dirs': seq<Directory>)
    requires dirs <= dirs' && ColonFreeGuids(dirs')
    ensures ColonFreeGuids(dirs)
  {
    assert forall v | 0 <= v < |dirs| :: dirs'[v] == dirs[v];
  }

  /** A call that has not begun. */
  lemma {:induction false} NeverFailed(cfg: Config, dir: Directory, steps: seq<Step>, i: nat)
    requires i >= |Run(cfg, dir, steps).calls|
    ensures !LookupFailed(cfg, dir, steps, i)
    decreases |steps|
  {
    if steps != [] {
      var n := |steps| - 1;
      StepGrows(Run(cfg, dir, steps[..n]), steps[n]);
      NeverFailed(cfg, dir, steps[..n], i);
      hide Next;
      FailedBefore(cfg, dir, steps, i);
    }
  }

  /** As long as the answers for its tenant do not change: a call that has ended its lookups has got a space if and only
      if the directory leads to one and no lookup of the call failed, and it is that space. */
  lemma ResolvesIff(cfg: Config, dir: Directory, steps: seq<Step>, i: nat)
    requires ColonFreeGuids(Run(cfg, dir, steps).dirs) && i < |Run(cfg, dir, steps).calls|
    requires Steady(Run(cfg, dir, steps).dirs, cfg, Run(cfg, dir, steps).calls[i].tenant)
    requires var call := Run(cfg, dir, steps).calls[i];
             call.space.Some? || call.pc in {Unknown, ApiFailed}
    ensures var w := Run(cfg, dir, steps);
            var call := w.calls[i];
            && w.dirs != []
            && (call.space.Some? ==> LeadsTo(cfg, w.Dir(), call.tenant, call.space.value.guid))
            && (call.space.Some? <==>
                  (exists s :: LeadsTo(cfg, w.Dir(), call.tenant, s)) && !LookupFailed(cfg, dir, steps, i))
  {
    AgreesWithDirect(cfg, dir, steps, i);
    LostIffFailed(cfg, dir, steps, i);
    RunInv(cfg, dir, steps);
    var w := Run(cfg, dir, steps);
    InvCall(w, i);
    hide Run, ColonFreeGuids, Steady, Inv, LeadsTo, Direct, LookupFailed;
    var call := w.calls[i];
    forall s
      ensures Direct(cfg, w.Dir(), call.tenant) == Some(s) <==> LeadsTo(cfg, w.Dir(), call.tenant, s)
    {
      DirectIff(cfg, w.Dir(), call.tenant, s);
    }
  }

  /** No org GUID ever stands for two names, and no space GUID for two: none is reused, and nothing is renamed. */
  ghost predicate OneOrgPerGuid(dirs: seq<Directory>) {
    forall u, v, m, n | 0 <= u < |dirs| && 0 <= v < |dirs| && m in dirs[u].orgs && n in dirs[v].orgs
      && dirs[u].orgs[m] == dirs[v].orgs[n] :: m == n
  }

  ghost predicate OneSpacePerGuid(dirs: seq<Directory>) {
    forall u, v, a, b | 0 <= u < |dirs| && 0 <= v < |dirs| && a in dirs[u].spaces && b in dirs[v].spaces
      && dirs[u].spaces[a] == dirs[v].spaces[b] :: a == b
  }

  /** Assumption, for tenant separation: of spaces always, of orgs where each tenant has its own. */
  ghost predicate GuidsTellApart(cfg: Config, dirs: seq<Directory>) {
    OneSpacePerGuid(dirs) && (cfg.dedicated ==> OneOrgPerGuid(dirs))
  }

  lemma OneSpace(dirs: seq<Directory>, r: Stored, s: Stored)
    requires OneSpacePerGuid(dirs) && Genuine(dirs, r) && Genuine(dirs, s) && r.guid == s.guid && r.query.Space?
             && s.query.Space?
    ensures r.query == s.query
  {
    assert dirs[r.version].spaces[(r.query.org, r.query.name)] == dirs[s.version].spaces[(s.query.org, s.query.name)];
  }

  lemma OneOrg(dirs: seq<Directory>, r: Stored, s: Stored)
    requires OneOrgPerGuid(dirs) && Genuine(dirs, r) && Genuine(dirs, s) && r.guid == s.guid && r.query.Org?
             && s.query.Org?
    ensures r.query == s.query
  {
    assert dirs[r.version].orgs[r.query.name] == dirs[s.version].orgs[s.query.name];
  }

  lemma SameSpace(dirs: seq<Directory>, cfg: Config, log: seq<Stored>, now: int, t: string, u: string, space: string)
    requires GuidsTellApart(cfg, dirs) && LogOk(dirs, log, now) && Resolved(cfg, log, t, space)
             && Resolved(cfg, log, u, space)
    ensures t == u
  {
    var a, b :| a in log && b in log && a.query == Org(OrgName(cfg, t)) && b.query == Space(a.guid, SpaceName(cfg, t))
        && b.guid == space;
    var c, d :| c in log && d in log && c.query == Org(OrgName(cfg, u)) && d.query == Space(c.guid, SpaceName(cfg, u))
        && d.guid == space;
    hide Genuine, OneOrgPerGuid, OneSpacePerGuid, Resolved;
    OneSpace(dirs, b, d);
    if cfg.dedicated {
      OneOrg(dirs, a, c);
    }
  }

  /** Tenants stay apart in both tiers: calls that resolve to the same space are of the same tenant ... */
  lemma TenantsApart(cfg: Config, dir: Directory, steps: seq<Step>, i: nat, k: nat)
    requires ColonFreeGuids(Run(cfg, dir, steps).dirs) && GuidsTellApart(cfg, Run(cfg, dir, steps).dirs)
    requires i < |Run(cfg, dir, steps).calls| && k < |Run(cfg, dir, steps).calls|
    requires var calls := Run(cfg, dir, steps).calls;
             calls[i].space.Some? && calls[k].space.Some? && calls[i].space.value.guid == calls[k].space.value.guid
    ensures Run(cfg, dir, steps).calls[i].tenant == Run(cfg, dir, steps).calls[k].tenant
  {
    RunInv(cfg, dir, steps);
    var w := Run(cfg, dir, steps);
    hide Run;
    InvCall(w, i);
    InvCall(w, k);
    CallResolved(cfg, w.log, w.calls[i]);
    CallResolved(cfg, w.log, w.calls[k]);
    SameSpace(w.dirs, cfg, w.log, w.now, w.calls[i].tenant, w.calls[k].tenant, w.calls[i].space.value.guid);
  }

  /** The directory has never given this space another GUID. */
  ghost predicate OneGuid(dirs: seq<Directory>, q: Query) {
    forall u, v | 0 <= u < |dirs| && 0 <= v < |dirs| && dirs[u].Answer(q).Some? && dirs[v].Answer(q).Some? ::
      dirs[u].Answer(q) == dirs[v].Answer(q)
  }

  /** The exact condition, without any assumption about orgs: two calls that share a space have the same org GUID and
      ask for the same space name; and if they do, they share the space as long as it has not been given another GUID.
      So in the shared tier they are of one tenant, and in the dedicated tier two tenants share a space if and only if
      the directory answered both their org names with one GUID. */
  lemma ShareSpaceIff(cfg: Config, dir: Directory, steps: seq<Step>, i: nat, k: nat)
    requires ColonFreeGuids(Run(cfg, dir, steps).dirs) && OneSpacePerGuid(Run(cfg, dir, steps).dirs)
    requires i < |Run(cfg, dir, steps).calls| && k < |Run(cfg, dir, steps).calls|
    requires Run(cfg, dir, steps).calls[i].space.Some? && Run(cfg, dir, steps).calls[k].space.Some?
    ensures var w := Run(cfg, dir, steps);
            var a, b := w.calls[i], w.calls[k];
            && a.org.Some? && b.org.Some?
            && (a.space.value.guid == b.space.value.guid ==>
                  a.org.value.guid == b.org.value.guid && SpaceName(cfg, a.tenant) == SpaceName(cfg, b.tenant))
            && (OneGuid(w.dirs, Space(a.org.value.guid, SpaceName(cfg, a.tenant))) ==>
                  (a.space.value.guid == b.space.value.guid <==>
                     a.org.value.guid == b.org.value.guid && (cfg.dedicated || a.tenant == b.tenant)))
            && AnsweredOnce(w.dirs, OrgName(cfg, a.tenant), a.org.value.guid)
            && AnsweredOnce(w.dirs, OrgName(cfg, b.tenant), b.org.value.guid)
  {
    RunInv(cfg, dir, steps);
    var w := Run(cfg, dir, steps);
    hide Run;
    InvCall(w, i);
    InvCall(w, k);
    hide ColonFreeGuids, EntriesOk, CallsOk, AppsOk, AllRunsOk, PlaceOk, OneSpacePerGuid;
    var a, b := w.calls[i], w.calls[k];
    var r := SpaceAnswer(w, a);
    var s := SpaceAnswer(w, b);
    var p := OrgAnswer(w, a);
    var q := OrgAnswer(w, b);
    if r.guid == s.guid {
      OneSpace(w.dirs, r, s);
    }
  }

  lemma RunnerNameTellsRole(tenant: string, r: string, s: string)
    requires RunnerName(tenant, r) == RunnerName(tenant, s)
    ensures r == s
  {
    var n, front := |"muto-" + tenant + "-"|, "muto-" + tenant + "-";
    assert RunnerName(tenant, r) == front + r && RunnerName(tenant, s) == front + s;
    assert (front + r)[n..] == r && (front + s)[n..] == s;
  }

  /** ... so space and runner name together tell tenant and role, and a task always runs on an app that was pushed for
      its own tenant and role: nobody's agents run with another's environment. */
  lemma RunsOnItsOwnApp(cfg: Config, dir: Directory, steps: seq<Step>, i: nat)
    requires ColonFreeGuids(Run(cfg, dir, steps).dirs) && GuidsTellApart(cfg, Run(cfg, dir, steps).dirs)
    requires i < |Run(cfg, dir, steps).calls| && Run(cfg, dir, steps).calls[i].pc.Ran?
    ensures var w := Run(cfg, dir, steps);
            var call := w.calls[i];
            && call.space.Some? && call.pc.app < |w.apps|
            && w.apps[call.pc.app] == App(call.space.value.guid, RunnerName(call.tenant, call.role), call.tenant,
                 call.role)
  {
    RunInv(cfg, dir, steps);
    var w := Run(cfg, dir, steps);
    hide Run;
    InvCall(w, i);
    var call, app := w.calls[i], w.apps[w.calls[i].pc.app];
    assert app in w.apps;
    CallResolved(cfg, w.log, call);
    SameSpace(w.dirs, cfg, w.log, w.now, call.tenant, app.tenant, app.space);
    RunnerNameTellsRole(call.tenant, call.role, app.role);
  }

  /** The runner name alone does not tell tenants apart. */
  lemma RunnerNamesCollide()
    ensures RunnerName("a-b", "c") == RunnerName("a", "b-c")
  {
    assert "muto-" + "a-b" + "-" + "c" == "muto-" + "a" + "-" + "b-c";
  }

  lemma OneMore(cfg: Config, dir: Directory, steps: seq<Step>, step: Step)
    ensures Run(cfg, dir, steps + [step]) == Next(Run(cfg, dir, steps), step)
  {
    assert (steps + [step])[..|steps|] == steps;
  }

  /** Three steps of a call whose GUID is not cached, one step of a call whose GUID is. */
  lemma Lookup(cfg: Config, dir: Directory, steps: seq<Step>, w: World, i: nat, guid: string)
    returns (more: seq<Step>, w': World)
    requires w == Run(cfg, dir, steps) && w.dirs != [] && i < |w.calls|
    requires var call := w.calls[i];
             (call.pc.ReadOrg? && call.org.None?) || (call.pc.ReadSpace? && call.org.Some?)
    requires var q := QueryOf(w.cfg, w.calls[i]);
             || Hit(w.entries, KeyOf(q), w.now) == Some(guid)
             || (Hit(w.entries, KeyOf(q), w.now) == None && w.Dir().Answer(q) == Some(guid))
    ensures w' == Run(cfg, dir, more) && w'.cfg == w.cfg && w'.dirs == w.dirs && w'.now == w.now
    ensures w'.calls == w.calls[i := Take(w.calls[i], guid, w.now)]
    ensures var key := KeyOf(QueryOf(w.cfg, w.calls[i]));
            w'.entries == if Hit(w.entries, key, w.now).Some? then w.entries
                else w.entries[key := Entry(guid, w.now + w.cfg.ttl)]
  {
    hide KeyOf, Run;
    var step := Proceed(i, true, 0);
    var q := QueryOf(w.cfg, w.calls[i]);
    more, w' := Do(cfg, dir, steps, w, step);
    if Hit(w.entries, KeyOf(q), w.now).None? {
      assert QueryOf(w.cfg, w'.calls[i]) == q;
      more, w' := Do(cfg, dir, more, w', step);
      assert QueryOf(w.cfg, w'.calls[i]) == q;
      more, w' := Do(cfg, dir, more, w', step);
    }
  }

  lemma NewCall(cfg: Config, dir: Directory, steps: seq<Step>, w: World, tenant: string)
    returns (more: seq<Step>, w': World)
    requires w == Run(cfg, dir, steps)
    ensures w' == Run(cfg, dir, more) && w' == w.(calls := w.calls + [Call(tenant, "r", ReadOrg, None, None)])
  {
    more, w' := Do(cfg, dir, steps, w, Spawn(tenant, "r"));
  }

  lemma ChangeStep(w: World, d: Directory)
    ensures Next(w, Change(d)) == w.(dirs := w.dirs + [d])
  {
  }

  /** Org "a", with its space; later renamed to "b", beside a new org "a". */
  const OLD := Directory(map["a" := "g"], map[("g", "muto-agents") := "s"])
  const RENAMED := Directory(map["a" := "h", "b" := "g"], map[("g", "muto-agents") := "s", ("h", "muto-agents") := "t"])

  /** The cache after a call of tenant "a" at time 0. */
  function Warm(ttl: nat): map<string, Entry> {
    map[KeyOf(Org("a")) := Entry("g", ttl), KeyOf(Space("g", "muto-agents")) := Entry("s", ttl)]
  }

  /** That call. */
  lemma FirstResolve(cfg: Config) returns (steps: seq<Step>, w: World)
    requires cfg.dedicated
    ensures w == Run(cfg, OLD, steps) && w.cfg == cfg && w.dirs == [OLD] && w.now == 0 && w.entries == Warm(cfg.ttl)
    ensures |w.calls| == 1 && w.calls[0].tenant == "a" && w.calls[0].org == Some(Got("g", 0))
            && w.calls[0].space == Some(Got("s", 0))
  {
    steps, w := [], Init(cfg, OLD);
    var ka, ks := KeyOf(Org("a")), KeyOf(Space("g", "muto-agents"));
    assert ka[0] == 'o' && ks[0] == 's';
    assert w == Run(cfg, OLD, []);
    assert Warm(cfg.ttl) == map[ka := Entry("g", cfg.ttl), ks := Entry("s", cfg.ttl)];
    hide KeyOf, Run, Exec, Next, Init, Warm;
    steps, w := NewCall(cfg, OLD, steps, w, "a");
    steps, w := Lookup(cfg, OLD, steps, w, 0, "g");
    assert w.entries == map[ka := Entry("g", cfg.ttl)] && w.calls[0].pc == ReadSpace;
    steps, w := Lookup(cfg, OLD, steps, w, 0, "s");
  }

  lemma BeforeTheRename(cfg: Config) returns (steps: seq<Step>, w: World)
    requires cfg.dedicated
    ensures w == Run(cfg, OLD, steps) && w.cfg == cfg && w.dirs == [OLD, RENAMED] && w.now == 0
    ensures w.entries == Warm(cfg.ttl) && |w.calls| == 1
  {
    steps, w := FirstResolve(cfg);
    ChangeStep(w, RENAMED);
    steps, w := Do(cfg, OLD, steps, w, Change(RENAMED));
  }

  /** Tenant "b" then finds the old space under the org's new name. */
  lemma AfterTheRename(cfg: Config) returns (steps: seq<Step>, w: World)
    requires cfg.dedicated
    ensures w == Run(cfg, OLD, steps) && w.cfg == cfg && w.dirs == [OLD, RENAMED] && w.now == 0
    ensures w.entries == Warm(cfg.ttl)[KeyOf(Org("b")) := Entry("g", cfg.ttl)] && |w.calls| == 2
    ensures w.calls[1].tenant == "b" && w.calls[1].space == Some(Got("s", 0))
  {
    steps, w := BeforeTheRename(cfg);
    var ka, kb, ks := KeyOf(Org("a")), KeyOf(Org("b")), KeyOf(Space("g", "muto-agents"));
    assert ka[0] == 'o' && kb[0] == 'o' && ks[0] == 's' && ka[4] == 'a' && kb[4] == 'b';
    assert Warm(cfg.ttl) == map[ka := Entry("g", cfg.ttl), ks := Entry("s", cfg.ttl)];
    hide KeyOf, Run, Exec, Next, Init, Warm, ColonFree;
    steps, w := NewCall(cfg, OLD, steps, w, "b");
    steps, w := Lookup(cfg, OLD, steps, w, 1, "g");
    assert w.calls[1].pc == ReadSpace && w.entries[ks] == Entry("s", cfg.ttl);
    steps, w := Lookup(cfg, OLD, steps, w, 1, "s");
  }

  /** Renaming is what the assumption shuts out: once org "a" is renamed to "b" and a new "a" is made, tenants "a" and
      "b" share a space for the next ttl, although no GUID was reused and the directory itself keeps them apart. */
  lemma RenamedOrgsMix(ttl: nat) returns (cfg: Config, steps: seq<Step>)
    ensures var w := Run(cfg, OLD, steps);
            && cfg.dedicated && cfg.ttl == ttl && ColonFreeGuids(w.dirs) && w.dirs != [] && |w.calls| == 3
            && w.calls[1].tenant != w.calls[2].tenant
            && w.calls[1].space.Some? && w.calls[2].space.Some?
            && w.calls[1].space.value.guid == w.calls[2].space.value.guid
            && Direct(cfg, w.Dir(), w.calls[1].tenant) != Direct(cfg, w.Dir(), w.calls[2].tenant)
  {
    cfg := Config(true, "", ttl);
    var w;
    steps, w := AfterTheRename(cfg);
    var ka, kb, ks := KeyOf(Org("a")), KeyOf(Org("b")), KeyOf(Space("g", "muto-agents"));
    assert ka[0] == 'o' && kb[0] == 'o' && ks[0] == 's' && ka[4] == 'a' && kb[4] == 'b';
    assert Warm(ttl)[kb := Entry("g", ttl)][ka] == Entry("g", ttl)
        && Warm(ttl)[kb := Entry("g", ttl)][ks] == Entry("s", ttl);
    hide KeyOf, Run, Exec, Next, Init, Warm, ColonFree;
    steps, w := NewCall(cfg, OLD, steps, w, "a");
    steps, w := Lookup(cfg, OLD, steps, w, 2, "g");
    assert w.calls[2].pc == ReadSpace;
    steps, w := Lookup(cfg, OLD, steps, w, 2, "s");
  }

  const REMADE := Directory(map["a" := "g"], map[("g", "muto-agents") := "t"])

  /** The condition of ShareSpaceIff on the space is needed: when a space is made anew, two calls of one tenant have
      the same org GUID, and no GUID stands for two spaces, but they do not share a space. */
  lemma RemadeSpaceParts(ttl: nat) returns (cfg: Config, steps: seq<Step>)
    ensures var w := Run(cfg, OLD, steps);
            && cfg.dedicated && cfg.ttl == ttl && ColonFreeGuids(w.dirs) && OneSpacePerGuid(w.dirs) && |w.calls| == 2
            && w.calls[0].tenant == w.calls[1].tenant && w.calls[0].org.Some? && w.calls[1].org.Some?
            && w.calls[0].space.Some? && w.calls[1].space.Some?
            && w.calls[0].org.value.guid == w.calls[1].org.value.guid
            && w.calls[0].space.value.guid != w.calls[1].space.value.guid
  {
    cfg := Config(true, "", ttl);
    var w;
    steps, w := FirstResolve(cfg);
    Passes(w, REMADE, ttl + 1);
    hide KeyOf, Run, Exec, Next, Init, ColonFree;
    steps, w := Do(cfg, OLD, steps, w, Change(REMADE));
    steps, w := Do(cfg, OLD, steps, w, Tick(ttl + 1));
    steps, w := NewCall(cfg, OLD, steps, w, "a");
    steps, w := Lookup(cfg, OLD, steps, w, 1, "g");
    KeysApart();
    steps, w := Lookup(cfg, OLD, steps, w, 1, "t");
  }

  lemma KeysApart()
    ensures KeyOf(Org("a")) != KeyOf(Space("g", "muto-agents"))
  {
    assert KeyOf(Org("a"))[0] == 'o' && KeyOf(Space("g", "muto-agents"))[0] == 's';
  }

  lemma Passes(w: World, d: Directory, t: nat)
    ensures Next(Next(w, Change(d)), Tick(t)) == w.(dirs := w.dirs + [d], now := w.now + t)
  {
  }

  lemma Do(cfg: Config, dir: Directory, steps: seq<Step>, w: World, step: Step) returns (more: seq<Step>, w': World)
    requires w == Run(cfg, dir, steps)
    ensures w' == Next(w, step) && w' == Run(cfg, dir, more)
  {
    more := steps + [step];
    w' := Next(w, step);
    OneMore(cfg, dir, steps, step);
  }
}
