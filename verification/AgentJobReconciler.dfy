/**
 `AgentJobReconciler` itself (platform/k8s/reconcilers/agentjob_reconciler.go) and its two metrics calls
 (platform/k8s/metrics/metrics.go), run against an API server that fails calls and lets other reconciles, users and
 pods act before every one of them, as a script says.
 */
module AgentJobReconciler {
  import opened Lifecycle
  import opened AgentStreams
  import opened PodNames
  import opened JobModel
  import opened JobLifecycle
  import opened JobPods
  import opened JobTimes
  import JobTheorems

  /** Before one API call: what others do, whether the call fails, and what a stale list would answer. */
  datatype Turn = Turn(others: seq<Step>, ok: bool, listed: map<Key, Pod>)

  /** The steps of a script that the reconcile of job j does not take itself. */
  function Elsewhere(j: nat, steps: seq<Step>): seq<Step>
    decreases |steps|
  {
    if steps == [] then []
    else
      var last := steps[|steps| - 1];
      Elsewhere(j, steps[..|steps| - 1])
      + (if (last.Proceed? && last.j == j) || (last.Begin? && last.j == j) then [] else [last])
  }

  /** The world the last step of the trace met. */
  function LastWorld(cfg: Config, trace: seq<Step>): World {
    Run(cfg, if trace == [] then [] else trace[..|trace| - 1])
  }

  ghost predicate CallIn(w: World, j: nat, run: Progress) {
    j < |w.jobs| && w.jobs[j].run == run
  }

  /** No call in these turns fails. */
  ghost predicate AllOk(script: nat -> Turn, from: nat, to: nat) {
    forall k | from <= k < to :: script(k).ok
  }

  class Cluster {
    var st: World
    var agentsRunning: map<string, int>
    var queueDepth: map<string, int>
    var jobsTotal: map<(string, Phase), int>
    var clock: nat
    const cfg: Config
    const script: nat -> Turn
    ghost var trace: seq<Step>
    ghost var failed: bool  // the last call of the reconcile under way did not get what it wanted

    ghost predicate Valid()
      reads this
    {
      && st == Run(cfg, trace) && st.cfg == cfg
      && st.metrics == Metrics(agentsRunning, queueDepth, jobsTotal)
    }

    /** Job j is being reconciled and stands at `run`; its versions are `h`. */
    ghost predicate At(j: nat, h: seq<Status>, run: Progress)
      reads this
    {
      j < |st.jobs| && st.jobs[j].history == h && st.jobs[j].run == run
    }

    constructor (cfg: Config, script: nat -> Turn)
      ensures Valid() && trace == []
    {
      this.cfg := cfg;
      this.script := script;
      st := Init(cfg);
      agentsRunning, queueDepth, jobsTotal := map[], map[], map[];
      clock := 0;
      trace, failed := [], false;
    }

    method Do(step: Step)
      requires Valid()
      modifies this
      ensures Valid() && trace == old(trace) + [step] && st == Next(old(st), step) && clock == old(clock)
              && failed == old(failed)
    {
      JobsStay(st, step);
      trace := trace + [step];
      st := Next(st, step);
      agentsRunning, queueDepth, jobsTotal := st.metrics.agentsRunning, st.metrics.queueDepth, st.metrics.jobsTotal;
      assert trace[..|trace| - 1] == old(trace);
    }

    /** Everyone but the reconcile of job j acts. */
    method Others(j: nat)
      requires Valid() && j < |st.jobs|
      modifies this
      ensures Valid() && trace == old(trace) + Elsewhere(j, script(clock).others) && clock == old(clock)
      ensures j < |st.jobs| && st.jobs[j] == old(st).jobs[j].(gone := st.jobs[j].gone)
    {
      hide Run, Call, Count, FirstMove;
      var steps := script(clock).others;
      for k := 0 to |steps|
        invariant Valid() && trace == old(trace) + Elsewhere(j, steps[..k]) && j < |st.jobs| && clock == old(clock)
        invariant st.jobs[j] == old(st).jobs[j].(gone := st.jobs[j].gone)
      {
        assert steps[..k + 1][..k] == steps[..k];
        if !(steps[k].Proceed? && steps[k].j == j) && !(steps[k].Begin? && steps[k].j == j) {
          Do(steps[k]);
        }
      }
      assert steps[..|steps|] == steps;
    }

    /** One call of job j's reconcile; `key` is the pod a Delete names. Returns whether the call got through and what a
        List answers; w is the world the call met. */
    method Request(j: nat, key: Key)
      returns (ok: bool, list: map<Key, Pod>, ghost w: World, ghost listed: map<Key, Pod>)
      requires Valid() && j < |st.jobs|
      modifies this
      ensures Valid() && j < |st.jobs| && clock == old(clock) + 1
      ensures ok == script(old(clock)).ok && listed == script(old(clock)).listed
      ensures trace == old(trace) + Elsewhere(j, script(old(clock)).others) + [Proceed(j, ok, listed, key)]
      ensures j < |w.jobs| && w.cfg == cfg && w.jobs[j] == old(st).jobs[j].(gone := w.jobs[j].gone)
      ensures list == ListAnswer(w, w.jobs[j], listed)
      ensures st.jobs[j] == Call(w, w.jobs[j], ok, listed, key).0 && st.now == w.now
      ensures failed == Fails(w, w.jobs[j], ok)
      ensures w == Run(cfg, trace[..|trace| - 1]) && st.pods == Call(w, w.jobs[j], ok, listed, key).1
    {
      hide Run, Call, Count, Labelled, Elsewhere;
      Others(j);
      ghost var before := trace;
      w, listed := st, script(clock).listed;
      ok := script(clock).ok;
      list := ListAnswer(st, st.jobs[j], script(clock).listed);
      Do(Proceed(j, ok, script(clock).listed, key));
      clock := clock + 1;
      failed := Fails(w, w.jobs[j], ok);
      assert trace[..|trace| - 1] == before;
    }

    /** The Get that starts a reconcile. */
    method ReadJob(j: nat, v: nat) returns (job: Job)
      requires Valid() && j < |st.jobs| && st.jobs[j].run == Idle && v < |st.jobs[j].history|
      requires !cfg.staleReads ==> v == |st.jobs[j].history| - 1 && !st.jobs[j].gone
      modifies this
      ensures Valid() && trace == old(trace) + [Begin(j, v)] && !failed && clock == old(clock)
      ensures job == old(st).jobs[j] && st.now == old(st).now
      ensures At(j, job.history, FirstMove(job, v, st.now)) && st.jobs[j] == job.(run := FirstMove(job, v, st.now))
    {
      hide Run, FirstMove;
      job := st.jobs[j];
      Do(Begin(j, v));
      failed := false;
    }

    method GetTenant(j: nat, ghost h: seq<Status>, ghost v: nat) returns (found: bool)
      requires Valid() && At(j, h, Progress.GetTenant(v))
      modifies this
      ensures Valid() && old(trace) <= trace
      ensures At(j, h, if found then Creating(v, 0) else Idle) && Kept(old(st).jobs[j], st.jobs[j])
      ensures found == !failed && clock == old(clock) + 1
      ensures found <==> script(old(clock)).ok && st.jobs[j].spec.tenant in LastWorld(cfg, trace).tenants
      ensures CallIn(LastWorld(cfg, trace), j, Progress.GetTenant(v))
              && Kept(LastWorld(cfg, trace).jobs[j], st.jobs[j])
    {
      hide Run, PodNames.Plan, Total, Int32, Labelled;
      var ok, list, w, listed := Request(j, Key("", ""));
      found := st.jobs[j].run != Idle;
    }

    /** Create of the next planned pod; AlreadyExists is not an error. */
    method CreatePod(j: nat, pod: Key, ghost h: seq<Status>, ghost v: nat, ghost k: nat) returns (ok: bool)
      requires Valid() && At(j, h, Creating(v, k)) && k < |st.jobs[j].Plan()|
      requires pod == Key(st.jobs[j].ns, st.jobs[j].Plan()[k])
      modifies this
      ensures Valid() && old(trace) <= trace
      ensures ok == !failed == script(old(clock)).ok && clock == old(clock) + 1
      ensures At(j, h, if ok then Creating(v, k + 1) else Idle) && Kept(old(st).jobs[j], st.jobs[j])
      ensures ok ==> WasCreated(cfg, old(trace), trace, j, pod)
    {
      hide Run, PodNames.Plan, Total, Int32, Labelled, Elsewhere;
      ghost var w, listed;
      var list;
      ok, list, w, listed := Request(j, pod);
      assert trace[..|trace|] == trace;
      assert ok ==> CreatedAt(cfg, trace, |trace| - 1, j, pod);
    }

    /** The status update of version v: the new phase and ActiveAgents, with the current time where the step calls for
        it. */
    method UpdateStatus(j: nat, phase: Phase, active: int, ghost h: seq<Status>, ghost v: nat) returns (ok: bool)
      requires Valid() && j < |st.jobs| && v < |h| && At(j, h, st.jobs[j].run)
      requires Updating(st.jobs[j], v, phase, active)
      modifies this
      ensures Valid() && old(trace) <= trace && j < |st.jobs| && Kept(old(st).jobs[j], st.jobs[j])
      ensures ok == !failed && clock == old(clock) + 1 && trace != []
      ensures var w := LastWorld(cfg, trace);
              && CallIn(w, j, old(st).jobs[j].run) && w.jobs[j].history == h
              && (ok <==> script(old(clock)).ok && !w.jobs[j].gone && v == |h| - 1)
      ensures !ok ==> At(j, h, Idle)
      ensures ok ==> Stamped(h[v], st.jobs[j].Last(), st.now)
      ensures ok ==>
                && v == |h| - 1 && |st.jobs[j].history| == |h| + 1 && st.jobs[j].history[..|h|] == h
                && st.jobs[j].Last().phase == phase && st.jobs[j].Last().active == active
                && st.jobs[j].run == match phase
                                     case Running => CountStart(active)
                                     case Terminating => Idle
                                     case _ => CountFinish(phase, h[v].active)
    {
      hide Run, PodNames.Plan, Total, Int32, Labelled;
      var before := |st.jobs[j].history|;
      var sent, list, w, listed := Request(j, Key("", ""));
      ok := |st.jobs[j].history| != before;
    }

    /** The List of the job's pods. */
    method ListPods(j: nat, ghost h: seq<Status>, ghost v: nat) returns (ok: bool, list: map<Key, Pod>)
      requires Valid() && (At(j, h, ListRunning(v)) || At(j, h, ListDoomed(v)))
      modifies this
      ensures Valid() && old(trace) <= trace && j < |st.jobs| && Kept(old(st).jobs[j], st.jobs[j])
      ensures ok == !failed == script(old(clock)).ok && clock == old(clock) + 1
      ensures !ok ==> At(j, h, Idle)
      ensures ok && old(st).jobs[j].run.ListRunning? ==>
                At(j, h, if list == map[] || !AllDone(list) then Idle
                         else Completing(v, if AnyFailed(list) then Phase.Failed else Phase.Succeeded))
      ensures ok && old(st).jobs[j].run.ListDoomed? ==> At(j, h, Deleting(v, list.Keys))
      ensures ok ==> WasListed(cfg, old(trace), trace, j, list)
    {
      hide Run, PodNames.Plan, Total, Int32, Labelled, AllDone, AnyFailed, ListAnswer;
      ghost var w, listed;
      ok, list, w, listed := Request(j, Key("", ""));
      assert ok ==> AnsweredAt(cfg, trace, |trace| - 1, j, list);
    }

    /** Delete of a listed pod; NotFound is not an error. */
    method DeletePod(j: nat, pod: Key, ghost h: seq<Status>, ghost v: nat, ghost rest: set<Key>) returns (ok: bool)
      requires Valid() && At(j, h, Deleting(v, rest)) && pod in rest
      modifies this
      ensures Valid() && old(trace) <= trace
      ensures ok == !failed == script(old(clock)).ok && clock == old(clock) + 1
      ensures At(j, h, if ok then Deleting(v, rest - {pod}) else Idle) && Kept(old(st).jobs[j], st.jobs[j])
      ensures ok ==> WasDeleted(cfg, old(trace), trace, j, pod)
    {
      hide Run, PodNames.Plan, Total, Int32, Labelled, AllDone, AnyFailed, ListAnswer;
      ghost var w, listed;
      var list;
      ok, list, w, listed := Request(j, pod);
      assert trace[..|trace|] == trace;
      assert ok ==> DeletedAt(cfg, trace, |trace| - 1, j, pod);
    }

    /** Delete of the job object; NotFound is not an error. */
    method DeleteJob(j: nat, ghost h: seq<Status>, ghost v: nat) returns (ok: bool)
      requires Valid() && At(j, h, Deleting(v, {}))
      modifies this
      ensures Valid() && old(trace) <= trace
      ensures At(j, h, Idle) && Kept(old(st).jobs[j], st.jobs[j])
      ensures ok == !failed == script(old(clock)).ok && clock == old(clock) + 1 && (ok ==> st.jobs[j].gone)
    {
      hide Run, PodNames.Plan, Total, Int32, Labelled, AllDone, AnyFailed, ListAnswer;
      ghost var w, listed;
      var list;
      ok, list, w, listed := Request(j, Key("", ""));
    }

    /** metrics.JobStarted */
    method JobStarted(j: nat, ghost h: seq<Status>, n: int)
      requires Valid() && At(j, h, CountStart(n))
      modifies this
      ensures Valid() && trace == old(trace) + [Proceed(j, true, map[], Key("", ""))] && failed == old(failed)
      ensures clock == old(clock) && st.now == old(st).now
      ensures At(j, h, Idle) && SameJob(old(st).jobs[j], st.jobs[j]) && st.jobs[j].starts == old(st).jobs[j].starts + 1
      ensures st.jobs[j].finishes == old(st).jobs[j].finishes
      ensures agentsRunning == Add(old(agentsRunning), st.jobs[j].spec.tenant, n)
      ensures queueDepth == Add(old(queueDepth), st.jobs[j].spec.tenant, 1)
      ensures jobsTotal == old(jobsTotal)
    {
      hide Run, PodNames.Plan, Total, Int32, Labelled;
      Do(Proceed(j, true, map[], Key("", "")));
    }

    /** metrics.JobFinished */
    method JobFinished(j: nat, ghost h: seq<Status>, verdict: Phase, n: int)
      requires Valid() && At(j, h, CountFinish(verdict, n))
      modifies this
      ensures Valid() && trace == old(trace) + [Proceed(j, true, map[], Key("", ""))] && failed == old(failed)
      ensures clock == old(clock) && st.now == old(st).now
      ensures At(j, h, Idle) && SameJob(old(st).jobs[j], st.jobs[j])
              && st.jobs[j].finishes == old(st).jobs[j].finishes + 1
      ensures st.jobs[j].starts == old(st).jobs[j].starts
      ensures agentsRunning == Add(old(agentsRunning), st.jobs[j].spec.tenant, -n)
      ensures queueDepth == Add(old(queueDepth), st.jobs[j].spec.tenant, -1)
      ensures jobsTotal == Add(old(jobsTotal), (st.jobs[j].spec.tenant, verdict), 1)
    {
      hide Run, PodNames.Plan, Total, Int32, Labelled;
      Do(Proceed(j, true, map[], Key("", "")));
    }
  }

  /** Identity and spec of a job do not change. */
  predicate SameJob(a: Job, b: Job) {
    a.name == b.name && a.ns == b.ns && a.spec == b.spec
  }

  /** Nor have the metrics calls been made. */
  predicate Kept(a: Job, b: Job) {
    SameJob(a, b) && a.starts == b.starts && a.finishes == b.finishes
  }

  /** Does the call fail: at the server, for want of the tenant, or because the version is not the newest? */
  ghost predicate Fails(w: World, job: Job, ok: bool) {
    || !ok
    || (job.run.GetTenant? && job.spec.tenant !in w.tenants)
    || (job.run.Creating? && job.run.k >= |job.Plan()| && !Accepts(job, job.run.v))
    || ((job.run.Completing? || job.run.Expiring?) && !Accepts(job, job.run.v))
  }

  /** The job's reconcile is at a status update of version v, which is to write this phase and this ActiveAgents. */
  predicate Updating(job: Job, v: nat, phase: Phase, active: int) {
    match job.run
    case Creating(u, k) => u == v && k == |job.Plan()| && phase == Running && active == Int32(Total(job.spec.roles))
    case Completing(u, verdict) => u == v && phase == verdict && verdict.IsTerminal() && active == 0
    case Expiring(u) => u == v && phase == Terminating && v < |job.history| && active == job.history[v].active
    case _ => false
  }

  /** Step k is a List of job j's reconcile, with this answer. */
  ghost predicate AnsweredAt(cfg: Config, trace: seq<Step>, k: nat, j: nat, list: map<Key, Pod>)
    requires k < |trace|
  {
    var w, step := Run(cfg, trace[..k]), trace[k];
    && step.Proceed? && step.j == j && step.ok && j < |w.jobs|
    && (w.jobs[j].run.ListRunning? || w.jobs[j].run.ListDoomed?)
    && list == ListAnswer(w, w.jobs[j], step.listed)
  }

  /** Step k is a Delete of job j's reconcile after which the pod does not exist. */
  ghost predicate DeletedAt(cfg: Config, trace: seq<Step>, k: nat, j: nat, pod: Key)
    requires k < |trace|
  {
    trace[k].Proceed? && trace[k].j == j && trace[k].ok && trace[k].key == pod && pod !in Run(cfg, trace[..k + 1]).pods
  }

  /** Step k is a Create of job j's reconcile after which the pod exists. */
  ghost predicate CreatedAt(cfg: Config, trace: seq<Step>, k: nat, j: nat, pod: Key)
    requires k < |trace|
  {
    trace[k].Proceed? && trace[k].j == j && trace[k].ok && pod in Run(cfg, trace[..k + 1]).pods
  }

  /** Between two points of a trace. */
  ghost predicate WasListed(cfg: Config, from: seq<Step>, trace: seq<Step>, j: nat, list: map<Key, Pod>) {
    exists k :: |from| <= k < |trace| && AnsweredAt(cfg, trace, k, j, list)
  }

  ghost predicate WasDeleted(cfg: Config, from: seq<Step>, trace: seq<Step>, j: nat, pod: Key) {
    exists k :: |from| <= k < |trace| && DeletedAt(cfg, trace, k, j, pod)
  }

  ghost predicate WasCreated(cfg: Config, from: seq<Step>, trace: seq<Step>, j: nat, pod: Key) {
    exists k :: |from| <= k < |trace| && CreatedAt(cfg, trace, k, j, pod)
  }

  /** So were the first n planned pods. */
  ghost predicate PodsCreated(cfg: Config, from: seq<Step>, trace: seq<Step>, j: nat, job: Job, n: nat) {
    forall k | 0 <= k < n && k < |job.Plan()| :: WasCreated(cfg, from, trace, j, Key(job.ns, job.Plan()[k]))
  }

  lemma CreatedOn(cfg: Config, from: seq<Step>, trace: seq<Step>, from': seq<Step>, trace': seq<Step>, j: nat, job: Job,
                  n: nat)
    requires from' <= from && trace <= trace' && PodsCreated(cfg, from, trace, j, job, n)
    ensures PodsCreated(cfg, from', trace', j, job, n)
  {
    hide Run, PodNames.Plan;
    forall i | 0 <= i < n && i < |job.Plan()|
      ensures WasCreated(cfg, from', trace', j, Key(job.ns, job.Plan()[i]))
    {
      var pod := Key(job.ns, job.Plan()[i]);
      assert WasCreated(cfg, from, trace, j, pod);
      var k :| |from| <= k < |trace| && CreatedAt(cfg, trace, k, j, pod);
      assert trace'[..k + 1] == trace[..k + 1] && CreatedAt(cfg, trace', k, j, pod);
    }
  }

  /** One more. */
  lemma CreatedNext(cfg: Config, from: seq<Step>, before: seq<Step>, trace: seq<Step>, j: nat, job: Job, n: nat)
    requires from <= before <= trace && PodsCreated(cfg, from, before, j, job, n) && n < |job.Plan()|
    requires WasCreated(cfg, before, trace, j, Key(job.ns, job.Plan()[n]))
    ensures PodsCreated(cfg, from, trace, j, job, n + 1)
  {
    hide Run, PodNames.Plan, CreatedAt;
    CreatedOn(cfg, from, before, from, trace, j, job, n);
    var k :| |before| <= k < |trace| && CreatedAt(cfg, trace, k, j, Key(job.ns, job.Plan()[n]));
  }

  lemma ListedOn(cfg: Config, from: seq<Step>, trace: seq<Step>, from': seq<Step>, trace': seq<Step>, j: nat,
                 list: map<Key, Pod>)
    requires from' <= from && trace <= trace' && WasListed(cfg, from, trace, j, list)
    ensures WasListed(cfg, from', trace', j, list)
  {
    hide Run, ListAnswer;
    var k :| |from| <= k < |trace| && AnsweredAt(cfg, trace, k, j, list);
    assert trace'[..k] == trace[..k] && AnsweredAt(cfg, trace', k, j, list);
  }

  lemma DeletedOn(cfg: Config, from: seq<Step>, trace: seq<Step>, from': seq<Step>, trace': seq<Step>, j: nat, pod: Key)
    requires from' <= from && trace <= trace' && WasDeleted(cfg, from, trace, j, pod)
    ensures WasDeleted(cfg, from', trace', j, pod)
  {
    hide Run;
    var k :| |from| <= k < |trace| && DeletedAt(cfg, trace, k, j, pod);
    assert trace'[..k + 1] == trace[..k + 1] && DeletedAt(cfg, trace', k, j, pod);
  }

  /** What a reconcile answers: an error, or when to be called again (0: no need). */
  datatype Outcome = Error | Done(requeueAfter: int)

  /** What every reconcile leaves: the newest version untouched or one version more, the metrics calls that go with it,
      and after an error nothing new. */
  ghost predicate Tidy(before: Job, v: nat, out: Outcome, after: Job) {
    && SameJob(before, after) && after.run == Idle
    && before.history <= after.history && |after.history| <= |before.history| + 1
    && (after.history == before.history ==> after.starts == before.starts && after.finishes == before.finishes)
    && (after.history != before.history ==>
          && out.Done? && v == |before.history| - 1
          && after.starts == before.starts + (if after.Last().phase == Running then 1 else 0)
          && after.finishes == before.finishes + (if after.Last().phase.IsTerminal() then 1 else 0))
  }

  /** A Pending job without an error is now Running, since now, with its agents counted. */
  ghost predicate Launched(before: Job, out: Outcome, after: Job, now: int) {
    out.Done? ==>
      && after.history != before.history && after.history != []
      && after.Last().phase == Running && after.Last().active == Int32(Total(before.spec.roles))
      && IsNow(after.Last().startedAt, now)
      && out.requeueAfter == 0
  }

  /** A Running job whose reconcile got this list has been judged by it, or is looked at again: in one second if the
      list is empty, in five if some listed pod has not finished. */
  ghost predicate Judged(before: Job, list: map<Key, Pod>, out: Outcome, after: Job, now: int) {
    out.Done? ==>
      if list == map[] then after.history == before.history && out.requeueAfter == SECOND
      else if !AllDone(list) then after.history == before.history && out.requeueAfter == 5 * SECOND
      else && after.history != before.history && after.history != []
           && after.Last().phase == (if AnyFailed(list) then Phase.Failed else Phase.Succeeded)
           && IsNow(after.Last().completedAt, now)
           && after.Last().active == 0 && out.requeueAfter == before.spec.ttl * SECOND
  }

  /** A finished job without an error stays as it is for ever, or until its TTL has passed, and then is Terminating. */
  ghost predicate Aged(before: Job, s: Status, t: int, out: Outcome, after: Job) {
    out.Done? ==>
      if before.spec.ttl <= 0 || s.completedAt.None? then after.history == before.history && out.requeueAfter == 0
      else if Expired(before.spec, s, t) then
        && after.history != before.history && after.history != []
        && after.Last().phase == Terminating && out.requeueAfter == 0
      else
        && after.history == before.history
        && out.requeueAfter == before.spec.ttl * SECOND - (t - s.completedAt.value) > 0
  }

  /** A Terminating job without an error is gone. */
  ghost predicate TornDown(before: Job, out: Outcome, after: Job) {
    after.history == before.history && (out.Done? ==> after.gone && out.requeueAfter == 0)
  }

  /** Which calls of a reconcile of version v have failed: none but the last of one that reports an error, and that one
      at the server, for want of the tenant, or because the version was no longer the newest one. */
  ghost predicate Reported(api: Cluster, j: nat, v: nat, from: nat, out: Outcome)
    reads api
  {
    if out.Done? then AllOk(api.script, from, api.clock)
    else
      && from < api.clock && AllOk(api.script, from, api.clock - 1)
      && (api.script(api.clock - 1).ok ==> Refused(LastWorld(api.cfg, api.trace), j, v))
  }

  /** The last call failed at the server, and no other. */
  ghost predicate Stopped(api: Cluster, from: nat)
    reads api
  {
    from < api.clock && AllOk(api.script, from, api.clock - 1) && !api.script(api.clock - 1).ok
  }

  /** How many calls a reconcile without an error makes after its first Get. */
  function CallsOf(job: Job, v: nat, list: map<Key, Pod>, now: int): nat
    requires v < |job.history|
  {
    match job.history[v].phase
    case Unset => |job.Plan()| + 2
    case Pending => |job.Plan()| + 2
    case Running => if list == map[] || !AllDone(list) then 1 else 2
    case Succeeded => if Expired(job.spec, job.history[v], now) then 1 else 0
    case Failed => if Expired(job.spec, job.history[v], now) then 1 else 0
    case Terminating => |list| + 2
    case Other(_) => 0
  }

  ghost predicate Refused(w: World, j: nat, v: nat) {
    && j < |w.jobs|
    && if w.jobs[j].run.GetTenant? then w.jobs[j].spec.tenant !in w.tenants
       else w.jobs[j].gone || v != |w.jobs[j].history| - 1
  }

  class AgentJobReconciler {
    const api: Cluster

    constructor (api: Cluster)
      ensures this.api == api
    {
      this.api := api;
    }

    /** One reconcile of job j, starting from version v; list is what its List call, if any, answered. */
    method Reconcile(j: nat, v: nat) returns (out: Outcome, ghost list: map<Key, Pod>)
      requires api.Valid() && j < |api.st.jobs| && api.st.jobs[j].run == Idle && v < |api.st.jobs[j].history|
      requires !api.cfg.staleReads ==> v == |api.st.jobs[j].history| - 1 && !api.st.jobs[j].gone
      modifies api
      ensures api.Valid() && old(api.trace) + [Begin(j, v)] <= api.trace && j < |api.st.jobs|
      ensures (out.Error? <==> api.failed) && Reported(api, j, v, old(api.clock), out)
      ensures out.Done? ==> api.clock == old(api.clock) + CallsOf(old(api.st).jobs[j], v, list, old(api.st).now)
      ensures Tidy(old(api.st).jobs[j], v, out, api.st.jobs[j])
      ensures var job := old(api.st).jobs[j];
              match job.history[v].phase
              case Unset =>
                && Launched(job, out, api.st.jobs[j], api.st.now)
                && (out.Done? ==> PodsCreated(api.cfg, old(api.trace), api.trace, j, job, |job.Plan()|))
              case Pending =>
                && Launched(job, out, api.st.jobs[j], api.st.now)
                && (out.Done? ==> PodsCreated(api.cfg, old(api.trace), api.trace, j, job, |job.Plan()|))
              case Running =>
                Judged(job, list, out, api.st.jobs[j], api.st.now)
                    && (out.Done? ==> WasListed(api.cfg, old(api.trace), api.trace, j, list))
              case Terminating =>
                && TornDown(job, out, api.st.jobs[j])
                && (out.Done? ==>
                      && WasListed(api.cfg, old(api.trace), api.trace, j, list)
                      && forall key | key in list :: WasDeleted(api.cfg, old(api.trace), api.trace, j, key))
              case Other(_) => api.st.jobs[j] == job && out == Done(0)
              case _ => Aged(job, job.history[v], old(api.st).now, out, api.st.jobs[j])
    {
      hide Cluster.Valid, Run, PodNames.Plan, Total, Int32, Launched, Judged, Aged, TornDown, WasListed, WasDeleted,
          PodsCreated;
      list := map[];
      ghost var start := api.trace;
      var job := api.ReadJob(j, v);
      ghost var read := api.trace;
      match job.history[v].phase
      case Unset =>
        out := ReconcilePending(j, v, job);
        if out.Done? {
          CreatedOn(api.cfg, read, api.trace, start, api.trace, j, job, |job.Plan()|);
        }
      case Pending =>
        out := ReconcilePending(j, v, job);
        if out.Done? {
          CreatedOn(api.cfg, read, api.trace, start, api.trace, j, job, |job.Plan()|);
        }
      case Running =>
        out, list := ReconcileRunning(j, v, job);
        if out.Done? {
          ListedOn(api.cfg, read, api.trace, start, api.trace, j, list);
        }
      case Succeeded => out := ReconcileTerminal(j, v, job);
      case Failed => out := ReconcileTerminal(j, v, job);
      case Terminating =>
        out, list := ReconcileTerminating(j, v, job);
        if out.Done? {
          ListedOn(api.cfg, read, api.trace, start, api.trace, j, list);
          forall key | key in list {
            DeletedOn(api.cfg, read, api.trace, start, api.trace, j, key);
          }
        }
      case Other(_) => out := Done(0);
    }

    /** Lines 70-77: the job is Running, and JobStarted called with its agents. */
    method Launch(j: nat, v: nat, job: Job, totalAgents: int) returns (ok: bool)
      requires api.Valid() && v < |job.history| && api.At(j, job.history, Creating(v, |job.Plan()|))
      requires Kept(job, api.st.jobs[j]) && totalAgents == Total(job.spec.roles)
      modifies api
      ensures api.Valid() && old(api.trace) <= api.trace && ok == !api.failed && j < |api.st.jobs|
      ensures api.clock == old(api.clock) + 1 && api.st.jobs[j].run == Idle && SameJob(job, api.st.jobs[j])
      ensures if ok then api.script(old(api.clock)).ok
              else api.script(old(api.clock)).ok ==> Refused(LastWorld(api.cfg, api.trace), j, v)
      ensures !ok ==> api.st.jobs[j].history == job.history && Kept(job, api.st.jobs[j])
      ensures ok ==>
                && v == |job.history| - 1 && |api.st.jobs[j].history| == |job.history| + 1
                && job.history <= api.st.jobs[j].history
                && api.st.jobs[j].Last().phase == Running
                && api.st.jobs[j].Last().active == Int32(Total(job.spec.roles))
                && IsNow(api.st.jobs[j].Last().startedAt, api.st.now)
                && api.st.jobs[j].starts == job.starts + 1 && api.st.jobs[j].finishes == job.finishes
    {
      hide Cluster.Valid, Run, Call, PodNames.Plan, Total, Int32, Labelled, AllDone, AnyFailed, LastWorld;
      ok := api.UpdateStatus(j, Running, Int32(totalAgents), job.history, v);
      if ok {
        api.JobStarted(j, api.st.jobs[j].history, Int32(totalAgents));
      }
    }

    method ReconcilePending(j: nat, v: nat, job: Job) returns (out: Outcome)
      requires api.Valid() && v < |job.history| && job.history[v].phase in {Unset, Pending}
      requires j < |api.st.jobs| && api.st.jobs[j] == job.(run := GetTenant(v)) && !api.failed
      modifies api
      ensures api.Valid() && old(api.trace) <= api.trace && j < |api.st.jobs| && (out.Error? <==> api.failed)
      ensures Reported(api, j, v, old(api.clock), out)
      ensures out.Done? ==> api.clock == old(api.clock) + |job.Plan()| + 2
      ensures out.Done? ==> PodsCreated(api.cfg, old(api.trace), api.trace, j, job, |job.Plan()|)
      ensures Tidy(job, v, out, api.st.jobs[j]) && Launched(job, out, api.st.jobs[j], api.st.now)
    {
      hide Cluster.Valid, Run, Call, PodNames.Plan, Total, Int32, Labelled, AllDone, AnyFailed, PodsCreated;
      ghost var h, start := job.history, api.trace;
      var found := api.GetTenant(j, h, v);
      if !found {
        return Error;
      }
      ghost var found_ := api.trace;
      var created, totalAgents := CreatePods(j, v, job);
      if !created {
        return Error;
      }
      ghost var created_ := api.trace;
      var ok := Launch(j, v, job, totalAgents);
      if !ok {
        return Error;
      }
      out := Done(0);
      CreatedOn(api.cfg, found_, created_, start, api.trace, j, job, |job.Plan()|);
    }

    /** The creation loops of reconcilePending. */
    method CreatePods(j: nat, ghost v: nat, job: Job) returns (ok: bool, totalAgents: int)
      requires api.Valid() && api.At(j, job.history, Creating(v, 0)) && Kept(job, api.st.jobs[j]) && !api.failed
      modifies api
      ensures api.Valid() && old(api.trace) <= api.trace
      ensures api.At(j, job.history, if ok then Creating(v, |job.Plan()|) else Idle) && Kept(job, api.st.jobs[j])
      ensures ok == !api.failed && (ok ==> totalAgents == Total(job.spec.roles))
      ensures if ok then api.clock == old(api.clock) + |job.Plan()| && AllOk(api.script, old(api.clock), api.clock)
              else Stopped(api, old(api.clock))
      ensures ok ==> PodsCreated(api.cfg, old(api.trace), api.trace, j, job, |job.Plan()|)
    {
      assert PodNames.Plan(job.name, []) == [] && Total([]) == 0;
      assert AllOk(api.script, api.clock, api.clock);
      hide Cluster.Valid, Run, Call, PodNames.Plan, Total, Int32, PodName, PodsCreated, Labelled, AllDone, AnyFailed,
          AllOk, Stopped;
      ghost var h := job.history;
      ok := true;
      totalAgents := 0;
      var roles := job.spec.roles;
      for r := 0 to |roles|
        invariant api.Valid() && old(api.trace) <= api.trace
        invariant api.At(j, h, Creating(v, |Plan(job.name, roles[..r])|)) && Kept(job, api.st.jobs[j])
        invariant ok && !api.failed && totalAgents == Total(roles[..r])
        invariant api.clock == old(api.clock) + |Plan(job.name, roles[..r])|
        invariant PodsCreated(api.cfg, old(api.trace), api.trace, j, job, |Plan(job.name, roles[..r])|)
        invariant AllOk(api.script, old(api.clock), api.clock)
      {
        var replicas := roles[r].maxReplicas;
        if replicas == 0 {
          replicas := 1;
        }
        PlanGrows(job.name, roles, r);
        totalAgents := totalAgents + replicas;
        ok := CreateReplicas(j, v, job, r, old(api.trace), old(api.clock));
        if !ok {
          return;
        }
      }
      assert roles[..|roles|] == roles;
    }

    /** The inner one, over the replicas of role r. */
    method CreateReplicas(j: nat, ghost v: nat, job: Job, r: nat, ghost start: seq<Step>, ghost from: nat)
      returns (ok: bool)
      requires start <= api.trace && from <= api.clock && AllOk(api.script, from, api.clock)
      requires r < |job.spec.roles|
               && PodsCreated(api.cfg, start, api.trace, j, job, |Plan(job.name, job.spec.roles[..r])|)
      requires api.Valid() && j < |api.st.jobs| && r < |job.spec.roles| && Kept(job, api.st.jobs[j]) && !api.failed
      requires api.At(j, job.history, Creating(v, |Plan(job.name, job.spec.roles[..r])|))
      modifies api
      ensures api.Valid() && old(api.trace) <= api.trace
      ensures api.At(j, job.history, if ok then Creating(v, |Plan(job.name, job.spec.roles[..r + 1])|) else Idle)
      ensures Kept(job, api.st.jobs[j]) && ok == !api.failed
      ensures ok ==> PodsCreated(api.cfg, start, api.trace, j, job, |Plan(job.name, job.spec.roles[..r + 1])|)
      ensures if ok then
                && api.clock == old(api.clock) + |Plan(job.name, job.spec.roles[..r + 1])|
                                - |Plan(job.name, job.spec.roles[..r])|
                && AllOk(api.script, from, api.clock)
              else Stopped(api, from)
    {
      hide Cluster.Valid, Run, Call, PodNames.Plan, Total, Int32, PodName, PodsCreated, Labelled, AllDone, AnyFailed;
      ghost var h := job.history;
      ok := true;
      var i := 0;
      while i < job.spec.roles[r].Replicas()
        invariant api.clock == old(api.clock) + i && AllOk(api.script, from, api.clock)
        invariant PodsCreated(api.cfg, start, api.trace, j, job, |Plan(job.name, job.spec.roles[..r])| + i)
        invariant ok && !api.failed && 0 <= i && (i <= job.spec.roles[r].Replicas() || i == 0)
        invariant api.Valid() && old(api.trace) <= api.trace
        invariant api.At(j, h, Creating(v, |Plan(job.name, job.spec.roles[..r])| + i)) && Kept(job, api.st.jobs[j])
      {
        PlanAt(job.name, job.spec.roles, r, i);
        ghost var k := |Plan(job.name, job.spec.roles[..r])| + i;
        var name := PodName(job.name, job.spec.roles[r], i);
        assert k < |api.st.jobs[j].Plan()| && name == api.st.jobs[j].Plan()[k];
        ghost var before := api.trace;
        ok := api.CreatePod(j, Key(job.ns, name), h, v, k);
        if !ok {
          return;
        }
        CreatedNext(api.cfg, start, before, api.trace, j, job, k);
        i := i + 1;
      }
      PlanGrows(job.name, job.spec.roles, r);
    }

    /** The loop of reconcileRunning over the listed pods, in whatever order they are listed. */
    static method JudgePods(list: map<Key, Pod>) returns (allDone: bool, anyFailed: bool)
      ensures allDone == AllDone(list) && anyFailed == AnyFailed(list)
    {
      allDone, anyFailed := true, false;
      var rest := list;
      while rest != map[]
        invariant forall key | key in rest :: key in list
        invariant allDone == (forall key | key in list && key !in rest :: list[key].Finished())
        invariant anyFailed == (exists key :: key in list && key !in rest && list[key].phase == PodFailed)
        decreases |rest.Keys|
      {
        var key :| key in rest;
        if list[key].phase != PodSucceeded && list[key].phase != PodFailed {
          allDone := false;
        }
        if list[key].phase == PodFailed {
          anyFailed := true;
        }
        assert (rest - {key}).Keys == rest.Keys - {key};
        rest := rest - {key};
      }
    }

    /** Lines 107-126: the verdict is committed, and JobFinished called with the agents that were active. */
    method Complete(j: nat, v: nat, job: Job, phase: Phase) returns (ok: bool)
      requires api.Valid() && v < |job.history| && api.At(j, job.history, Completing(v, phase))
      requires Kept(job, api.st.jobs[j]) && phase.IsTerminal()
      modifies api
      ensures api.Valid() && old(api.trace) <= api.trace && ok == !api.failed && j < |api.st.jobs|
      ensures api.clock == old(api.clock) + 1 && api.st.jobs[j].run == Idle && SameJob(job, api.st.jobs[j])
      ensures if ok then api.script(old(api.clock)).ok
              else api.script(old(api.clock)).ok ==> Refused(LastWorld(api.cfg, api.trace), j, v)
      ensures !ok ==> api.st.jobs[j].history == job.history && Kept(job, api.st.jobs[j])
      ensures ok ==>
                && v == |job.history| - 1 && |api.st.jobs[j].history| == |job.history| + 1
                && job.history <= api.st.jobs[j].history
                && api.st.jobs[j].Last().phase == phase && api.st.jobs[j].Last().active == 0
                && IsNow(api.st.jobs[j].Last().completedAt, api.st.now)
                && api.st.jobs[j].starts == job.starts && api.st.jobs[j].finishes == job.finishes + 1
    {
      hide Cluster.Valid, Run, Call, PodNames.Plan, Total, Int32, Labelled, AllDone, AnyFailed, LastWorld;
      var activeAgents := job.history[v].active;
      ok := api.UpdateStatus(j, phase, 0, job.history, v);
      if ok {
        api.JobFinished(j, api.st.jobs[j].history, phase, activeAgents);
      }
    }

    method ReconcileRunning(j: nat, v: nat, job: Job) returns (out: Outcome, ghost answer: map<Key, Pod>)
      requires api.Valid() && v < |job.history| && job.history[v].phase == Running
      requires j < |api.st.jobs| && api.st.jobs[j] == job.(run := ListRunning(v)) && !api.failed
      modifies api
      ensures api.Valid() && old(api.trace) <= api.trace && j < |api.st.jobs| && (out.Error? <==> api.failed)
      ensures Reported(api, j, v, old(api.clock), out)
      ensures out.Done? ==> api.clock == old(api.clock) + (if answer == map[] || !AllDone(answer) then 1 else 2)
      ensures Tidy(job, v, out, api.st.jobs[j]) && Judged(job, answer, out, api.st.jobs[j], api.st.now)
      ensures out.Done? ==> WasListed(api.cfg, old(api.trace), api.trace, j, answer)
    {
      hide Cluster.Valid, Run, Call, PodNames.Plan, Total, Int32, Labelled, AllDone, AnyFailed, WasListed, LastWorld,
          Stamped;
      ghost var h, start := job.history, api.trace;
      var ok, list := api.ListPods(j, h, v);
      answer := list;
      if !ok {
        return Error, answer;
      }
      ghost var then_ := api.trace;
      if list == map[] {
        return Done(SECOND), answer;
      }
      var allDone, anyFailed := JudgePods(list);
      if !allDone {
        return Done(5 * SECOND), answer;
      }
      ok := Complete(j, v, job, if anyFailed then Phase.Failed else Phase.Succeeded);
      if !ok {
        return Error, answer;
      }
      out := Done(job.spec.ttl * SECOND);
      ListedOn(api.cfg, start, then_, start, api.trace, j, answer);
    }

    method ReconcileTerminal(j: nat, v: nat, job: Job) returns (out: Outcome)
      requires api.Valid() && v < |job.history| && job.history[v].phase.IsTerminal()
      requires j < |api.st.jobs| && !api.failed
      requires api.st.jobs[j] == job.(run := if Expired(job.spec, job.history[v], api.st.now) then Expiring(v)
               else Idle)
      modifies api
      ensures api.Valid() && old(api.trace) <= api.trace && j < |api.st.jobs| && (out.Error? <==> api.failed)
      ensures Reported(api, j, v, old(api.clock), out)
      ensures out.Done? ==>
                api.clock == old(api.clock) + (if Expired(job.spec, job.history[v], old(api.st).now) then 1 else 0)
      ensures Tidy(job, v, out, api.st.jobs[j]) && Aged(job, job.history[v], old(api.st).now, out, api.st.jobs[j])
    {
      hide Cluster.Valid, Run, Call, PodNames.Plan, Total, Int32, Labelled, AllDone, AnyFailed;
      if job.spec.ttl <= 0 || job.history[v].completedAt.None? {
        return Done(0);
      }
      var elapsed := api.st.now - job.history[v].completedAt.value;
      var ttl := job.spec.ttl * SECOND;
      if elapsed < ttl {
        return Done(ttl - elapsed);
      }
      var ok := api.UpdateStatus(j, Terminating, job.history[v].active, job.history, v);
      out := if ok then Done(0) else Error;
    }

    method ReconcileTerminating(j: nat, v: nat, job: Job) returns (out: Outcome, ghost list: map<Key, Pod>)
      requires api.Valid() && v < |job.history| && job.history[v].phase == Terminating
      requires j < |api.st.jobs| && api.st.jobs[j] == job.(run := ListDoomed(v)) && !api.failed
      modifies api
      ensures api.Valid() && old(api.trace) <= api.trace && j < |api.st.jobs| && (out.Error? <==> api.failed)
      ensures Reported(api, j, v, old(api.clock), out) && (out.Done? ==> api.clock == old(api.clock) + |list| + 2)
      ensures Tidy(job, v, out, api.st.jobs[j]) && TornDown(job, out, api.st.jobs[j])
      ensures out.Done? ==>
                && WasListed(api.cfg, old(api.trace), api.trace, j, list)
                && forall key | key in list :: WasDeleted(api.cfg, old(api.trace), api.trace, j, key)
    {
      hide Cluster.Valid, Run, Call, PodNames.Plan, Total, Int32, Labelled, AllDone, AnyFailed, WasListed, WasDeleted;
      ghost var h, start := job.history, api.trace;
      var ok, items := api.ListPods(j, h, v);
      list := items;
      if !ok {
        return Error, list;
      }
      ghost var then_ := api.trace;
      ok := DeletePods(j, v, job, items);
      if !ok {
        return Error, list;
      }
      ghost var later := api.trace;
      ok := api.DeleteJob(j, h, v);
      out := if ok then Done(0) else Error;
      ListedOn(api.cfg, start, then_, start, api.trace, j, list);
      forall key | key in list {
        DeletedOn(api.cfg, then_, later, start, api.trace, j, key);
      }
    }

    /** Its loop over the listed pods, in whatever order. */
    method DeletePods(j: nat, ghost v: nat, ghost job: Job, list: map<Key, Pod>) returns (ok: bool)
      requires api.Valid() && api.At(j, job.history, Deleting(v, list.Keys)) && Kept(job, api.st.jobs[j]) && !api.failed
      modifies api
      ensures api.Valid() && old(api.trace) <= api.trace && ok == !api.failed
      ensures api.At(j, job.history, if ok then Deleting(v, {}) else Idle) && Kept(job, api.st.jobs[j])
      ensures ok ==> forall key | key in list :: WasDeleted(api.cfg, old(api.trace), api.trace, j, key)
      ensures if ok then api.clock == old(api.clock) + |list| && AllOk(api.script, old(api.clock), api.clock)
              else Stopped(api, old(api.clock))
    {
      hide Cluster.Valid, Run, Call, PodNames.Plan, Total, Int32, Labelled, AllDone, AnyFailed, WasDeleted;
      ghost var start := api.trace;
      var rest := list;
      ok := true;
      while rest != map[]
        invariant api.Valid() && start <= api.trace && ok && !api.failed && forall key | key in rest :: key in list
        invariant api.At(j, job.history, Deleting(v, rest.Keys)) && Kept(job, api.st.jobs[j])
        invariant forall key | key in list && key !in rest :: WasDeleted(api.cfg, start, api.trace, j, key)
        invariant api.clock + |rest.Keys| == old(api.clock) + |list| && AllOk(api.script, old(api.clock), api.clock)
        decreases |rest.Keys|
      {
        var key :| key in rest;
        ghost var before := api.trace;
        ok := api.DeletePod(j, key, job.history, v, rest.Keys);
        if !ok {
          return;
        }
        forall k | k in list && k !in rest {
          DeletedOn(api.cfg, start, before, start, api.trace, j, k);
        }
        DeletedOn(api.cfg, before, api.trace, start, api.trace, j, key);
        assert (rest - {key}).Keys == rest.Keys - {key};
        rest := rest - {key};
      }
    }
  }
}
