/** Each AgentJob's own lifecycle, and the metrics that follow it: what holds in every run, however stale the reads,
    whatever the lists answer, and whatever users do. */
module JobLifecycle {
  import opened Lifecycle
  import opened AgentStreams
  import opened PodNames
  import opened JobModel

  ghost function Phases(h: seq<Status>): seq<Phase> {
    seq(|h|, i requires 0 <= i < |h| => Normal(h[i].phase))
  }

  /** A status agrees with its phase. */
  ghost predicate StatusOk(st: Status, spec: Spec, now: int) {
    && (st.phase == Running ==> st.active == Int32(Total(spec.roles)) && st.startedAt.Some?)
    && (st.phase.IsTerminal() ==> st.completedAt.Some?)
    && (st.phase == Terminating ==> Expired(spec, st, now))
  }

  ghost predicate VersionIs(h: seq<Status>, v: nat, phases: set<Phase>) {
    v < |h| && h[v].phase in phases
  }

  ghost predicate RunOk(job: Job, now: int)
    requires job.history != []
  {
    var h := job.history;
    match job.run
    case Idle => true
    case GetTenant(v) => VersionIs(h, v, {Unset, Pending})
    case Creating(v, k) => VersionIs(h, v, {Unset, Pending}) && k <= |job.Plan()|
    case CountStart(n) => job.Last().phase == Running && n == job.Last().active
    case ListRunning(v) => VersionIs(h, v, {Running})
    case Completing(v, verdict) => VersionIs(h, v, {Running}) && verdict.IsTerminal()
    case CountFinish(verdict, n) => job.Last().phase == verdict && verdict.IsTerminal()
    case Expiring(v) => VersionIs(h, v, {Phase.Succeeded, Phase.Failed}) && Expired(job.spec, h[v], now)
    case ListDoomed(v) => VersionIs(h, v, {Terminating})
    case Deleting(v, _) => VersionIs(h, v, {Terminating})
  }

  /** The reconciler never cancels a job: Terminating comes only after a verdict. */
  ghost predicate OnlyExpires(h: seq<Status>) {
    forall k :: 0 <= k < |h| - 1 && h[k + 1].phase == Terminating ==> h[k].phase.IsTerminal()
  }

  ghost predicate JobOk(job: Job, now: int) {
    && job.history != []
    && OnlyExpires(job.history)
    && Normal(job.history[0].phase) == Pending
    && IsPath(Phases(job.history))
    && (forall st | st in job.history :: StatusOk(st, job.spec, now))
    && RunOk(job, now)
    && job.starts + (if job.run.CountStart? then 1 else 0) == (if Rank(job.Last().phase) >= 1 then 1 else 0)
    && job.finishes + (if job.run.CountFinish? then 1 else 0) == (if Rank(job.Last().phase) >= 2 then 1 else 0)
  }

  ghost predicate AllJobsOk(w: World) {
    forall j :: 0 <= j < |w.jobs| ==> JobOk(w.jobs[j], w.now)
  }

  /** A status update on the newest version that follows a table edge. */
  lemma SaveOk(job: Job, st: Status, next: Progress, now: int)
    requires JobOk(job, now) && StatusOk(st, job.spec, now)
    requires Edge(Normal(job.Last().phase), Normal(st.phase))
             && (st.phase == Terminating ==> job.Last().phase.IsTerminal())
    requires RunOk(Save(job, st, next), now)
    requires job.starts + (if next.CountStart? then 1 else 0) == (if Rank(st.phase) >= 1 then 1 else 0)
    requires job.finishes + (if next.CountFinish? then 1 else 0) == (if Rank(st.phase) >= 2 then 1 else 0)
    ensures JobOk(Save(job, st, next), now)
  {
    hide RunOk, Edge, StatusOk;
    var job' := Save(job, st, next);
    assert Phases(job'.history) == Phases(job.history) + [Normal(st.phase)];
    PathExtends(Phases(job.history), Normal(st.phase));
  }

  /** The three status updates, lines 70-74, 118-122 and 142-143, as accepted by the store. */
  function Saved(w: World, job: Job): Job
    requires job.run.Creating? || job.run.Completing? || job.run.Expiring?
    requires Accepts(job, job.run.v)
  {
    var st := job.history[job.run.v];
    match job.run
    case Creating(_, _) =>
      var n := Int32(Total(job.spec.roles));
      Save(job, st.(phase := Running, active := n, startedAt := Some(Stamp(w.now))), CountStart(n))
    case Completing(_, verdict) =>
      Save(job, st.(phase := verdict, active := 0, completedAt := Some(Stamp(w.now))), CountFinish(verdict, st.active))
    case Expiring(_) =>
      Save(job, st.(phase := Terminating), Idle)
  }

  /** A call either saves a status or leaves the history alone. */
  lemma CallSaves(w: World, job: Job, ok: bool, listed: map<Key, Pod>, key: Key)
    ensures var job' := Call(w, job, ok, listed, key).0;
            && job'.(run := job.run, starts := job.starts, finishes := job.finishes, history := job.history,
                 gone := job.gone) == job
            && (job'.history != job.history ==>
                  && (job.run.Creating? || job.run.Completing? || job.run.Expiring?)
                  && Accepts(job, job.run.v) && job' == Saved(w, job))
            && (job'.history == job.history ==> !job'.run.CountStart? && !job'.run.CountFinish?)
            && (job'.history == job.history && job.run.CountStart? ==>
                 job' == job.(run := Idle, starts := job.starts + 1))
            && (job'.history == job.history && job.run.CountFinish? ==>
                 job' == job.(run := Idle, finishes := job.finishes + 1))
            && (job'.history == job.history && !job.run.CountStart? && !job.run.CountFinish? ==>
                  job'.starts == job.starts && job'.finishes == job.finishes)
  {
    hide Labelled, AllDone, AnyFailed, Total, Int32;
    var job' := Call(w, job, ok, listed, key).0;
    assert job.run.CountStart? || job.run.CountFinish? ==> job'.history == job.history;
  }

  lemma SavedOk(w: World, job: Job)
    requires JobOk(job, w.now)
    requires job.run.Creating? || job.run.Completing? || job.run.Expiring?
    requires Accepts(job, job.run.v)
    ensures JobOk(Saved(w, job), w.now)
  {
    hide Edge, IsPath, Int32, Total, Phases;
    var job' := Saved(w, job);
    assert job.Last() in job.history;
    EdgeIff(Normal(job.Last().phase), Normal(job'.Last().phase));
    SaveOk(job, job'.Last(), job'.run, w.now);
  }

  lemma CallOk(w: World, job: Job, ok: bool, listed: map<Key, Pod>, key: Key)
    requires JobOk(job, w.now)
    ensures JobOk(Call(w, job, ok, listed, key).0, w.now)
  {
    var job' := Call(w, job, ok, listed, key).0;
    CallSaves(w, job, ok, listed, key);
    if job'.history != job.history {
      hide Call, JobOk, Saved;
      SavedOk(w, job);
    } else {
      CallRunOk(w, job, ok, listed, key);
      hide Call, RunOk, Phases, IsPath;
    }
  }

  lemma CallRunOk(w: World, job: Job, ok: bool, listed: map<Key, Pod>, key: Key)
    requires job.history != [] && RunOk(job, w.now) && Call(w, job, ok, listed, key).0.history == job.history
    ensures RunOk(Call(w, job, ok, listed, key).0, w.now)
  {
    hide Labelled, AllDone, AnyFailed, Total, Int32;
  }

  lemma LaterOk(job: Job, now: int, later: int)
    requires JobOk(job, now) && now <= later
    ensures JobOk(job, later)
  {
    hide IsPath, Phases;
  }

  lemma JobStepOk(w: World, step: Step)
    requires AllJobsOk(w)
    ensures AllJobsOk(Next(w, step))
  {
    hide JobOk, Call, FirstMove;
    match step
    case Begin(j, v) =>
      if Next(w, step) != w { BeginOk(w.jobs[j], v, w.now); }
    case Proceed(j, ok, listed, key) =>
      if j < |w.jobs| { CallOk(w, w.jobs[j], ok, listed, key); }
    case CreateJob(name, ns, spec, phase) =>
      if Next(w, step) != w { CreateOk(name, ns, spec, phase, w.now); }
    case UserDeletes(j) =>
      if j < |w.jobs| { GoneOk(w.jobs[j], w.now); }
    case Tick(d) =>
      forall j | 0 <= j < |w.jobs|
        ensures JobOk(w.jobs[j], w.now + d)
      {
        LaterOk(w.jobs[j], w.now, w.now + d);
      }
    case _ =>
  }

  lemma BeginOk(job: Job, v: nat, now: int)
    requires JobOk(job, now) && job.run == Idle && v < |job.history|
    ensures JobOk(job.(run := FirstMove(job, v, now)), now)
  {
  }

  lemma CreateOk(name: string, ns: string, spec: Spec, phase: Phase, now: int)
    requires phase in {Unset, Pending}
    ensures JobOk(Job(name, ns, spec, [Status(phase, 0, None, None)], false, Idle, 0, 0), now)
  {
  }

  lemma GoneOk(job: Job, now: int)
    requires JobOk(job, now)
    ensures JobOk(job.(gone := true), now)
  {
    hide IsPath, Phases;
  }

  lemma {:induction false} ExecOk(w: World, steps: seq<Step>)
    requires AllJobsOk(w)
    ensures AllJobsOk(Exec(w, steps))
    decreases |steps|
  {
    if steps != [] {
      ExecOk(w, steps[..|steps| - 1]);
      JobStepOk(Exec(w, steps[..|steps| - 1]), steps[|steps| - 1]);
    }
  }

  // ------------------------------------------------------------------ metrics

  /** One time series of the three metrics. */
  datatype Gauge = Agents(tenant: string) | Depth(tenant: string) | Totals(tenant: string, status: Phase)

  function Value(m: Metrics, g: Gauge): int {
    match g
    case Agents(t) => Read(m.agentsRunning, t)
    case Depth(t) => Read(m.queueDepth, t)
    case Totals(t, p) => Read(m.jobsTotal, (t, p))
  }

  /** What a job should contribute to a series: its active agents and itself while it is Running, and one terminal
      transition for the status it ended with. */
  function Due(job: Job, g: Gauge): int
    requires job.history != []
  {
    if job.spec.tenant != g.tenant then 0
    else match g
      case Agents(_) => if job.Last().phase == Running then job.Last().active else 0
      case Depth(_) => if job.Last().phase == Running then 1 else 0
      case Totals(_, p) => if p.IsTerminal() && (exists st | st in job.history :: st.phase == p) then 1 else 0
  }

  /** What a metrics call still has to add to a series, between the status update and the call. */
  function Unreported(job: Job, g: Gauge): int {
    if job.spec.tenant != g.tenant then 0
    else match job.run
      case CountStart(n) => (match g case Agents(_) => n case Depth(_) => 1 case _ => 0)
      case CountFinish(verdict, n) =>
        (match g case Agents(_) => -n case Depth(_) => -1 case Totals(_, p) => if p == verdict then 1 else 0)
      case _ => 0
  }

  function Counted(job: Job, g: Gauge): int
    requires job.history != []
  {
    Due(job, g) - Unreported(job, g)
  }

  function Sum(jobs: seq<Job>, g: Gauge): int
    requires forall job | job in jobs :: job.history != []
  {
    if jobs == [] then 0 else Counted(jobs[0], g) + Sum(jobs[1..], g)
  }

  ghost predicate HaveHistory(jobs: seq<Job>) {
    forall job | job in jobs :: job.history != []
  }

  ghost predicate MetricsOk(w: World) {
    HaveHistory(w.jobs) && forall g :: Value(w.metrics, g) == Sum(w.jobs, g)
  }

  lemma {:induction false} SumUpdate(jobs: seq<Job>, j: nat, job: Job, g: Gauge)
    requires HaveHistory(jobs) && j < |jobs| && job.history != []
    ensures HaveHistory(jobs[j := job])
    ensures Sum(jobs[j := job], g) == Sum(jobs, g) - Counted(jobs[j], g) + Counted(job, g)
  {
    hide Counted;
    var next := jobs[j := job];
    forall x | x in next
      ensures x.history != []
    {
      assert x == job || x in jobs;
    }
    if j == 0 {
      assert next[1..] == jobs[1..];
    } else {
      assert next[1..] == jobs[1..][j - 1 := job];
      SumUpdate(jobs[1..], j - 1, job, g);
    }
  }

  lemma {:induction false} SumAppend(jobs: seq<Job>, job: Job, g: Gauge)
    requires HaveHistory(jobs) && job.history != []
    ensures HaveHistory(jobs + [job]) && Sum(jobs + [job], g) == Sum(jobs, g) + Counted(job, g)
  {
    hide Counted;
    var next := jobs + [job];
    forall x | x in next
      ensures x.history != []
    {
      assert x == job || x in jobs;
    }
    if jobs != [] {
      assert next[1..] == jobs[1..] + [job];
      SumAppend(jobs[1..], job, g);
    } else {
      assert next[1..] == [];
    }
  }

  /** A terminal phase is entered for the first time only when the newest status is still Running. */
  lemma NoEarlierVerdict(job: Job, now: int)
    requires JobOk(job, now) && Rank(job.Last().phase) <= 1
    ensures forall st | st in job.history :: !st.phase.IsTerminal()
  {
    forall st | st in job.history
      ensures !st.phase.IsTerminal()
    {
      var k :| 0 <= k < |job.history| && job.history[k] == st;
      if k < |job.history| - 1 {
        PathRises(Phases(job.history), k, |job.history| - 1);
        assert Phases(job.history)[k] == Normal(st.phase);
        assert Phases(job.history)[|job.history| - 1] == Normal(job.Last().phase);
      }
    }
  }

  /** Every call moves what the job has had counted exactly as far as it moves the metrics. */
  lemma CallCounts(w: World, job: Job, ok: bool, listed: map<Key, Pod>, key: Key, g: Gauge)
    requires JobOk(job, w.now)
    ensures var job' := Call(w, job, ok, listed, key).0;
            job'.history != [] && Counted(job', g) - Counted(job, g) == Value(Count(w.metrics, job),
                g) - Value(w.metrics, g)
  {
    var job' := Call(w, job, ok, listed, key).0;
    CallSaves(w, job, ok, listed, key);
    hide Call, IsPath, Phases;
    if job'.history != job.history {
      SavedCounts(w, job, g);
    }
  }

  lemma SavedCounts(w: World, job: Job, g: Gauge)
    requires JobOk(job, w.now)
    requires job.run.Creating? || job.run.Completing? || job.run.Expiring?
    requires Accepts(job, job.run.v)
    ensures Counted(Saved(w, job), g) == Counted(job, g)
  {
    var job' := Saved(w, job);
    if Rank(job.Last().phase) <= 1 {
      NoEarlierVerdict(job, w.now);
    }
    hide IsPath, Phases, Int32, Total, StatusOk;
    assert job'.Last() in job'.history && job'.history == job.history + [job'.Last()];
  }

  lemma MetricsStep(w: World, step: Step)
    requires AllJobsOk(w) && MetricsOk(w)
    ensures MetricsOk(Next(w, step))
  {
    hide Call, Count, Counted, Value, JobOk, FirstMove;
    var w' := Next(w, step);
    match step
    case Begin(j, v) =>
      if w' != w {
        BeginCounts(w.jobs[j], v, w.now);
        forall g ensures Value(w'.metrics, g) == Sum(w'.jobs, g) { SumUpdate(w.jobs, j, w'.jobs[j], g); }
        SumUpdate(w.jobs, j, w'.jobs[j], Agents(""));
      }
    case Proceed(j, ok, listed, key) =>
      if j < |w.jobs| {
        forall g
          ensures HaveHistory(w'.jobs) && Value(w'.metrics, g) == Sum(w'.jobs, g)
        {
          CallCounts(w, w.jobs[j], ok, listed, key, g);
          SumUpdate(w.jobs, j, w'.jobs[j], g);
        }
        assert HaveHistory(w'.jobs) by { CallCounts(w, w.jobs[j], ok, listed, key, Agents(""));
            SumUpdate(w.jobs, j, w'.jobs[j], Agents("")); }
      }
    case CreateJob(name, ns, spec, phase) =>
      if w' != w {
        var job := w'.jobs[|w.jobs|];
        NewCounts(job);
        forall g ensures Value(w'.metrics, g) == Sum(w'.jobs, g) { SumAppend(w.jobs, job, g); }
        SumAppend(w.jobs, job, Agents(""));
      }
    case UserDeletes(j) =>
      if w' != w {
        GoneCounts(w.jobs[j], w.now);
        forall g ensures Value(w'.metrics, g) == Sum(w'.jobs, g) { SumUpdate(w.jobs, j, w'.jobs[j], g); }
        SumUpdate(w.jobs, j, w'.jobs[j], Agents(""));
      }
    case _ =>
  }

  lemma BeginCounts(job: Job, v: nat, now: int)
    requires JobOk(job, now) && job.run == Idle && v < |job.history|
    ensures forall g :: Counted(job.(run := FirstMove(job, v, now)), g) == Counted(job, g)
  {
    hide IsPath, Phases;
  }

  lemma NewCounts(job: Job)
    requires |job.history| == 1 && job.history[0].phase in {Unset, Pending} && job.run == Idle
    ensures forall g :: Counted(job, g) == 0
  {
  }

  lemma GoneCounts(job: Job, now: int)
    requires JobOk(job, now)
    ensures forall g :: Counted(job.(gone := true), g) == Counted(job, g)
  {
    hide IsPath, Phases;
  }

  lemma {:induction false} RunMetricsOk(cfg: Config, steps: seq<Step>)
    ensures AllJobsOk(Run(cfg, steps)) && MetricsOk(Run(cfg, steps))
    decreases |steps|
  {
    if steps == [] {
      assert forall g :: Value(Init(cfg).metrics, g) == 0;
    } else {
      var front := steps[..|steps| - 1];
      RunMetricsOk(cfg, front);
      JobStepOk(Run(cfg, front), steps[|steps| - 1]);
      MetricsStep(Run(cfg, front), steps[|steps| - 1]);
    }
  }
}
