/** Termination of the AgentJob lifecycle: a measure that nothing raises, and clean reconciles that lower it. */
module JobProgress {
  import opened Lifecycle
  import opened AgentStreams
  import opened PodNames
  import opened JobModel
  import opened JobLifecycle
  import opened JobPods
  import opened JobTheorems
  import JobVerdict

  /** Nothing is stale, and nobody removes pods from outside; users may delete jobs. */
  predicate Calm(cfg: Config) { !cfg.staleReads && !cfg.staleLists && !cfg.vanish }

  /** The stages a job goes down. */
  function Stage(job: Job): nat
    requires job.history != []
  {
    if job.gone then 0
    else match job.Last().phase
      case Terminating => 1
      case Succeeded => 2
      case Failed => 2
      case Running => 3
      case _ => 4
  }

  /** Within a stage: planned pods still missing, not yet finished, or still there. */
  function Left(ns: string, plan: seq<string>, phase: Phase, pods: map<Key, Pod>): set<string> {
    match phase
    case Terminating => set name | name in plan && Key(ns, name) in pods
    case Succeeded => {}
    case Failed => {}
    case Running => set name | name in plan && !(Key(ns, name) in pods && pods[Key(ns, name)].Finished())
    case _ => set name | name in plan && Key(ns, name) !in pods
  }

  function LeftOf(job: Job, pods: map<Key, Pod>): set<string>
    requires job.history != []
  {
    Left(job.ns, job.Plan(), job.Last().phase, pods)
  }

  /** The lexicographic measure (stage, pods left in it) has fallen. */
  ghost predicate Falls(job: Job, pods: map<Key, Pod>, job': Job, pods': map<Key, Pod>)
    requires job.history != [] && job'.history != []
  {
    || Stage(job') < Stage(job)
    || (Stage(job') == Stage(job) && |LeftOf(job', pods')| < |LeftOf(job, pods)|)
  }

  /** Nothing the measure looks at has changed, or it has fallen. */
  ghost predicate NoWorse(job: Job, pods: map<Key, Pod>, job': Job, pods': map<Key, Pod>)
    requires job.history != [] && job'.history != []
  {
    || (job'.history == job.history && job'.gone == job.gone && LeftOf(job', pods') == LeftOf(job, pods))
    || Falls(job, pods, job', pods')
  }

  /** Without stale reads a reconcile works on the newest version. */
  ghost predicate Fresh(job: Job) {
    match job.run
    case Idle => true
    case CountStart(_) => true
    case CountFinish(_, _) => true
    case _ => job.run.v == |job.history| - 1
  }

  ghost predicate AllFresh(w: World) {
    forall j :: 0 <= j < |w.jobs| ==> Fresh(w.jobs[j])
  }

  lemma FreshStep(w: World, step: Step)
    requires !w.cfg.staleReads && AllFresh(w)
    ensures AllFresh(Next(w, step))
  {
    hide Labelled, AllDone, AnyFailed, Total, Int32, PodNames.Plan, Expired, Count;
    if step.Proceed? && step.j < |w.jobs| {
      CallFresh(w, w.jobs[step.j], step.ok, step.listed, step.key);
      hide Call;
    }
  }

  lemma CallFresh(w: World, job: Job, ok: bool, listed: map<Key, Pod>, key: Key)
    requires Fresh(job)
    ensures Fresh(Call(w, job, ok, listed, key).0)
  {
    hide Labelled, AllDone, AnyFailed, Total, Int32, PodNames.Plan;
  }

  lemma {:induction false} CalmRun(cfg: Config, steps: seq<Step>)
    requires Calm(cfg) && Apart(Run(cfg, steps).jobs)
    ensures var w := Run(cfg, steps);
            AllJobsOk(w) && PodsOk(w) && AllFresh(w) && w.cfg == cfg
    decreases |steps|
  {
    RunPodsOk(cfg, steps);
    if steps != [] {
      var front := steps[..|steps| - 1];
      ApartBefore(Run(cfg, front), steps[|steps| - 1]);
      CalmRun(cfg, front);
      FreshStep(Run(cfg, front), steps[|steps| - 1]);
    }
  }

  // --------------------------------------------------- nothing raises the measure

  lemma SubsetSmaller(a: set<string>, b: set<string>)
    requires a < b
    ensures |a| < |b|
  {
    var x :| x in b && x !in a;
    assert a <= b - {x};
    SubsetSize(a, b - {x});
  }

  lemma {:induction false} SubsetSize(a: set<string>, b: set<string>)
    requires a <= b
    ensures |a| <= |b|
  {
    if a != {} {
      var x :| x in a;
      SubsetSize(a - {x}, b - {x});
    }
  }

  /** The pods of a job have only changed in a way its stage welcomes. */
  lemma PodsNoWorse(job: Job, pods: map<Key, Pod>, job': Job, pods': map<Key, Pod>)
    requires job.history != [] && job'.history == job.history && job'.gone == job.gone
    requires job'.ns == job.ns && job'.name == job.name && job'.spec == job.spec
    requires LeftOf(job, pods') <= LeftOf(job, pods)
    ensures NoWorse(job, pods, job', pods')
  {
    if LeftOf(job, pods') != LeftOf(job, pods) {
      SubsetSmaller(LeftOf(job, pods'), LeftOf(job, pods));
    }
  }

  lemma OwnCallNoWorse(w: World, job: Job, ok: bool, listed: map<Key, Pod>, key: Key)
    requires JobOk(job, w.now) && Fresh(job) && JobPodsOk(job, w.pods)
    ensures var r := Call(w, job, ok, listed, key);
            && r.0.history != [] && NoWorse(job, w.pods, r.0, r.1)
            && (r.1 != w.pods ==> Falls(job, w.pods, r.0, r.1))
  {
    var r := Call(w, job, ok, listed, key);
    if r.1 != w.pods {
      OwnPodsStrict(w, job, ok, listed, key);
    }
    CallSaves(w, job, ok, listed, key);
    GoneBy(w, job, ok, listed, key);
    if r.0.history != job.history {
      SavedStage(w, job);
    } else if r.0.gone != job.gone {
    } else {
      OwnPods(w, job, ok, listed, key);
      PodsNoWorse(job, w.pods, r.0, r.1);
    }
  }

  lemma SavedStage(w: World, job: Job)
    requires JobOk(job, w.now)
    requires job.run.Creating? || job.run.Completing? || job.run.Expiring?
    requires Accepts(job, job.run.v)
    ensures Saved(w, job).history != [] && Stage(Saved(w, job)) < Stage(job)
  {
    hide IsPath, Phases, StatusOk, Total, Int32, PodNames.Plan;
  }

  lemma OwnPods(w: World, job: Job, ok: bool, listed: map<Key, Pod>, key: Key)
    requires JobOk(job, w.now) && Fresh(job) && JobPodsOk(job, w.pods)
    requires Call(w, job, ok, listed, key).0.history == job.history
    ensures LeftOf(job, Call(w, job, ok, listed, key).1) <= LeftOf(job, w.pods)
  {
    hide IsPath, Phases, StatusOk, Total, Int32, PodNames.Plan, VerdictTrue, Labelled, AllDone, AnyFailed, AllCreated,
        CreatedUpTo;
  }

  /** A create that makes a pod, or a delete that removes one, leaves fewer to go. */
  lemma OwnPodsStrict(w: World, job: Job, ok: bool, listed: map<Key, Pod>, key: Key)
    requires JobOk(job, w.now) && Fresh(job) && JobPodsOk(job, w.pods)
    requires Call(w, job, ok, listed, key).1 != w.pods
    ensures var r := Call(w, job, ok, listed, key);
            && r.0.history == job.history && r.0.gone == job.gone && r.0.ns == job.ns && r.0.name == job.name
            && r.0.spec == job.spec
            && LeftOf(job, r.1) < LeftOf(job, w.pods)
  {
    hide IsPath, Phases, StatusOk, Total, Int32, PodNames.Plan, VerdictTrue, Labelled, AllDone, AnyFailed, AllCreated,
        CreatedUpTo;
    OwnPods(w, job, ok, listed, key);
    var r := Call(w, job, ok, listed, key);
    if job.run.Creating? {
      var name := job.Plan()[job.run.k];
      assert name in LeftOf(job, w.pods) && name !in LeftOf(job, r.1);
    } else {
      assert job.run.Deleting? && key in job.run.rest && job.Wants(key);
      assert key == Key(job.ns, key.name);
      assert key.name in LeftOf(job, w.pods) && key.name !in LeftOf(job, r.1);
    }
  }

  /** Pods a job does not want do not count. */
  lemma ForeignPods(job: Job, pods: map<Key, Pod>, pods': map<Key, Pod>)
    requires job.history != []
    requires forall key | job.Wants(key) :: (key in pods <==> key in pods') && (key in pods ==> pods[key] == pods'[key])
    ensures LeftOf(job, pods') == LeftOf(job, pods)
  {
    hide PodNames.Plan;
    assert forall name | name in job.Plan() :: job.Wants(Key(job.ns, name));
  }

  /** No step of anyone raises the measure of a job, and every call of its reconcile that changes anything in the store
      -- a pod made or removed, a version committed, the job deleted -- lowers it. */
  lemma NothingRaisesTheMeasure(cfg: Config, steps: seq<Step>, step: Step, j: nat)
    requires Calm(cfg) && Apart(Run(cfg, steps).jobs) && j < |Run(cfg, steps).jobs|
    ensures var w, w' := Run(cfg, steps), Next(Run(cfg, steps), step);
            && j < |w'.jobs| && w.jobs[j].history != [] && w'.jobs[j].history != []
            && NoWorse(w.jobs[j], w.pods, w'.jobs[j], w'.pods)
            && (w'.jobs[j].history != w.jobs[j].history || w'.jobs[j].gone != w.jobs[j].gone
                || (step.Proceed? && step.j == j && w'.pods != w.pods) ==>
                  Falls(w.jobs[j], w.pods, w'.jobs[j], w'.pods))
  {
    CalmRun(cfg, steps);
    var w, w' := Run(cfg, steps), Next(Run(cfg, steps), step);
    var job := w.jobs[j];
    JobsStay(w, step);
    assert JobOk(job, w.now) && job in w.jobs && JobPodsOk(job, w.pods) && Fresh(job);
    hide Run, Exec, JobOk, JobPodsOk, Fresh, Falls, NoWorse, PodNames.Plan, Call, Owned, Left, AllJobsOk;
    if step.Proceed? && step.j < |w.jobs| {
      var i := step.j;
      if i == j {
        OwnCallNoWorse(w, job, step.ok, step.listed, step.key);
        NoWorseChange(job, w.pods, w'.jobs[j], w'.pods);
      } else {
        CurrentList(w, w.jobs[i], step.ok, step.listed, step.key);
        CallPods(w, i, step.ok, step.key);
        ForeignPods(job, w.pods, w'.pods);
        PodsNoWorse(job, w.pods, w'.jobs[j], w'.pods);
      }
    } else if step.PodMoves? && w' != w {
      MovedPod(job, w.pods, step.key, step.becomes);
      PodsNoWorse(job, w.pods, w'.jobs[j], w'.pods);
    } else {
      if w' != w {
        OthersRun(w, step);
      }
      if w'.jobs[j].gone != job.gone {
        LostFalls(job, w.pods, w'.jobs[j], w'.pods);
      } else {
        PodsNoWorse(job, w.pods, w'.jobs[j], w'.pods);
      }
    }
  }

  lemma LostFalls(job: Job, pods: map<Key, Pod>, job': Job, pods': map<Key, Pod>)
    requires job.history != [] && job'.history != [] && !job.gone && job'.gone
    ensures Falls(job, pods, job', pods') && NoWorse(job, pods, job', pods')
  {
  }

  /** Fresh reads are needed: a reconcile that still reads a Terminating job as Pending makes its pods again. */
  lemma StaleReadRaisesTheMeasure(w: World, j: nat)
    requires w.cfg.staleReads && j < |w.jobs| && w.jobs[j].run == Idle && !w.jobs[j].gone
             && w.jobs[j].spec.tenant in w.tenants
    requires w.jobs[j].history != [] && w.jobs[j].history[0].phase in {Unset, Pending}
             && w.jobs[j].Last().phase == Terminating
    requires w.jobs[j].Plan() != [] && Key(w.jobs[j].ns, w.jobs[j].Plan()[0]) !in w.pods
    ensures var w' := Next(Next(Next(w, Begin(j, 0)), Good(j, NO_KEY)), Good(j, NO_KEY));
            && j < |w'.jobs| && w'.jobs[j].history != []
            && !NoWorse(w.jobs[j], w.pods, w'.jobs[j], w'.pods)
  {
    hide PodNames.Plan, Labelled, AllDone, AnyFailed, Total, Int32, Expired;
    var job := w.jobs[j];
    var name := job.Plan()[0];
    var w2 := Next(Next(w, Begin(j, 0)), Good(j, NO_KEY));
    assert w2.jobs[j] == job.(run := Creating(0, 0)) && w2.pods == w.pods;
    var w3 := Next(w2, Good(j, NO_KEY));
    assert w3.jobs[j] == job.(run := Creating(0, 1))
        && w3.pods == w.pods[Key(job.ns, name) := Pod(job.name, PodPending)];
    var left, left' := LeftOf(job, w.pods), LeftOf(w3.jobs[j], w3.pods);
    assert name in left' && name !in left;
    assert left <= left';
    SubsetSmaller(left, left');
  }

  /** And such a state is reached. */
  lemma StaleReadReached() returns (cfg: Config, steps: seq<Step>)
    ensures cfg == Config(true, false, false, false)
    ensures var w := Run(cfg, steps);
            && |w.jobs| == 1 && w.jobs[0].run == Idle && w.jobs[0].history != []
            && var w' := Next(Next(Next(w, Begin(0, 0)), Good(0, NO_KEY)), Good(0, NO_KEY));
            && 0 < |w'.jobs| && w'.jobs[0].history != []
            && !NoWorse(w.jobs[0], w.pods, w'.jobs[0], w'.pods)
  {
    cfg := Config(true, false, false, false);
    var w;
    JobVerdict.JobOfTwo();
    steps, w := JobVerdict.PodsGone(cfg);
    hide Run, Exec, PodName, PodNames.Plan;
    assert w.jobs[0].Plan() == JobVerdict.JOB.Plan();
    StaleReadRaisesTheMeasure(w, 0);
  }

  lemma NoWorseChange(job: Job, pods: map<Key, Pod>, job': Job, pods': map<Key, Pod>)
    requires job.history != [] && job'.history != [] && NoWorse(job, pods, job', pods')
    ensures job'.history != job.history || job'.gone != job.gone ==> Falls(job, pods, job', pods')
  {
  }

  lemma MovedPod(job: Job, pods: map<Key, Pod>, key: Key, becomes: PodPhase)
    requires job.history != [] && key in pods && !pods[key].Finished()
    ensures LeftOf(job, pods[key := pods[key].(phase := becomes)]) <= LeftOf(job, pods)
  {
    hide PodNames.Plan;
  }

  /** A pod step counts too: when a planned pod of a Running job finishes, the measure falls. */
  lemma FinishingPodLowers(job: Job, pods: map<Key, Pod>, key: Key, becomes: PodPhase)
    requires job.history != [] && job.Last().phase == Running && !job.gone
    requires job.Wants(key) && key in pods && !pods[key].Finished() && Pod(job.name, becomes).Finished()
    ensures Falls(job, pods, job, pods[key := pods[key].(phase := becomes)])
  {
    var pods' := pods[key := pods[key].(phase := becomes)];
    assert key == Key(job.ns, key.name);
    assert key.name in LeftOf(job, pods) && key.name !in LeftOf(job, pods');
    MovedPod(job, pods, key, becomes);
    SubsetSmaller(LeftOf(job, pods'), LeftOf(job, pods));
  }

  // ------------------------------------------------- clean reconciles lower it

  lemma {:induction false} ExecCons(w: World, step: Step, more: seq<Step>)
    ensures Exec(w, [step] + more) == Exec(Next(w, step), more)
    decreases |more|
  {
    hide Next;
    var all := [step] + more;
    if more == [] {
      assert all[..0] == [] && all == [step];
      assert Exec(w, all) == Next(Exec(w, all[..0]), step);
    } else {
      assert all[..|all| - 1] == [step] + more[..|more| - 1];
      ExecCons(w, step, more[..|more| - 1]);
    }
  }

  function Good(j: nat, key: Key): Step {
    Proceed(j, true, map[], key)
  }

  const NO_KEY := Key("", "")

  /** Calls of j's reconcile that get through. */
  ghost predicate Calls(j: nat, steps: seq<Step>) {
    forall s | s in steps :: s.Proceed? && s.j == j && s.ok
  }

  /** One reconcile of j, from its version v, whose calls get through. */
  ghost predicate OneReconcile(j: nat, v: int, steps: seq<Step>) {
    steps != [] && steps[0].Begin? && steps[0].j == j && steps[0].v == v && Calls(j, steps[1..])
  }

  lemma {:induction false} CleanCreate(w: World, j: nat, k: nat) returns (more: seq<Step>)
    requires j < |w.jobs| && !w.jobs[j].gone && w.jobs[j].history != []
    requires w.jobs[j].run == Creating(|w.jobs[j].history| - 1, k) && k <= |w.jobs[j].Plan()|
    ensures Calls(j, more) && j < |Exec(w, more).jobs|
    ensures Exec(w, more).jobs[j].history != []
    ensures Exec(w, more).jobs[j].Last().phase == Running && !Exec(w, more).jobs[j].gone
    decreases |w.jobs[j].Plan()| - k
  {
    hide Labelled, AllDone, AnyFailed, Total, Int32, PodNames.Plan, Exec;
    var w' := Next(w, Good(j, NO_KEY));
    if k < |w.jobs[j].Plan()| {
      assert w'.jobs[j] == w.jobs[j].(run := Creating(|w.jobs[j].history| - 1, k + 1));
      more := CleanCreate(w', j, k + 1);
    } else {
      more := [];
      ExecNone(w');
    }
    ExecCons(w, Good(j, NO_KEY), more);
    more := [Good(j, NO_KEY)] + more;
  }

  lemma ExecNone(w: World)
    ensures Exec(w, []) == w
  {
  }

  lemma {:induction false} CleanDelete(w: World, j: nat) returns (more: seq<Step>)
    requires j < |w.jobs| && w.jobs[j].run.Deleting? && w.jobs[j].history != []
    ensures Calls(j, more) && j < |Exec(w, more).jobs| && Exec(w, more).jobs[j].gone
    ensures Exec(w, more).jobs[j].history == w.jobs[j].history
    decreases |w.jobs[j].run.rest|
  {
    hide Labelled, AllDone, AnyFailed, Total, Int32, PodNames.Plan, Exec;
    var rest := w.jobs[j].run.rest;
    var step;
    if rest == {} {
      step, more := Good(j, NO_KEY), [];
      ExecNone(Next(w, step));
    } else {
      var key :| key in rest;
      step := Good(j, key);
      assert Next(w, step).jobs[j].run == Deleting(w.jobs[j].run.v, rest - {key});
      more := CleanDelete(Next(w, step), j);
    }
    ExecCons(w, step, more);
    more := [step] + more;
  }

  /** What a stage waits for: the tenant, the pods, the TTL, nothing. */
  ghost predicate Awaited(w: World, job: Job)
    requires job.history != []
  {
    match job.Last().phase
    case Terminating => true
    case Succeeded => Expired(job.spec, job.Last(), w.now)
    case Failed => Expired(job.spec, job.Last(), w.now)
    case Running => HasFinishedPods(w, job)
    case _ => job.spec.tenant in w.tenants
  }

  /** The job has pods, and all of them have finished. */
  ghost predicate HasFinishedPods(w: World, job: Job) {
    var list := Labelled(w.pods, job.ns, job.name);
    list != map[] && AllDone(list)
  }

  /** Whenever a job that still exists has what its stage waits for, a reconcile whose calls succeed takes it at least
      one stage down -- however stale other reads were, and whatever was removed from outside. */
  lemma CleanReconcileDescends(cfg: Config, steps: seq<Step>, j: nat) returns (more: seq<Step>)
    requires !cfg.staleLists && j < |Run(cfg, steps).jobs|
    requires Run(cfg, steps).jobs[j].run == Idle && !Run(cfg, steps).jobs[j].gone
             && Run(cfg, steps).jobs[j].history != []
    requires Awaited(Run(cfg, steps), Run(cfg, steps).jobs[j])
    ensures var w, w' := Run(cfg, steps), Exec(Run(cfg, steps), more);
            && OneReconcile(j, |w.jobs[j].history| - 1, more)
            && j < |w'.jobs| && w'.jobs[j].history != [] && Stage(w'.jobs[j]) < Stage(w.jobs[j])
  {
    RunMetricsOk(cfg, steps);
    JobVerdict.OwnersRun(cfg, steps);
    var w := Run(cfg, steps);
    assert JobOk(w.jobs[j], w.now);
    PhaseKnown(w.jobs[j], w.now);
    hide Run, Exec, JobOk, Next, PodNames.Plan, AllJobsOk, JobVerdict.OwnersOk, Expired, HasFinishedPods;
    match Stage(w.jobs[j])
    case 4 => more := CleanPending(w, j);
    case 3 => more := CleanRunning(w, j);
    case 2 => more := CleanFinished(w, j);
    case _ => more := CleanTerminating(w, j);
  }

  /** An idle job about to be reconciled from its newest version. */
  ghost predicate Startable(w: World, j: nat) {
    && !w.cfg.staleLists && j < |w.jobs| && w.jobs[j].run == Idle && !w.jobs[j].gone && w.jobs[j].history != []
  }

  lemma Two(w: World, a: Step, b: Step, more: seq<Step>)
    ensures Exec(w, [a] + ([b] + more)) == Exec(Next(Next(w, a), b), more)
  {
    ExecCons(w, a, [b] + more);
    ExecCons(Next(w, a), b, more);
  }

  lemma CleanPending(w: World, j: nat) returns (more: seq<Step>)
    requires Startable(w, j) && w.jobs[j].Last().phase in {Unset, Pending} && w.jobs[j].spec.tenant in w.tenants
    ensures var w' := Exec(w, more);
            && OneReconcile(j, |w.jobs[j].history| - 1, more)
            && j < |w'.jobs| && w'.jobs[j].history != [] && Stage(w'.jobs[j]) < Stage(w.jobs[j])
  {
    hide Exec, PodNames.Plan, Labelled, AllDone, AnyFailed, Total, Int32;
    var begin, good := Begin(j, |w.jobs[j].history| - 1), Good(j, NO_KEY);
    more := CleanCreate(Next(Next(w, begin), good), j, 0);
    Two(w, begin, good, more);
    more := [begin] + ([good] + more);
  }

  lemma CleanRunning(w: World, j: nat) returns (more: seq<Step>)
    requires Startable(w, j) && w.jobs[j].Last().phase == Running
    requires HasFinishedPods(w, w.jobs[j])
    ensures var w' := Exec(w, more);
            && OneReconcile(j, |w.jobs[j].history| - 1, more)
            && j < |w'.jobs| && w'.jobs[j].history != [] && Stage(w'.jobs[j]) < Stage(w.jobs[j])
            && w'.jobs[j].history != w.jobs[j].history
  {
    var begin, good := Begin(j, |w.jobs[j].history| - 1), Good(j, NO_KEY);
    var w2 := Next(Next(w, begin), good);
    VerdictFound(w, j);
    hide Next, Exec, PodNames.Plan, HasFinishedPods;
    VerdictLowers(w2, j);
    more := [begin] + ([good] + [good]);
    Two(w, begin, good, [good]);
    ExecCons(w2, good, []);
    ExecNone(Next(w2, good));
    assert [good] + [] == [good];
  }

  lemma VerdictFound(w: World, j: nat)
    requires Startable(w, j) && w.jobs[j].Last().phase == Running
    requires HasFinishedPods(w, w.jobs[j])
    ensures var w2 := Next(Next(w, Begin(j, |w.jobs[j].history| - 1)), Good(j, NO_KEY));
            && j < |w2.jobs| && w2.jobs[j].history == w.jobs[j].history && w2.jobs[j].gone == w.jobs[j].gone
            && w2.jobs[j].run.Completing? && w2.jobs[j].run.v == |w.jobs[j].history| - 1
            && w2.jobs[j].run.verdict.IsTerminal()
  {
    hide PodNames.Plan, Labelled, AllDone, AnyFailed, Total, Int32;
  }

  lemma VerdictLowers(w: World, j: nat)
    requires j < |w.jobs| && !w.jobs[j].gone && w.jobs[j].history != [] && w.jobs[j].Last().phase == Running
    requires w.jobs[j].run.Completing? && w.jobs[j].run.v == |w.jobs[j].history| - 1
             && w.jobs[j].run.verdict.IsTerminal()
    ensures var job' := Next(w, Good(j, NO_KEY)).jobs[j];
            job'.history != [] && Stage(job') < Stage(w.jobs[j]) && job'.history != w.jobs[j].history
  {
    hide PodNames.Plan, Labelled, AllDone, AnyFailed, Total, Int32, Count;
  }

  lemma CleanFinished(w: World, j: nat) returns (more: seq<Step>)
    requires Startable(w, j) && w.jobs[j].Last().phase.IsTerminal() && Expired(w.jobs[j].spec, w.jobs[j].Last(), w.now)
    ensures var w' := Exec(w, more);
            && OneReconcile(j, |w.jobs[j].history| - 1, more)
            && j < |w'.jobs| && w'.jobs[j].history != [] && Stage(w'.jobs[j]) < Stage(w.jobs[j])
  {
    hide Exec, PodNames.Plan, Labelled, AllDone, AnyFailed, Total, Int32, Expired;
    var begin, good := Begin(j, |w.jobs[j].history| - 1), Good(j, NO_KEY);
    more := [begin] + ([good] + []);
    Two(w, begin, good, []);
    ExecNone(Next(Next(w, begin), good));
  }

  lemma CleanTerminating(w: World, j: nat) returns (more: seq<Step>)
    requires Startable(w, j) && w.jobs[j].Last().phase == Terminating
    ensures var w' := Exec(w, more);
            && OneReconcile(j, |w.jobs[j].history| - 1, more)
            && j < |w'.jobs| && w'.jobs[j].history != [] && Stage(w'.jobs[j]) < Stage(w.jobs[j])
  {
    hide Exec, PodNames.Plan, Labelled, AllDone, AnyFailed, Total, Int32;
    var begin, good := Begin(j, |w.jobs[j].history| - 1), Good(j, NO_KEY);
    more := CleanDelete(Next(Next(w, begin), good), j);
    Two(w, begin, good, more);
    more := [begin] + ([good] + more);
  }

  lemma PhaseKnown(job: Job, now: int)
    requires JobOk(job, now)
    ensures job.Last().phase in {Unset, Pending, Running, Phase.Succeeded, Phase.Failed, Terminating}
  {
    hide StatusOk, RunOk;
    var p := Phases(job.history);
    PathShape(p);
    assert p[|p| - 1] == Normal(job.Last().phase);
  }

  /** For a Running job that waits for pods of its plan, and whose pods nobody removes, that is when none is left in its
      stage: the planned pods have all finished. */
  lemma NoneLeftIsAwaited(cfg: Config, steps: seq<Step>, j: nat)
    requires Calm(cfg) && Apart(Run(cfg, steps).jobs) && j < |Run(cfg, steps).jobs|
    requires Run(cfg, steps).jobs[j].history != [] && Run(cfg, steps).jobs[j].Last().phase == Running
    requires Run(cfg, steps).jobs[j].Plan() != [] && LeftOf(Run(cfg, steps).jobs[j], Run(cfg, steps).pods) == {}
    ensures Awaited(Run(cfg, steps), Run(cfg, steps).jobs[j])
  {
    CalmRun(cfg, steps);
    var w := Run(cfg, steps);
    hide Run, PodNames.Plan, JobPodsOk, Owned;
    var job := w.jobs[j];
    ListTells(w, j);
    var list := Labelled(w.pods, job.ns, job.name);
    forall key | key in list
      ensures list[key].Finished()
    {
      assert job.Wants(key) && key == Key(job.ns, key.name);
      assert key.name !in LeftOf(job, w.pods);
    }
    var name := job.Plan()[0];
    assert job.Wants(Key(job.ns, name)) && name !in LeftOf(job, w.pods);
    assert Key(job.ns, name) in list;
  }
}
