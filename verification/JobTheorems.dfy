/** What holds in every run of the AgentJobReconciler. */
module JobTheorems {
  import opened Lifecycle
  import opened AgentStreams
  import opened PodNames
  import opened JobModel
  import opened JobLifecycle
  import opened JobPods

  // ------------------------------- whatever is stale, fails or is interfered with

  /** However stale the reads and whatever fails, the committed phases of a job are a path of the phase table from
      Pending (the empty phase read as Pending), and each metrics call is made at most once: JobStarted only for a job
      that has been Running, JobFinished only for one that has finished. */
  lemma PhasesFollowTable(cfg: Config, steps: seq<Step>, j: nat)
    requires j < |Run(cfg, steps).jobs|
    ensures var job := Run(cfg, steps).jobs[j];
            && job.history != [] && IsPath(Phases(job.history)) && Phases(job.history)[0] == Pending
            && |job.history| <= 4
            && job.starts <= 1 && job.finishes <= 1
            && (job.starts == 1 ==> exists st :: st in job.history && st.phase == Running)
            && (job.finishes == 1 ==> exists st :: st in job.history && st.phase.IsTerminal())
            && (job.run == Idle ==> job.starts == (if Rank(job.Last().phase) >= 1 then 1 else 0))
            && (job.run == Idle ==> job.finishes == (if Rank(job.Last().phase) >= 2 then 1 else 0))
  {
    RunMetricsOk(cfg, steps);
    var job := Run(cfg, steps).jobs[j];
    assert JobOk(job, Run(cfg, steps).now);
    hide JobOk, Run;
    JobShape(job, Run(cfg, steps).now);
  }

  lemma JobShape(job: Job, now: int)
    requires JobOk(job, now)
    ensures |job.history| <= 4
    ensures Rank(job.Last().phase) >= 1 ==> |job.history| > 1 && job.history[1].phase == Running
    ensures Rank(job.Last().phase) >= 2 ==> |job.history| > 2 && job.history[2].phase.IsTerminal()
    ensures job.starts <= 1 && job.finishes <= 1
    ensures job.starts == 1 ==> exists st :: st in job.history && st.phase == Running
    ensures job.finishes == 1 ==> exists st :: st in job.history && st.phase.IsTerminal()
    ensures job.run == Idle ==> job.starts == (if Rank(job.Last().phase) >= 1 then 1 else 0)
    ensures job.run == Idle ==> job.finishes == (if Rank(job.Last().phase) >= 2 then 1 else 0)
    ensures IsPath(Phases(job.history)) && Phases(job.history)[0] == Pending
  {
    hide StatusOk, RunOk, IsPath;
    var h, p := job.history, Phases(job.history);
    PathShape(p);
    assert forall k | 0 <= k < |h| :: p[k] == Normal(h[k].phase) && h[k] in h;
  }

  /** Versions are never rewritten: in any continuation a job keeps its identity and spec, and its history only grows.
      */
  lemma {:induction false} HistoryGrows(w: World, steps: seq<Step>, j: nat)
    requires j < |w.jobs|
    ensures j < |Exec(w, steps).jobs|
    ensures var job, job' := w.jobs[j], Exec(w, steps).jobs[j];
            job'.name == job.name && job'.ns == job.ns && job'.spec == job.spec && job.history <= job'.history
    decreases |steps|
  {
    if steps != [] {
      var front := steps[..|steps| - 1];
      HistoryGrows(w, front, j);
      JobsStay(Exec(w, front), steps[|steps| - 1]);
    }
  }

  // The gauges.

  /** What the jobs that still exist, or those that are gone, are due in a series. */
  function DueOf(jobs: seq<Job>, g: Gauge, gone: bool): int
    requires forall job | job in jobs :: job.history != []
  {
    if jobs == [] then 0 else (if jobs[0].gone == gone then Due(jobs[0], g) else 0) + DueOf(jobs[1..], g, gone)
  }

  /** No reconcile of the tenant stands between its status update and its metrics call. */
  predicate Settled(jobs: seq<Job>, tenant: string) {
    forall job | job in jobs && job.spec.tenant == tenant :: !job.run.CountStart? && !job.run.CountFinish?
  }

  lemma {:induction false} SumSplits(jobs: seq<Job>, g: Gauge)
    requires HaveHistory(jobs) && Settled(jobs, g.tenant)
    ensures Sum(jobs, g) == DueOf(jobs, g, false) + DueOf(jobs, g, true)
  {
    hide Due;
    if jobs != [] {
      assert forall job | job in jobs[1..] :: job in jobs;
      SumSplits(jobs[1..], g);
    }
  }

  /** The gauges balance over any number of jobs and any failures: once the tenant's metrics calls are made,
      AgentsRunning is the sum of ActiveAgents over its Running jobs, JobQueueDepth their number, JobsTotal the number
      of its jobs that have entered that terminal phase -- counting jobs whose object is gone by their last phase. */
  lemma GaugesBalance(cfg: Config, steps: seq<Step>, g: Gauge)
    requires Settled(Run(cfg, steps).jobs, g.tenant)
    ensures var w := Run(cfg, steps);
            && HaveHistory(w.jobs)
            && Value(w.metrics, g) == DueOf(w.jobs, g, false) + DueOf(w.jobs, g, true)
  {
    RunMetricsOk(cfg, steps);
    SumSplits(Run(cfg, steps).jobs, g);
  }

  /** No job object of the tenant was lost while Running. */
  ghost predicate NoneLost(jobs: seq<Job>, tenant: string)
    requires HaveHistory(jobs)
  {
    forall job | job in jobs && job.gone && job.spec.tenant == tenant :: job.Last().phase != Running
  }

  /** So JobQueueDepth is exact for the jobs that exist if and only if none was lost while Running ... */
  lemma {:induction false} DepthExactIff(jobs: seq<Job>, tenant: string)
    requires HaveHistory(jobs)
    ensures DueOf(jobs, Depth(tenant), true) >= 0
    ensures DueOf(jobs, Depth(tenant), true) == 0 <==> NoneLost(jobs, tenant)
  {
    if jobs != [] {
      assert forall job | job in jobs[1..] :: job in jobs;
      DepthExactIff(jobs[1..], tenant);
      assert forall job | job in jobs :: job == jobs[0] || job in jobs[1..];
    }
  }

  /** ... and AgentsRunning if and only if those that were had no active agents, provided that none had a negative
      number of them, as a wrapped sum of replicas is. */
  lemma {:induction false} AgentsExactIff(jobs: seq<Job>, tenant: string)
    requires HaveHistory(jobs)
    requires forall job | job in jobs && job.gone && job.spec.tenant == tenant && job.Last().phase == Running ::
               job.Last().active >= 0
    ensures DueOf(jobs, Agents(tenant), true) >= 0
    ensures DueOf(jobs, Agents(tenant), true) == 0 <==>
              forall job | job in jobs && job.gone && job.spec.tenant == tenant && job.Last().phase == Running ::
                job.Last().active == 0
  {
    if jobs != [] {
      assert jobs[0] in jobs && forall job | job in jobs[1..] :: job in jobs;
      AgentsExactIff(jobs[1..], tenant);
      assert forall job | job in jobs :: job == jobs[0] || job in jobs[1..];
    }
  }

  lemma {:induction false} NoLeak(jobs: seq<Job>, g: Gauge)
    requires HaveHistory(jobs) && !g.Totals? && NoneLost(jobs, g.tenant)
    ensures DueOf(jobs, g, true) == 0
  {
    if jobs != [] {
      assert forall job | job in jobs[1..] :: job in jobs;
      NoLeak(jobs[1..], g);
      assert jobs[0] in jobs;
    }
  }

  lemma CallsOfALostJob(w: World, job: Job, ok: bool, listed: map<Key, Pod>, key: Key)
    requires job.gone
    ensures var job' := Call(w, job, ok, listed, key).0;
            job'.gone && job'.history == job.history
  {
    hide Labelled, AllDone, AnyFailed, PodNames.Plan, Total, Int32;
  }

  lemma {:induction false} LostJobStays(cfg: Config, steps: seq<Step>, longer: seq<Step>, j: nat)
    requires j < |Run(cfg, steps).jobs| && steps <= longer && Run(cfg, steps).jobs[j].gone
    ensures var job, w := Run(cfg, steps).jobs[j], Run(cfg, longer);
            j < |w.jobs| && w.jobs[j].gone && w.jobs[j].history == job.history && w.jobs[j].spec == job.spec
    decreases |longer|
  {
    if longer != steps {
      var front, step := longer[..|longer| - 1], longer[|longer| - 1];
      LostJobStays(cfg, steps, front, j);
      LostJobStep(Run(cfg, front), step, j);
    }
  }

  lemma LostJobStep(w: World, step: Step, j: nat)
    requires j < |w.jobs| && w.jobs[j].gone
    ensures var w' := Next(w, step);
            j < |w'.jobs| && w'.jobs[j].gone && w'.jobs[j].history == w.jobs[j].history
                && w'.jobs[j].spec == w.jobs[j].spec
  {
    JobsStay(w, step);
    if step.Proceed? && step.j == j {
      CallsOfALostJob(w, w.jobs[j], step.ok, step.listed, step.key);
    }
    hide Call, Count, FirstMove;
  }

  /** A user who deletes a Running job leaks its share: as nothing can be committed for it any more, JobFinished is
      never called, and in every later settled state JobQueueDepth is too high. */
  lemma LostJobLeaksForever(cfg: Config, steps: seq<Step>, longer: seq<Step>, j: nat)
    requires j < |Run(cfg, steps).jobs| && Run(cfg, steps).jobs[j].history != [] && steps <= longer
    requires Run(cfg, steps).jobs[j].gone && Run(cfg, steps).jobs[j].Last().phase == Running
    ensures var job, w := Run(cfg, steps).jobs[j], Run(cfg, longer);
            && HaveHistory(w.jobs) && j < |w.jobs|
            && w.jobs[j].gone && w.jobs[j].history == job.history && w.jobs[j].spec == job.spec
            && (Settled(w.jobs, job.spec.tenant) ==>
                  Value(w.metrics, Depth(job.spec.tenant)) > DueOf(w.jobs, Depth(job.spec.tenant), false))
  {
    LostJobStays(cfg, steps, longer, j);
    RunMetricsOk(cfg, longer);
    var w, tenant := Run(cfg, longer), Run(cfg, steps).jobs[j].spec.tenant;
    if Settled(w.jobs, tenant) {
      GaugesBalance(cfg, longer, Depth(tenant));
      DepthExactIff(w.jobs, tenant);
      assert w.jobs[j] in w.jobs;
    }
  }

  ghost predicate GoneOnlyFinished(w: World) {
    forall j :: 0 <= j < |w.jobs| && w.jobs[j].gone ==> w.jobs[j].history != [] && w.jobs[j].Last().phase == Terminating
  }

  lemma GoneStep(w: World, step: Step)
    requires AllJobsOk(w) && GoneOnlyFinished(w) && !w.cfg.userDeletes
    ensures GoneOnlyFinished(Next(w, step))
  {
    var w' := Next(w, step);
    if step.Proceed? && step.j < |w.jobs| {
      var job, job' := w.jobs[step.j], w'.jobs[step.j];
      assert JobOk(job, w.now);
      CallSaves(w, job, step.ok, step.listed, step.key);
      GoneBy(w, job, step.ok, step.listed, step.key);
      if job'.gone && !job.gone {
        OnceRunning(job, job.run.v, w.now);
      }
    }
    hide Call, JobOk, Count, FirstMove;
  }

  lemma GoneBy(w: World, job: Job, ok: bool, listed: map<Key, Pod>, key: Key)
    ensures var job' := Call(w, job, ok, listed, key).0;
            job'.gone && !job.gone ==> ok && job.run.Deleting? && job.run.rest == {} && job'.history == job.history
  {
    hide Labelled, AllDone, AnyFailed, PodNames.Plan, Total, Int32;
  }

  /** Both gauges are exact in every settled state of every run in which no job of the tenant was lost while Running
      ... */
  lemma GaugesExact(cfg: Config, steps: seq<Step>, g: Gauge)
    requires !g.Totals? && Settled(Run(cfg, steps).jobs, g.tenant)
    requires HaveHistory(Run(cfg, steps).jobs) && NoneLost(Run(cfg, steps).jobs, g.tenant)
    ensures var w := Run(cfg, steps);
            Value(w.metrics, g) == DueOf(w.jobs, g, false)
  {
    GaugesBalance(cfg, steps, g);
    NoLeak(Run(cfg, steps).jobs, g);
  }

  /** ... and none ever is when users delete no jobs. */
  lemma NoneLostIfKept(cfg: Config, steps: seq<Step>, tenant: string)
    requires !cfg.userDeletes
    ensures HaveHistory(Run(cfg, steps).jobs) && NoneLost(Run(cfg, steps).jobs, tenant)
  {
    RunMetricsOk(cfg, steps);
    GoneRun(cfg, steps);
    var w := Run(cfg, steps);
    forall job | job in w.jobs && job.gone && job.spec.tenant == tenant
      ensures job.Last().phase != Running
    {
      var k :| 0 <= k < |w.jobs| && w.jobs[k] == job;
    }
  }

  lemma {:induction false} GoneRun(cfg: Config, steps: seq<Step>)
    requires !cfg.userDeletes
    ensures GoneOnlyFinished(Run(cfg, steps)) && Run(cfg, steps).cfg == cfg
    decreases |steps|
  {
    if steps != [] {
      var front := steps[..|steps| - 1];
      GoneRun(cfg, front);
      RunMetricsOk(cfg, front);
      GoneStep(Run(cfg, front), steps[|steps| - 1]);
      JobsStay(Run(cfg, front), steps[|steps| - 1]);
    }
  }

  // The time to live.

  /** No job is Terminating before its stored CompletedAt plus TTL has passed, and one without a TTL never is. */
  lemma NeverExpiresEarly(cfg: Config, steps: seq<Step>, j: nat)
    requires j < |Run(cfg, steps).jobs| && Run(cfg, steps).jobs[j].history != []
    requires Run(cfg, steps).jobs[j].Last().phase == Terminating
    ensures var job := Run(cfg, steps).jobs[j];
            && job.spec.ttl > 0 && job.Last().completedAt.Some?
            && Run(cfg, steps).now >= job.Last().completedAt.value + job.spec.ttl * SECOND
  {
    RunMetricsOk(cfg, steps);
    var job := Run(cfg, steps).jobs[j];
    assert JobOk(job, Run(cfg, steps).now);
    assert job.Last() in job.history;
  }

  /** The delay with which line 140 asks to be called again. */
  function RequeueAfter(job: Job, now: int): int
    requires job.history != [] && job.Last().completedAt.Some?
  {
    job.spec.ttl * SECOND - (now - job.Last().completedAt.value)
  }

  /** A reconcile of a finished job that comes too early asks for a positive delay; one after a shorter wait comes too
      early again, and one after exactly that delay sets the job Terminating. */
  lemma RequeuedExactlyOnTime(w: World, j: nat, wait: nat)
    requires AllJobsOk(w) && j < |w.jobs| && w.jobs[j].run == Idle && !w.jobs[j].gone
    requires w.jobs[j].Last().phase.IsTerminal() && w.jobs[j].spec.ttl > 0
             && !Expired(w.jobs[j].spec, w.jobs[j].Last(), w.now)
    ensures var job, v := w.jobs[j], |w.jobs[j].history| - 1;
            && job.Last().completedAt.Some?
            && var delay := RequeueAfter(job, w.now);
            && delay > 0
            && Next(w, Begin(j, v)) == w
            && var later := Next(w, Tick(wait));
            && (wait < delay ==> Next(later, Begin(j, v)) == later)
            && (wait >= delay ==>
                  Next(Next(later, Begin(j, v)),
                      Proceed(j, true, map[], Key("", ""))).jobs[j].Last().phase == Terminating)
  {
    var job := w.jobs[j];
    assert JobOk(job, w.now) && job.Last() in job.history;
    hide JobOk, IsPath, Phases, Total, Int32, PodNames.Plan, Labelled;
    assert w.jobs[j := job] == w.jobs;
  }

  // ---------------------- current lists, no pods removed from outside, names apart

  /** The verdict is true, and stays true until the TTL removes the pods: Succeeded means that every planned pod of
      every role and replica exists and has Succeeded, Failed that all have finished and one has failed. A job that
      plans no pods never gets a verdict. */
  lemma VerdictIsThePods(cfg: Config, steps: seq<Step>, j: nat)
    requires !cfg.staleLists && !cfg.vanish && Apart(Run(cfg, steps).jobs) && j < |Run(cfg, steps).jobs|
    ensures var w := Run(cfg, steps);
            var job := w.jobs[j];
            && job.history != []
            && (job.Last().phase == Phase.Succeeded ==>
                  job.Plan() != [] && forall name | name in job.Plan() ::
                    Key(job.ns, name) in w.pods && w.pods[Key(job.ns, name)] == Pod(job.name, PodSucceeded))
            && (job.Last().phase == Phase.Failed ==>
                  && (forall name | name in job.Plan() ::
                        Key(job.ns, name) in w.pods && w.pods[Key(job.ns, name)].Finished())
                  && (exists name | name in job.Plan() ::
                        Key(job.ns, name) in w.pods && w.pods[Key(job.ns, name)].phase == PodFailed))
            && (job.Plan() == [] ==> Rank(job.Last().phase) <= 1)
  {
    RunPodsOk(cfg, steps);
    var w := Run(cfg, steps);
    var job := w.jobs[j];
    assert JobPodsOk(job, w.pods) && job in w.jobs && JobOk(job, w.now);
    hide Run, Exec, PodNames.Plan;
    forall name | name in job.Plan() && Key(job.ns, name) in w.pods
      ensures w.pods[Key(job.ns, name)].job == job.name
    {
      assert job.Wants(Key(job.ns, name));
      LabelIsOwner(w, j, Key(job.ns, name));
    }
    assert forall name | name in job.Plan() :: Wanted(job.ns, job.Plan(), Key(job.ns, name));
    if job.Last().phase == Phase.Failed {
      var key :| Wanted(job.ns, job.Plan(), key) && key in w.pods && w.pods[key].phase == PodFailed;
      assert key.name in job.Plan() && key == Key(job.ns, key.name);
    }
  }

  /** Both conditions are needed, since the code judges only the pods it lists. Whatever the world: where pods may be
      removed from outside, a failed pod that is removed before the next reconcile turns Failed into Succeeded ... */
  lemma RemovedPodHidesFailure(w: World, j: nat, failed: Key, other: Key)
    requires w.cfg.vanish && !w.cfg.staleLists && j < |w.jobs| && w.jobs[j].run == Idle && !w.jobs[j].gone
    requires w.jobs[j].history != [] && w.jobs[j].Last().phase == Running
    requires var list := Labelled(w.pods, w.jobs[j].ns, w.jobs[j].name);
             && failed in list && list[failed].phase == PodFailed && other in list && other != failed
             && forall key | key in list && key != failed :: list[key].phase == PodSucceeded
    ensures Judged(w, j, map[]) == Phase.Failed
    ensures Judged(Next(w, PodVanishes(failed)), j, map[]) == Phase.Succeeded
  {
    var list := Labelled(w.pods, w.jobs[j].ns, w.jobs[j].name);
    var w' := Next(w, PodVanishes(failed));
    var less := Labelled(w'.pods, w'.jobs[j].ns, w'.jobs[j].name);
    assert forall key :: key in less <==> key in list && key != failed;
    assert AllDone(list) && AnyFailed(list);
    assert AllDone(less) && !AnyFailed(less) && other in less;
    assert w'.jobs == w.jobs && w'.cfg == w.cfg;
    hide Next, Labelled, AllDone, AnyFailed, Judged;
    JudgedByList(w, j, map[]);
    JudgedByList(w', j, map[]);
  }

  /** ... and an outdated list that shows only finished, successful pods makes any Running job Succeeded. */
  lemma OutdatedListHidesFailure(w: World, j: nat, listed: map<Key, Pod>)
    requires w.cfg.staleLists && j < |w.jobs| && w.jobs[j].run == Idle && !w.jobs[j].gone
    requires w.jobs[j].history != [] && w.jobs[j].Last().phase == Running
    requires listed != map[] && forall key | key in listed :: listed[key].phase == PodSucceeded
    ensures Judged(w, j, listed) == Phase.Succeeded
  {
    assert AllDone(listed) && !AnyFailed(listed);
    JudgedByList(w, j, listed);
  }

  /** The phase of job j after one reconcile from its newest version: read, list, update. */
  function Judged(w: World, j: nat, listed: map<Key, Pod>): Phase {
    var read := if j < |w.jobs| then Begin(j, if w.jobs[j].history == [] then 0 else |w.jobs[j].history| - 1)
        else Tick(0);
    var call := Proceed(j, true, listed, Key("", ""));
    var w' := Next(Next(Next(w, read), call), call);
    if j < |w'.jobs| && w'.jobs[j].history != [] then w'.jobs[j].Last().phase else Unset
  }

  lemma JudgedByList(w: World, j: nat, listed: map<Key, Pod>)
    requires j < |w.jobs| && w.jobs[j].run == Idle && !w.jobs[j].gone
    requires w.jobs[j].history != [] && w.jobs[j].Last().phase == Running
    requires var list := ListAnswer(w, w.jobs[j], listed); list != map[] && AllDone(list)
    ensures Judged(w, j, listed) == if AnyFailed(ListAnswer(w, w.jobs[j], listed)) then Phase.Failed
            else Phase.Succeeded
  {
    hide Labelled, AllDone, AnyFailed, Total, Int32, PodNames.Plan, Expired, Count;
    var v, call := |w.jobs[j].history| - 1, Proceed(j, true, listed, Key("", ""));
    var w1 := Next(w, Begin(j, v));
    assert w1.jobs[j] == w.jobs[j].(run := ListRunning(v)) && w1.pods == w.pods;
    var w2, list := Next(w1, call), ListAnswer(w, w.jobs[j], listed);
    assert w2.jobs[j] == w.jobs[j].(run := Completing(v, if AnyFailed(list) then Phase.Failed else Phase.Succeeded));
    CommitsVerdict(w2, j, listed);
    hide Next;
  }

  lemma CommitsVerdict(w: World, j: nat, listed: map<Key, Pod>)
    requires j < |w.jobs| && w.jobs[j].history != [] && !w.jobs[j].gone
    requires w.jobs[j].run.Completing? && w.jobs[j].run.v == |w.jobs[j].history| - 1
    ensures var w' := Next(w, Proceed(j, true, listed, Key("", "")));
            && j < |w'.jobs| && w'.jobs[j].history != [] && w'.jobs[j].Last().phase == w.jobs[j].run.verdict
  {
    hide Labelled, AllDone, AnyFailed, Total, Int32, PodNames.Plan, Count;
  }

  /** Retries converge: however many reconciles were cut short by failed creates or updates, once the job is Running or
      has a verdict its labelled pods are exactly the planned ones, and ActiveAgents was set to what one clean run
      sets. */
  lemma RetriesConverge(cfg: Config, steps: seq<Step>, j: nat)
    requires !cfg.staleLists && !cfg.vanish && Apart(Run(cfg, steps).jobs) && j < |Run(cfg, steps).jobs|
    requires Run(cfg, steps).jobs[j].history != [] && 1 <= Rank(Run(cfg, steps).jobs[j].Last().phase) <= 2
    ensures var w := Run(cfg, steps);
            var job := w.jobs[j];
            && Labelled(w.pods, job.ns, job.name).Keys == (set name | name in job.Plan() :: Key(job.ns, name))
            && (job.Last().phase == Running ==> job.Last().active == Int32(Total(job.spec.roles)))
  {
    RunPodsOk(cfg, steps);
    var w := Run(cfg, steps);
    var job := w.jobs[j];
    assert JobPodsOk(job, w.pods) && JobOk(job, w.now) && job.Last() in job.history;
    hide Run, Exec, PodNames.Plan, IsPath, Total, Int32;
    ListTells(w, j);
    var list, plan := Labelled(w.pods, job.ns, job.name).Keys, set name | name in job.Plan() :: Key(job.ns, name);
    forall key
      ensures key in list <==> key in plan
    {
      assert key in plan <==> Wanted(job.ns, job.Plan(), key) by {
        if Wanted(job.ns, job.Plan(), key) {
          assert key == Key(job.ns, key.name);
        }
      }
      assert Wanted(job.ns, job.Plan(), key) ==> key in w.pods;
    }
  }

  lemma {:induction false} SetOfNames(ns: string, s: seq<string>)
    ensures |set name | name in s :: Key(ns, name)| <= |s|
    ensures |set name | name in s :: Key(ns, name)| == |s| <==> NoRepeats(s)
  {
    var all := set name | name in s :: Key(ns, name);
    if s == [] {
      assert all == {};
    } else {
      var front, last := s[..|s| - 1], s[|s| - 1];
      SetOfNames(ns, front);
      var rest := set name | name in front :: Key(ns, name);
      assert forall name :: name in s <==> name in front || name == last;
      assert all == rest + {Key(ns, last)};
      assert Key(ns, last) in rest <==> last in front;
      RepeatsSplit(front, [last]);
      assert s == front + [last];
    }
  }

  /** When the replica counts are not negative and their sum fits an int32, a Running job has exactly ActiveAgents pods
      if and only if no two of its roles clash; otherwise it has fewer. */
  lemma ActiveAgentsArePods(cfg: Config, steps: seq<Step>, j: nat)
    requires !cfg.staleLists && !cfg.vanish && Apart(Run(cfg, steps).jobs) && j < |Run(cfg, steps).jobs|
    requires Run(cfg, steps).jobs[j].history != [] && Run(cfg, steps).jobs[j].Last().phase == Running
    requires var roles := Run(cfg, steps).jobs[j].spec.roles;
             (forall r | r in roles :: r.maxReplicas >= 0) && Total(roles) < 0x8000_0000
    ensures var w := Run(cfg, steps);
            var pods := Labelled(w.pods, w.jobs[j].ns, w.jobs[j].name);
            |pods| <= w.jobs[j].Last().active && (|pods| == w.jobs[j].Last().active <==> NoClash(w.jobs[j].spec.roles))
  {
    RetriesConverge(cfg, steps, j);
    var w := Run(cfg, steps);
    hide Run, Exec, Labelled, Apart, NoClash;
    PlanSize(w.jobs[j]);
    var list := Labelled(w.pods, w.jobs[j].ns, w.jobs[j].name);
    assert |list| == |list.Keys|;
  }

  lemma PlanSize(job: Job)
    requires (forall r | r in job.spec.roles :: r.maxReplicas >= 0) && Total(job.spec.roles) < 0x8000_0000
    ensures var n := |set name | name in job.Plan() :: Key(job.ns, name)|;
            && n <= |job.Plan()| == Int32(Total(job.spec.roles))
            && (n == |job.Plan()| <==> NoClash(job.spec.roles))
  {
    hide PodNames.Plan, Total, NoClash;
    PlanDistinctIff(job.name, job.spec.roles);
    PlanLength(job.name, job.spec.roles);
    SetOfNames(job.ns, job.Plan());
  }
}
