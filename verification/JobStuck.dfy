/** When a job gets on and when it is stuck: exactly what a clean reconcile, or any continuation, can do for it. */
module JobStuck {
  import opened Lifecycle
  import opened AgentStreams
  import opened PodNames
  import opened JobModel
  import opened JobLifecycle
  import opened JobPods
  import opened JobTheorems
  import opened JobProgress
  import JobVerdict

  function ListOf(w: World, job: Job): map<Key, Pod> {
    Labelled(w.pods, job.ns, job.name)
  }

  // -------------------------------------------------------- one clean reconcile

  /** The reconcile of job j can only end without having done anything. */
  ghost predicate Waiting(w: World, j: nat) {
    && !w.cfg.staleLists && j < |w.jobs| && w.jobs[j].history != []
    && match w.jobs[j].run
       case Idle => true
       case GetTenant(_) => w.jobs[j].spec.tenant !in w.tenants
       case ListRunning(_) => !HasFinishedPods(w, w.jobs[j])
       case _ => false
  }

  lemma WaitStep(w: World, step: Step, j: nat)
    requires Waiting(w, j) && step.Proceed? && step.j == j
    ensures var w' := Next(w, step);
            && Waiting(w', j) && w'.jobs[j].history == w.jobs[j].history && w'.jobs[j].gone == w.jobs[j].gone
  {
    hide Labelled, AllDone, AnyFailed, Total, Int32, PodNames.Plan, Save, Accepts, Expired, Count;
  }

  lemma {:induction false} WaitCalls(w: World, calls: seq<Step>, j: nat)
    requires Waiting(w, j) && Calls(j, calls)
    ensures var w' := Exec(w, calls);
            && Waiting(w', j) && w'.jobs[j].history == w.jobs[j].history && w'.jobs[j].gone == w.jobs[j].gone
    decreases |calls|
  {
    hide Next, Waiting;
    if calls != [] {
      var front, step := calls[..|calls| - 1], calls[|calls| - 1];
      assert step in calls && forall x | x in front :: x in calls;
      WaitCalls(w, front, j);
      WaitStep(Exec(w, front), step, j);
    }
  }

  lemma NotAwaited(w: World, j: nat)
    requires Startable(w, j) && !Awaited(w, w.jobs[j])
    requires w.jobs[j].Last().phase in {Unset, Pending, Running, Phase.Succeeded, Phase.Failed, Terminating}
    ensures var w' := Next(w, Begin(j, |w.jobs[j].history| - 1));
            && Waiting(w', j) && w'.jobs[j].history == w.jobs[j].history && w'.jobs[j].gone == w.jobs[j].gone
  {
    hide Labelled, AllDone, AnyFailed, Expired;
  }

  ghost predicate TakesDown(w: World, j: nat, more: seq<Step>)
    requires j < |w.jobs| && w.jobs[j].history != []
  {
    var w' := Exec(w, more);
    && OneReconcile(j, |w.jobs[j].history| - 1, more)
    && j < |w'.jobs| && w'.jobs[j].history != [] && Stage(w'.jobs[j]) < Stage(w.jobs[j])
  }

  /** Exactly when one reconcile whose calls succeed takes a job down a stage: a Pending job needs its tenant, a
      finished one that its TTL has passed, a Terminating one nothing, and a Running one a verdict: pods, all of them
      finished. */
  lemma CleanReconcileIff(cfg: Config, steps: seq<Step>, j: nat)
    requires !cfg.staleLists && j < |Run(cfg, steps).jobs|
    requires Run(cfg, steps).jobs[j].run == Idle && !Run(cfg, steps).jobs[j].gone
             && Run(cfg, steps).jobs[j].history != []
    ensures (exists more :: TakesDown(Run(cfg, steps), j, more))
            <==> Awaited(Run(cfg, steps), Run(cfg, steps).jobs[j])
  {
    RunMetricsOk(cfg, steps);
    JobVerdict.OwnersRun(cfg, steps);
    var w := Run(cfg, steps);
    assert JobOk(w.jobs[j], w.now);
    PhaseKnown(w.jobs[j], w.now);
    if Awaited(w, w.jobs[j]) {
      var more := CleanReconcileDescends(cfg, steps, j);
      assert TakesDown(w, j, more);
    } else {
      hide Run, JobOk, AllJobsOk, Awaited, TakesDown, JobVerdict.OwnersOk;
      forall more
        ensures !TakesDown(w, j, more)
      {
        NothingTakesDown(w, j, more);
      }
    }
  }

  lemma NothingTakesDown(w: World, j: nat, more: seq<Step>)
    requires Startable(w, j) && !Awaited(w, w.jobs[j])
    requires w.jobs[j].Last().phase in {Unset, Pending, Running, Phase.Succeeded, Phase.Failed, Terminating}
    ensures !TakesDown(w, j, more)
  {
    hide Awaited, Next, Exec, Waiting;
    if OneReconcile(j, |w.jobs[j].history| - 1, more) {
      NotAwaited(w, j);
      assert more == [more[0]] + more[1..];
      ExecCons(w, more[0], more[1..]);
      WaitCalls(Next(w, more[0]), more[1..], j);
    }
  }

  // ------------------------------------------------------------- stuck for ever

  /** A Running job without pods, whose reconcile, if one is under way, is of the newest version. */
  ghost predicate Stuck(w: World, j: nat) {
    && j < |w.jobs| && w.jobs[j].history != [] && w.jobs[j].Last().phase == Running && ListOf(w, w.jobs[j]) == map[]
    && (w.jobs[j].run == Idle || w.jobs[j].run.CountStart? || w.jobs[j].run == ListRunning(|w.jobs[j].history| - 1))
  }

  /** The reconcile of another job makes no pod with this job's label. */
  lemma OthersMakeNone(w: World, i: nat, j: nat, ok: bool, listed: map<Key, Pod>, key: Key)
    requires NamesUnique(w.jobs) && i < |w.jobs| && j < |w.jobs| && i != j && ListOf(w, w.jobs[j]) == map[]
    ensures Labelled(Call(w, w.jobs[i], ok, listed, key).1, w.jobs[j].ns, w.jobs[j].name) == map[]
  {
    var pods' := Call(w, w.jobs[i], ok, listed, key).1;
    JobVerdict.CallAddsOwn(w, w.jobs[i], ok, listed, key);
    hide Call, PodNames.Plan;
    forall k | k in pods'
      ensures k.ns != w.jobs[j].ns || pods'[k].job != w.jobs[j].name
    {
      if k in w.pods {
        assert k !in ListOf(w, w.jobs[j]);
      }
    }
  }

  lemma OwnMakesNone(w: World, j: nat, ok: bool, listed: map<Key, Pod>, key: Key)
    requires !w.cfg.staleLists && Stuck(w, j)
    ensures var r := Call(w, w.jobs[j], ok, listed, key);
            && r.1 == w.pods && r.0.history == w.jobs[j].history && r.0.run == Idle
            && r.0.ns == w.jobs[j].ns && r.0.name == w.jobs[j].name
  {
    hide Labelled, AllDone, AnyFailed, Total, Int32, PodNames.Plan, Save, Accepts;
  }

  lemma FewerPods(pods: map<Key, Pod>, pods': map<Key, Pod>, ns: string, job: string)
    requires Labelled(pods, ns, job) == map[]
    requires forall k | k in pods' :: k in pods && pods'[k].job == pods[k].job
    ensures Labelled(pods', ns, job) == map[]
  {
    assert forall k | k in Labelled(pods', ns, job) :: k in Labelled(pods, ns, job);
  }

  lemma StuckStep(w: World, step: Step, j: nat)
    requires !w.cfg.staleReads && !w.cfg.staleLists && NamesUnique(w.jobs) && Stuck(w, j)
    ensures Stuck(Next(w, step), j) && Next(w, step).jobs[j].history == w.jobs[j].history
  {
    var w' := Next(w, step);
    var job := w.jobs[j];
    if step.Proceed? && step.j < |w.jobs| {
      if step.j == j {
        OwnMakesNone(w, j, step.ok, step.listed, step.key);
      } else {
        OthersMakeNone(w, step.j, j, step.ok, step.listed, step.key);
      }
      hide Call, Count, Labelled;
    } else {
      assert forall k | k in w'.pods :: k in w.pods && w'.pods[k].job == w.pods[k].job;
      FewerPods(w.pods, w'.pods, job.ns, job.name);
      hide Call, Count, Labelled;
    }
  }

  /** A Running job all of whose pods have been removed from outside is stuck for ever: with fresh reads and current
      lists it is looked at again every second, and nothing makes its pods again or gives it another phase. */
  lemma {:induction false} StuckForever(cfg: Config, steps: seq<Step>, more: seq<Step>, j: nat)
    requires !cfg.staleReads && !cfg.staleLists && Stuck(Run(cfg, steps), j)
    ensures Stuck(Exec(Run(cfg, steps), more), j)
    ensures Exec(Run(cfg, steps), more).jobs[j].history == Run(cfg, steps).jobs[j].history
    decreases |more|
  {
    if more != [] {
      var front := more[..|more| - 1];
      StuckForever(cfg, steps, front, j);
      RunOn(cfg, steps, front);
      JobVerdict.OwnersRun(cfg, steps + front);
      hide Next, Stuck, JobVerdict.OwnersOk;
      assert NamesUnique(Run(cfg, steps + front).jobs) by { UniqueRun(cfg, steps + front); }
      StuckStep(Exec(Run(cfg, steps), front), more[|more| - 1], j);
    }
  }

  lemma UniqueRun(cfg: Config, steps: seq<Step>)
    ensures NamesUnique(Run(cfg, steps).jobs)
  {
    JobVerdict.OwnersRun(cfg, steps);
  }

  lemma {:induction false} RunOn(cfg: Config, steps: seq<Step>, more: seq<Step>)
    ensures Exec(Run(cfg, steps), more) == Run(cfg, steps + more)
    decreases |more|
  {
    hide Next;
    if more == [] {
      assert steps + more == steps;
    } else {
      var front := more[..|more| - 1];
      assert (steps + more)[..|steps + more| - 1] == steps + front;
      RunOn(cfg, steps, front);
    }
  }

  /** And this is reached: in a run in which both pods of a Running job are removed. */
  lemma StuckReached() returns (cfg: Config, steps: seq<Step>)
    ensures cfg == Config(false, false, true, false) && Stuck(Run(cfg, steps), 0)
  {
    cfg := Config(false, false, true, false);
    JobVerdict.JobOfTwo();
    var w;
    steps, w := JobVerdict.BothRunning(cfg);
    hide Run, Exec, PodName, PodNames.Plan;
    var a, b := JobVerdict.KA, JobVerdict.KB;
    steps, w := JobVerdict.Go(cfg, steps, w, PodVanishes(a));
    assert w.pods.Keys == {b};
    steps, w := JobVerdict.Go(cfg, steps, w, PodVanishes(b));
    assert w.pods.Keys == {};
  }

  // ------------------------------------------------------- as long as a pod is left

  /** The pods of a job can all finish. */
  lemma {:induction false} PodsFinish(w: World, j: nat) returns (more: seq<Step>)
    requires j < |w.jobs| && ListOf(w, w.jobs[j]) != map[]
    ensures var w' := Exec(w, more);
            w'.jobs == w.jobs && w'.cfg == w.cfg && HasFinishedPods(w', w.jobs[j])
    decreases |set key | key in ListOf(w, w.jobs[j]) && !ListOf(w, w.jobs[j])[key].Finished()|
  {
    var job := w.jobs[j];
    var list := ListOf(w, job);
    var left := set key | key in list && !list[key].Finished();
    if left == {} {
      assert forall key | key in list :: key !in left;
      more := [];
    } else {
      var key :| key in left;
      var step := PodMoves(key, PodSucceeded);
      var w' := Next(w, step);
      var list' := ListOf(w', job);
      assert forall k :: k in list' <==> k in list;
      var left' := set k | k in list' && !list'[k].Finished();
      assert left' == left - {key};
      hide Next, Labelled;
      more := PodsFinish(w', j);
      ExecCons(w, step, more);
      more := [step] + more;
    }
  }

  lemma {:induction false} ExecOn(w: World, p: seq<Step>, q: seq<Step>)
    ensures Exec(w, p + q) == Exec(Exec(w, p), q)
    decreases |q|
  {
    hide Next;
    if q == [] {
      assert p + q == p;
    } else {
      assert (p + q)[..|p + q| - 1] == p + q[..|q| - 1];
      ExecOn(w, p, q[..|q| - 1]);
    }
  }

  ghost predicate GetsOn(w: World, j: nat, more: seq<Step>)
    requires j < |w.jobs|
  {
    var w' := Exec(w, more);
    j < |w'.jobs| && w'.jobs[j].history != w.jobs[j].history
  }

  /** So with fresh reads and current lists a Running job between reconciles ever gets on, in some continuation, if and
      only if one of its pods is left. */
  lemma GetsOnIff(cfg: Config, steps: seq<Step>, j: nat)
    requires !cfg.staleReads && !cfg.staleLists && j < |Run(cfg, steps).jobs|
    requires Run(cfg, steps).jobs[j].run == Idle && !Run(cfg, steps).jobs[j].gone
    requires Run(cfg, steps).jobs[j].history != [] && Run(cfg, steps).jobs[j].Last().phase == Running
    ensures (exists more :: GetsOn(Run(cfg, steps), j, more))
            <==> ListOf(Run(cfg, steps), Run(cfg, steps).jobs[j]) != map[]
  {
    JobVerdict.OwnersRun(cfg, steps);
    var w := Run(cfg, steps);
    if ListOf(w, w.jobs[j]) == map[] {
      forall more
        ensures !GetsOn(w, j, more)
      {
        StuckForever(cfg, steps, more, j);
      }
    } else {
      hide Run, Labelled, JobVerdict.OwnersOk;
      var more := CanGetOn(w, j);
    }
  }

  lemma CanGetOn(w: World, j: nat) returns (more: seq<Step>)
    requires Startable(w, j) && w.jobs[j].Last().phase == Running && ListOf(w, w.jobs[j]) != map[]
    ensures GetsOn(w, j, more)
  {
    hide Next, Exec, ListOf, HasFinishedPods;
    var p := PodsFinish(w, j);
    var q := CleanRunning(Exec(w, p), j);
    ExecOn(w, p, q);
    more := p + q;
  }
}
