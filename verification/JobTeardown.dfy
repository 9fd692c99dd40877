/** What is left when the reconciler deletes a job object: for any configuration. */
module JobTeardown {
  import opened Lifecycle
  import opened AgentStreams
  import opened PodNames
  import opened JobModel
  import opened JobLifecycle
  import opened JobPods
  import opened JobTheorems
  import opened JobVerdict

  function PodsOf(w: World, job: Job): map<Key, Pod> {
    Labelled(w.pods, job.ns, job.name)
  }

  /** Step k is the List of a reconcile that tears job j down, and this its answer. */
  ghost predicate DoomedAt(cfg: Config, steps: seq<Step>, k: nat, j: nat, list: map<Key, Pod>)
    requires k < |steps|
  {
    var w := Run(cfg, steps[..k]);
    && steps[k].Proceed? && steps[k].j == j && steps[k].ok && j < |w.jobs| && w.jobs[j].run.ListDoomed?
    && list == ListAnswer(w, w.jobs[j], steps[k].listed)
  }

  /** The pod has been there in every state from k steps on. */
  ghost predicate Present(cfg: Config, steps: seq<Step>, k: nat, key: Key) {
    forall m | k <= m <= |steps| :: key in Run(cfg, steps[..m]).pods
  }

  // ----------------------------------------------------------- labels, step by step

  lemma OwnDeleteAddsNone(w: World, job: Job, ok: bool, listed: map<Key, Pod>, key: Key)
    requires !job.run.Creating?
    ensures forall k | k in Call(w, job, ok, listed, key).1 :: k in w.pods
  {
    hide Labelled, ListAnswer, AllDone, AnyFailed, Total, Int32, PodNames.Plan, Accepts;
  }

  /** Unless it is creating pods, a job gets no new ones, and keeps those that are not removed. */
  lemma LabelsStay(w: World, step: Step, j: nat)
    requires NamesUnique(w.jobs) && j < |w.jobs| && !w.jobs[j].run.Creating?
    ensures var w', job := Next(w, step), w.jobs[j];
            && (forall k | k in Labelled(w'.pods, job.ns, job.name) :: k in PodsOf(w, job))
            && (forall k | k in PodsOf(w, job) && k in w'.pods :: k in Labelled(w'.pods, job.ns, job.name))
  {
    if step.Proceed? && step.j < |w.jobs| {
      var i := step.j;
      CallAddsOwn(w, w.jobs[i], step.ok, step.listed, step.key);
      if i == j {
        OwnDeleteAddsNone(w, w.jobs[j], step.ok, step.listed, step.key);
      }
    }
    hide Call, Count, FirstMove, PodNames.Plan;
  }

  // ------------------------------------------------------------------ the invariant

  /** While job j is being torn down: what is left of its pods was there at the list and all the time since, and is
      still to be deleted if the list showed it; and what the list missed is left if it was there all the time. */
  ghost predicate Dooming(cfg: Config, steps: seq<Step>, k: nat, j: nat, list: map<Key, Pod>)
    requires k < |steps|
  {
    var w0, w := Run(cfg, steps[..k]), Run(cfg, steps);
    && j < |w0.jobs| && j < |w.jobs| && w.jobs[j].run.Deleting?
    && w.jobs[j].ns == w0.jobs[j].ns && w.jobs[j].name == w0.jobs[j].name
    && (forall key | key in PodsOf(w, w.jobs[j]) ::
          && key in PodsOf(w0, w0.jobs[j]) && Present(cfg, steps, k, key)
          && (key in list ==> key in w.jobs[j].run.rest))
    && (forall key | key in PodsOf(w0, w0.jobs[j]) && key !in list && Present(cfg, steps, k, key) ::
          key in PodsOf(w, w.jobs[j]))
  }

  lemma PresentLess(cfg: Config, steps: seq<Step>, k: nat, key: Key)
    requires steps != [] && k <= |steps| - 1
    ensures var front := steps[..|steps| - 1];
            Present(cfg, steps, k, key) <==> Present(cfg, front, k, key) && key in Run(cfg, steps).pods
  {
    hide Run;
    var front := steps[..|steps| - 1];
    assert steps[..|steps|] == steps;
    assert forall m | 0 <= m <= |front| :: front[..m] == steps[..m];
  }

  /** A teardown starts with a List ... */
  lemma DoomingStarts(cfg: Config, steps: seq<Step>, j: nat)
    requires steps != [] && j < |Run(cfg, steps[..|steps| - 1]).jobs|
    requires var w := Run(cfg, steps[..|steps| - 1]);
             w.jobs[j].run.ListDoomed? && Next(w, steps[|steps| - 1]).jobs[j].run.Deleting?
    ensures var k := |steps| - 1;
            && steps[k].Proceed?
            && var list := ListAnswer(Run(cfg, steps[..k]), Run(cfg, steps[..k]).jobs[j], steps[k].listed);
            DoomedAt(cfg, steps, k, j, list) && Dooming(cfg, steps, k, j, list)
  {
    var k, front := |steps| - 1, steps[..|steps| - 1];
    var w := Run(cfg, front);
    ListStep(w, steps[k], j);
    hide Run, Next, Labelled, ListAnswer;
    assert steps[..|steps|] == steps && steps[..k] == front;
    RunLast(cfg, steps);
    forall key
      ensures Present(cfg, steps, k, key) <==> key in w.pods
    {
      assert Present(cfg, steps, k, key) ==> key in Run(cfg, steps[..k]).pods;
      if key in w.pods {
        forall m | k <= m <= |steps|
          ensures key in Run(cfg, steps[..m]).pods
        {
          assert steps[..m] == if m == k then front else steps;
        }
      }
    }
    InPods(w, w.jobs[j]);
  }

  lemma InPods(w: World, job: Job)
    ensures forall key | key in PodsOf(w, job) :: key in w.pods
  {
  }

  lemma RunLast(cfg: Config, steps: seq<Step>)
    requires steps != []
    ensures Run(cfg, steps) == Next(Run(cfg, steps[..|steps| - 1]), steps[|steps| - 1])
  {
  }

  lemma ListStep(w: World, step: Step, j: nat)
    requires j < |w.jobs| && w.jobs[j].run.ListDoomed? && Next(w, step).jobs[j].run.Deleting?
    ensures step.Proceed? && step.j == j && step.ok && Next(w, step).pods == w.pods
    ensures var job, job' := w.jobs[j], Next(w, step).jobs[j];
            && job'.ns == job.ns && job'.name == job.name && job'.run.rest == ListAnswer(w, job, step.listed).Keys
  {
    hide Labelled, ListAnswer, AllDone, AnyFailed, Total, Int32, PodNames.Plan, FirstMove, Count, Save, Accepts;
  }

  /** ... and each step of it deletes one pod, or is somebody else's. */
  lemma DeleteStep(w: World, step: Step, j: nat)
    requires j < |w.jobs| && Next(w, step).jobs[j].run.Deleting? && !w.jobs[j].run.ListDoomed?
    ensures w.jobs[j].run.Deleting?
    ensures var w', job, job' := Next(w, step), w.jobs[j], Next(w, step).jobs[j];
            && job'.ns == job.ns && job'.name == job.name
            && (job'.run.rest == job.run.rest
                || (exists key :: job'.run.rest == job.run.rest - {key} && key !in w'.pods))
  {
    if step.Proceed? && step.j == j {
      DeleteCall(w, w.jobs[j], step.ok, step.listed, step.key);
      hide Call, Count;
    } else {
      OthersKeepRun(w, step, j);
      hide Next;
    }
  }

  lemma DeleteCall(w: World, job: Job, ok: bool, listed: map<Key, Pod>, key: Key)
    requires Call(w, job, ok, listed, key).0.run.Deleting? && !job.run.ListDoomed?
    ensures job.run.Deleting?
    ensures var r := Call(w, job, ok, listed, key);
            && r.0.ns == job.ns && r.0.name == job.name
            && (r.0.run.rest == job.run.rest || (r.0.run.rest == job.run.rest - {key} && key !in r.1))
  {
    hide Labelled, ListAnswer, AllDone, AnyFailed, Total, Int32, PodNames.Plan, Accepts;
  }

  lemma OthersKeepRun(w: World, step: Step, j: nat)
    requires j < |w.jobs| && !(step.Proceed? && step.j == j) && Next(w, step).jobs[j].run.Deleting?
    ensures var job, job' := w.jobs[j], Next(w, step).jobs[j];
            job'.run == job.run && job'.ns == job.ns && job'.name == job.name
  {
    hide Call, Count, Expired;
  }

  lemma DoomingGoesOn(cfg: Config, steps: seq<Step>, k: nat, j: nat, list: map<Key, Pod>)
    requires steps != [] && k < |steps| - 1 && Dooming(cfg, steps[..|steps| - 1], k, j, list)
    requires j < |Run(cfg, steps).jobs| && Run(cfg, steps).jobs[j].run.Deleting?
    ensures Dooming(cfg, steps, k, j, list)
  {
    var front, step := steps[..|steps| - 1], steps[|steps| - 1];
    var w0, w, w' := Run(cfg, steps[..k]), Run(cfg, front), Run(cfg, steps);
    assert front[..k] == steps[..k];
    RunLast(cfg, steps);
    OwnersRun(cfg, front);
    DeleteStep(w, step, j);
    LabelsStay(w, step, j);
    InPods(w', w'.jobs[j]);
    hide Run, Next, Labelled, Present, Owned, NamesUnique;
    forall key
      ensures Present(cfg, steps, k, key) <==> Present(cfg, front, k, key) && key in w'.pods
    {
      PresentLess(cfg, steps, k, key);
    }
  }

  lemma {:induction false} DoomingRun(cfg: Config, steps: seq<Step>, j: nat) returns (k: nat, list: map<Key, Pod>)
    requires j < |Run(cfg, steps).jobs| && Run(cfg, steps).jobs[j].run.Deleting?
    ensures k < |steps| && DoomedAt(cfg, steps, k, j, list) && Dooming(cfg, steps, k, j, list)
    decreases |steps|
  {
    var front, n := steps[..|steps| - 1], |steps| - 1;
    var w := Run(cfg, front);
    RunLast(cfg, steps);
    NotNew(w, steps[n], j);
    hide Run, Next, Dooming;
    if w.jobs[j].run.ListDoomed? {
      DoomingStarts(cfg, steps, j);
      k, list := n, ListAnswer(w, w.jobs[j], steps[n].listed);
    } else {
      DeleteStep(w, steps[n], j);
      k, list := DoomingRun(cfg, front, j);
      assert front[..k] == steps[..k];
      DoomingGoesOn(cfg, steps, k, j, list);
    }
  }

  lemma NotNew(w: World, step: Step, j: nat)
    requires j < |Next(w, step).jobs| && Next(w, step).jobs[j].run.Deleting?
    ensures j < |w.jobs|
  {
    hide Call, Count, FirstMove;
  }

  // ---------------------------------------------------------------- the main result

  /** When the reconciler deletes a job object, the job is Terminating, and the pods left of it are exactly those that
      were there at the List of that reconcile, were missing in its answer, and have been there ever since. With
      current lists there are none. */
  lemma JobGoesLast(cfg: Config, steps: seq<Step>, j: nat, ok: bool, listed: map<Key, Pod>, key: Key)
    returns (k: nat, list: map<Key, Pod>)
    requires j < |Run(cfg, steps).jobs| && !Run(cfg, steps).jobs[j].gone
    requires Next(Run(cfg, steps), Proceed(j, ok, listed, key)).jobs[j].gone
    ensures k < |steps| && DoomedAt(cfg, steps, k, j, list)
    ensures var w0, w := Run(cfg, steps[..k]), Run(cfg, steps);
            && w.jobs[j].history != [] && w.jobs[j].Last().phase == Terminating
            && (forall pod :: pod in PodsOf(w, w.jobs[j]) <==>
                  pod in PodsOf(w0, w0.jobs[j]) && pod !in list && Present(cfg, steps, k, pod))
            && (!cfg.staleLists ==> PodsOf(w, w.jobs[j]) == map[])
  {
    RunMetricsOk(cfg, steps);
    var w := Run(cfg, steps);
    var job := w.jobs[j];
    assert JobOk(job, w.now);
    GoneBy(w, job, ok, listed, key);
    OnceRunning(job, job.run.v, w.now);
    hide Next, JobOk;
    k, list := DoomingRun(cfg, steps, j);
    OwnersRun(cfg, steps[..k]);
    hide Run, Labelled, Present;
    if !cfg.staleLists {
      assert forall pod :: pod !in PodsOf(w, job);
    }
  }
}
