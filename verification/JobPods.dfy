/** Jobs and their pods: what holds when lists are current, nobody else removes pods, and the pod names of different
    jobs do not collide. Reads may still be stale and every call may still fail. */
module JobPods {
  import opened Lifecycle
  import opened AgentStreams
  import opened PodNames
  import opened JobModel
  import opened JobLifecycle

  /** No pod name is wanted by two jobs of a namespace. */
  ghost predicate Apart(jobs: seq<Job>) {
    forall i, k, key :: 0 <= i < |jobs| && 0 <= k < |jobs| && jobs[i].Wants(key) && jobs[k].Wants(key) ==> i == k
  }

  ghost predicate NamesUnique(jobs: seq<Job>) {
    forall i, k :: 0 <= i < |jobs| && 0 <= k < |jobs| && jobs[i].ns == jobs[k].ns && jobs[i].name == jobs[k].name ==>
        i == k
  }

  /** Every pod was made for some job, and says so. */
  ghost predicate Owned(jobs: seq<Job>, pods: map<Key, Pod>) {
    forall key | key in pods :: exists i :: 0 <= i < |jobs| && jobs[i].Wants(key) && pods[key].job == jobs[i].name
  }

  /** The pods bear the verdict out: there are pods, all planned ones exist and have finished, and some failed exactly
      if the verdict is Failed. */
  ghost predicate VerdictTrue(ns: string, plan: seq<string>, pods: map<Key, Pod>, verdict: Phase) {
    && plan != []
    && (forall key | Wanted(ns, plan, key) :: key in pods && pods[key].Finished())
    && (verdict == Phase.Failed <==> exists key :: Wanted(ns, plan, key) && key in pods && pods[key].phase == PodFailed)
    && verdict.IsTerminal()
  }

  ghost predicate CreatedUpTo(ns: string, plan: seq<string>, pods: map<Key, Pod>, k: nat) {
    forall m :: 0 <= m < k && m < |plan| ==> Key(ns, plan[m]) in pods
  }

  ghost predicate AllCreated(ns: string, plan: seq<string>, pods: map<Key, Pod>) {
    forall key | Wanted(ns, plan, key) :: key in pods
  }

  ghost predicate JobPodsOk(job: Job, pods: map<Key, Pod>)
    requires job.history != []
  {
    var rank := Rank(job.Last().phase);
    && (job.run.Creating? && rank < 3 ==> CreatedUpTo(job.ns, job.Plan(), pods, job.run.k))
    && (1 <= rank <= 2 ==> AllCreated(job.ns, job.Plan(), pods))
    && (rank >= 2 ==> job.Plan() != [])
    && (job.run.Completing? && rank < 3 ==> VerdictTrue(job.ns, job.Plan(), pods, job.run.verdict))
    && (job.Last().phase.IsTerminal() ==> VerdictTrue(job.ns, job.Plan(), pods, job.Last().phase))
    && (job.run.Deleting? ==>
          && (forall key | key in job.run.rest :: job.Wants(key))
          && (forall key | key in pods && job.Wants(key) :: key in job.run.rest))
  }

  ghost predicate PodsOk(w: World) {
    && NamesUnique(w.jobs)
    && Owned(w.jobs, w.pods)
    && HaveHistory(w.jobs)
    && (forall j :: 0 <= j < |w.jobs| ==> JobPodsOk(w.jobs[j], w.pods))
  }

  /** A planned key that exists carries the job's own label, and a labelled pod is a planned one. */
  lemma LabelIsOwner(w: World, j: nat, key: Key)
    requires NamesUnique(w.jobs) && Owned(w.jobs, w.pods) && Apart(w.jobs) && j < |w.jobs| && key in w.pods
    ensures w.jobs[j].Wants(key) <==> key.ns == w.jobs[j].ns && w.pods[key].job == w.jobs[j].name
  {
    var i :| 0 <= i < |w.jobs| && w.jobs[i].Wants(key) && w.pods[key].job == w.jobs[i].name;
  }

  /** The pods of other jobs do not matter. */
  lemma FrameOk(job: Job, pods: map<Key, Pod>, pods': map<Key, Pod>)
    requires job.history != [] && JobPodsOk(job, pods)
    requires forall key | job.Wants(key) :: (key in pods <==> key in pods') && (key in pods ==> pods[key] == pods'[key])
    ensures JobPodsOk(job, pods')
  {
    assert forall m :: 0 <= m < |job.Plan()| ==> job.Wants(Key(job.ns, job.Plan()[m]));
  }

  /** What a successful list of a job's pods tells. */
  lemma ListTells(w: World, j: nat)
    requires PodsOk(w) && Apart(w.jobs) && j < |w.jobs|
    ensures var list := Labelled(w.pods, w.jobs[j].ns, w.jobs[j].name);
            && (forall key :: key in list <==> key in w.pods && w.jobs[j].Wants(key))
            && (AllCreated(w.jobs[j].ns, w.jobs[j].Plan(), w.pods) && AllDone(list) && list != map[] ==>
                  VerdictTrue(w.jobs[j].ns, w.jobs[j].Plan(), w.pods, if AnyFailed(list) then Phase.Failed
                      else Phase.Succeeded))
  {
    var job := w.jobs[j];
    var list := Labelled(w.pods, job.ns, job.name);
    forall key
      ensures key in list <==> key in w.pods && job.Wants(key)
    {
      if key in w.pods {
        LabelIsOwner(w, j, key);
      }
    }
    if list != map[] {
      var key :| key in list;
      assert job.Wants(key);
    }
  }

  /** A reconcile touches no pods but those its job wants, and labels the ones it makes. */
  ghost predicate OwnEffect(job: Job, pods: map<Key, Pod>, pods': map<Key, Pod>) {
    && (forall k | k in pods' && k !in pods :: job.Wants(k) && pods'[k].job == job.name)
    && (forall k | k in pods && k !in pods' :: job.Wants(k))
    && (forall k | k in pods && k in pods' :: pods[k] == pods'[k])
  }

  lemma CallPods(w: World, j: nat, ok: bool, key: Key)
    requires !w.cfg.staleLists && AllJobsOk(w) && PodsOk(w) && Apart(w.jobs) && j < |w.jobs|
    ensures var r := Call(w, w.jobs[j], ok, map[], key);
            r.0.history != [] && JobPodsOk(r.0, r.1) && OwnEffect(w.jobs[j], w.pods, r.1)
  {
    var job := w.jobs[j];
    assert JobOk(job, w.now) && JobPodsOk(job, w.pods);
    ListTells(w, j);
    hide Call, JobOk, JobPodsOk, OwnEffect, Apart, Owned, Labelled, VerdictTrue, AllCreated, AllDone, AnyFailed;
    match job.run
    case Creating(_, _) => CallCreating(w, j, ok, key);
    case ListRunning(_) => CallListsRunning(w, j, ok, key);
    case ListDoomed(_) => CallListsDoomed(w, j, ok, key);
    case Completing(_, _) => CallCompleting(w, j, ok, key);
    case Deleting(_, _) => CallDeleting(w, j, ok, key);
    case _ => CallRest(w, j, ok, key);
  }

  lemma CallListsRunning(w: World, j: nat, ok: bool, key: Key)
    requires !w.cfg.staleLists && j < |w.jobs| && JobOk(w.jobs[j], w.now) && JobPodsOk(w.jobs[j], w.pods)
    requires w.jobs[j].run.ListRunning?
    requires var list := Labelled(w.pods, w.jobs[j].ns, w.jobs[j].name);
             && (forall key :: key in list <==> key in w.pods && w.jobs[j].Wants(key))
             && (AllCreated(w.jobs[j].ns, w.jobs[j].Plan(), w.pods) && AllDone(list) && list != map[] ==>
                   VerdictTrue(w.jobs[j].ns, w.jobs[j].Plan(), w.pods, if AnyFailed(list) then Phase.Failed
                       else Phase.Succeeded))
    ensures var r := Call(w, w.jobs[j], ok, map[], key);
            r.0.history != [] && JobPodsOk(r.0, r.1) && OwnEffect(w.jobs[j], w.pods, r.1)
  {
    OnceRunning(w.jobs[j], w.jobs[j].run.v, w.now);
    hide IsPath, Phases, StatusOk, VerdictTrue, Labelled, AllDone, AnyFailed, Total, Int32, CreatedUpTo, AllCreated,
        PodNames.Plan;
  }

  lemma CallListsDoomed(w: World, j: nat, ok: bool, key: Key)
    requires !w.cfg.staleLists && j < |w.jobs| && JobOk(w.jobs[j], w.now) && JobPodsOk(w.jobs[j], w.pods)
    requires w.jobs[j].run.ListDoomed?
    requires var list := Labelled(w.pods, w.jobs[j].ns, w.jobs[j].name);
             forall key :: key in list <==> key in w.pods && w.jobs[j].Wants(key)
    ensures var r := Call(w, w.jobs[j], ok, map[], key);
            r.0.history != [] && JobPodsOk(r.0, r.1) && OwnEffect(w.jobs[j], w.pods, r.1)
  {
    OnceRunning(w.jobs[j], w.jobs[j].run.v, w.now);
    hide IsPath, Phases, StatusOk, VerdictTrue, Labelled, AllDone, AnyFailed, Total, Int32, CreatedUpTo, AllCreated,
        PodNames.Plan;
  }

  lemma CallRest(w: World, j: nat, ok: bool, key: Key)
    requires !w.cfg.staleLists && j < |w.jobs| && JobOk(w.jobs[j], w.now) && JobPodsOk(w.jobs[j], w.pods)
    requires var p := w.jobs[j].run; p.Idle? || p.GetTenant? || p.CountStart? || p.CountFinish? || p.Expiring?
    ensures var r := Call(w, w.jobs[j], ok, map[], key);
            r.0.history != [] && JobPodsOk(r.0, r.1) && OwnEffect(w.jobs[j], w.pods, r.1)
  {
    hide IsPath, Phases, StatusOk, VerdictTrue, Labelled, AllDone, AnyFailed, Total, Int32, AllCreated, PodNames.Plan;
  }

  /** Where Running was once committed, the job has left Pending for good. */
  lemma OnceRunning(job: Job, v: nat, now: int)
    requires JobOk(job, now) && VersionIs(job.history, v, {Running, Phase.Succeeded, Phase.Failed, Terminating})
    ensures Rank(job.Last().phase) >= Rank(job.history[v].phase)
    ensures job.history[v].phase == Terminating ==> job.Last().phase == Terminating
  {
    if v < |job.history| - 1 {
      PathRises(Phases(job.history), v, |job.history| - 1);
      assert Phases(job.history)[v] == job.history[v].phase;
      assert Phases(job.history)[|job.history| - 1] == Normal(job.Last().phase);
    }
  }

  lemma CallCreating(w: World, j: nat, ok: bool, key: Key)
    requires !w.cfg.staleLists && j < |w.jobs| && JobOk(w.jobs[j], w.now) && JobPodsOk(w.jobs[j], w.pods)
             && w.jobs[j].run.Creating?
    ensures var r := Call(w, w.jobs[j], ok, map[], key);
            r.0.history != [] && JobPodsOk(r.0, r.1) && OwnEffect(w.jobs[j], w.pods, r.1)
  {
    hide IsPath, Phases, StatusOk, Total, Int32, Labelled, PodNames.Plan;
    var job := w.jobs[j];
    var r := Call(w, job, ok, map[], key);
    assert forall m :: 0 <= m < |job.Plan()| ==> job.Wants(Key(job.ns, job.Plan()[m]));
    if r.0.history != job.history {
      assert job.run.k == |job.Plan()|;
      forall k | r.0.Wants(k)
        ensures k in r.1
      {
        var m :| 0 <= m < |job.Plan()| && job.Plan()[m] == k.name;
        assert k == Key(job.ns, job.Plan()[m]);
      }
    }
  }

  lemma CallCompleting(w: World, j: nat, ok: bool, key: Key)
    requires !w.cfg.staleLists && j < |w.jobs| && JobOk(w.jobs[j], w.now) && JobPodsOk(w.jobs[j], w.pods)
             && w.jobs[j].run.Completing?
    ensures var r := Call(w, w.jobs[j], ok, map[], key);
            r.0.history != [] && JobPodsOk(r.0, r.1) && OwnEffect(w.jobs[j], w.pods, r.1)
  {
    hide IsPath, Phases, StatusOk, Total, Int32, Labelled, PodNames.Plan, CreatedUpTo;
    var job := w.jobs[j];
    var r := Call(w, job, ok, map[], key);
    assert forall k :: r.0.Wants(k) <==> job.Wants(k);
  }

  lemma CallDeleting(w: World, j: nat, ok: bool, key: Key)
    requires !w.cfg.staleLists && j < |w.jobs| && JobOk(w.jobs[j], w.now) && JobPodsOk(w.jobs[j], w.pods)
             && w.jobs[j].run.Deleting?
    ensures var r := Call(w, w.jobs[j], ok, map[], key);
            r.0.history != [] && JobPodsOk(r.0, r.1) && OwnEffect(w.jobs[j], w.pods, r.1)
  {
    if w.jobs[j].run.rest == {} { DeletesTheJob(w, j, ok, key); } else { DeletesAPod(w, j, ok, key); }
  }

  lemma DeletesTheJob(w: World, j: nat, ok: bool, key: Key)
    requires j < |w.jobs| && JobOk(w.jobs[j], w.now) && JobPodsOk(w.jobs[j], w.pods)
    requires w.jobs[j].run.Deleting? && w.jobs[j].run.rest == {}
    ensures var r := Call(w, w.jobs[j], ok, map[], key);
            r.0.history != [] && JobPodsOk(r.0, r.1) && OwnEffect(w.jobs[j], w.pods, r.1)
  {
    hide IsPath, Phases, StatusOk, RunOk, Total, Int32, Labelled, ListAnswer, PodNames.Plan, CreatedUpTo, VerdictTrue;
  }

  lemma DeletesAPod(w: World, j: nat, ok: bool, key: Key)
    requires j < |w.jobs| && JobOk(w.jobs[j], w.now) && JobPodsOk(w.jobs[j], w.pods)
    requires w.jobs[j].run.Deleting? && w.jobs[j].run.rest != {}
    ensures var r := Call(w, w.jobs[j], ok, map[], key);
            r.0.history != [] && JobPodsOk(r.0, r.1) && OwnEffect(w.jobs[j], w.pods, r.1)
  {
    var job, r := w.jobs[j], Call(w, w.jobs[j], ok, map[], key);
    OnceRunning(job, job.run.v, w.now);
    hide JobOk, Total, Int32, Labelled, ListAnswer, PodNames.Plan, CreatedUpTo, VerdictTrue, AllCreated;
    if ok && key in job.run.rest {
      assert r == (job.(run := Deleting(job.run.v, job.run.rest - {key})), w.pods - {key});
    } else {
      assert r.1 == w.pods && (r.0 == job || r.0 == job.(run := Idle));
    }
    hide Call;
  }

  lemma CurrentList(w: World, job: Job, ok: bool, listed: map<Key, Pod>, key: Key)
    requires !w.cfg.staleLists
    ensures Call(w, job, ok, listed, key) == Call(w, job, ok, map[], key)
  {
    hide Labelled, AllDone, AnyFailed, PodNames.Plan, Total, Int32, Save, Accepts;
  }

  lemma ProceedPods(w: World, j: nat, ok: bool, listed: map<Key, Pod>, key: Key)
    requires !w.cfg.staleLists && AllJobsOk(w) && PodsOk(w) && Apart(w.jobs) && j < |w.jobs|
    ensures PodsOk(Next(w, Proceed(j, ok, listed, key)))
  {
    var w' := Next(w, Proceed(j, ok, listed, key));
    var job, job' := w.jobs[j], w'.jobs[j];
    CallPods(w, j, ok, key);
    CallSaves(w, job, ok, listed, key);
    CurrentList(w, job, ok, listed, key);
    hide Call, JobPodsOk, AllJobsOk, Count, Plan;
    forall i | 0 <= i < |w'.jobs|
      ensures w'.jobs[i].history != [] && JobPodsOk(w'.jobs[i], w'.pods)
    {
      if i != j {
        assert w.jobs[i] in w.jobs;
        FrameOk(w.jobs[i], w.pods, w'.pods);
      }
    }
    OwnedAfter(w.jobs, w'.jobs, w.pods, w'.pods, j);
  }

  lemma OwnedAfter(jobs: seq<Job>, jobs': seq<Job>, pods: map<Key, Pod>, pods': map<Key, Pod>, j: nat)
    requires Owned(jobs, pods) && j < |jobs| && OwnEffect(jobs[j], pods, pods')
    requires |jobs| <= |jobs'|
    requires forall i: nat | i < |jobs| ::
               jobs'[i].name == jobs[i].name && jobs'[i].ns == jobs[i].ns && jobs'[i].spec == jobs[i].spec
    ensures Owned(jobs', pods')
  {
    forall k | k in pods'
      ensures exists i :: 0 <= i < |jobs'| && jobs'[i].Wants(k) && pods'[k].job == jobs'[i].name
    {
      if k in pods {
        var i :| 0 <= i < |jobs| && jobs[i].Wants(k) && pods[k].job == jobs[i].name;
        assert jobs'[i].Wants(k);
      } else {
        assert jobs'[j].Wants(k);
      }
    }
  }

  lemma MoveOk(job: Job, pods: map<Key, Pod>, key: Key, becomes: PodPhase)
    requires job.history != [] && JobPodsOk(job, pods) && key in pods && !pods[key].Finished()
    ensures JobPodsOk(job, pods[key := pods[key].(phase := becomes)])
  {
    hide PodNames.Plan;
    var pods' := pods[key := pods[key].(phase := becomes)];
    forall p | VerdictTrue(job.ns, job.Plan(), pods, p)
      ensures VerdictTrue(job.ns, job.Plan(), pods', p)
    {
      assert !Wanted(job.ns, job.Plan(), key);
    }
    hide VerdictTrue;
  }

  lemma MovePods(w: World, key: Key, becomes: PodPhase)
    requires PodsOk(w) && key in w.pods && !w.pods[key].Finished()
    ensures PodsOk(Next(w, PodMoves(key, becomes)))
  {
    hide Plan, JobPodsOk;
    var w' := Next(w, PodMoves(key, becomes));
    forall i | 0 <= i < |w.jobs|
      ensures JobPodsOk(w.jobs[i], w'.pods)
    {
      assert w.jobs[i] in w.jobs;
      MoveOk(w.jobs[i], w.pods, key, becomes);
    }
  }

  lemma OtherPods(w: World, step: Step)
    requires !w.cfg.vanish && PodsOk(w) && !step.Proceed? && !step.PodMoves?
    ensures PodsOk(Next(w, step))
  {
    var w' := Next(w, step);
    JobsStay(w, step);
    OthersRun(w, step);
    NewJobsOk(w, step);
    UniqueAfter(w, step);
    hide Next, JobPodsOk, Plan;
    forall i | 0 <= i < |w'.jobs|
      ensures w'.jobs[i].history != [] && JobPodsOk(w'.jobs[i], w'.pods)
    {
      if i < |w.jobs| {
        assert w.jobs[i] in w.jobs;
        SameOk(w.jobs[i], w'.jobs[i], w.pods);
      }
    }
    forall k | k in w'.pods
      ensures exists i :: 0 <= i < |w'.jobs| && w'.jobs[i].Wants(k) && w'.pods[k].job == w'.jobs[i].name
    {
      var i :| 0 <= i < |w.jobs| && w.jobs[i].Wants(k) && w.pods[k].job == w.jobs[i].name;
      assert w'.jobs[i].Wants(k);
    }
  }

  lemma NewJobsOk(w: World, step: Step)
    ensures forall i | |w.jobs| <= i < |Next(w, step).jobs| ::
              var job := Next(w, step).jobs[i];
              job.history != [] && JobPodsOk(job, Next(w, step).pods)
  {
    hide Call, Count, FirstMove, PodNames.Plan;
  }

  lemma UniqueAfter(w: World, step: Step)
    requires NamesUnique(w.jobs)
    ensures NamesUnique(Next(w, step).jobs)
  {
    JobsStay(w, step);
    hide Call, Count, FirstMove;
  }

  lemma OthersRun(w: World, step: Step)
    requires !w.cfg.vanish && !step.Proceed? && !step.PodMoves?
    ensures var w' := Next(w, step);
            && w'.pods == w.pods
            && forall i: nat | i < |w.jobs| :: w'.jobs[i].history == w.jobs[i].history
                 && (w'.jobs[i].run == w.jobs[i].run || (!w'.jobs[i].run.Creating? && !w'.jobs[i].run.Completing?
                      && !w'.jobs[i].run.Deleting?))
  {
  }

  /** Starting a reconcile, or losing the job object, changes nothing that the pods depend on. */
  lemma SameOk(job: Job, job': Job, pods: map<Key, Pod>)
    requires job.history != [] && JobPodsOk(job, pods)
    requires job'.name == job.name && job'.ns == job.ns && job'.spec == job.spec && job'.history == job.history
    requires job'.run == job.run || (!job'.run.Creating? && !job'.run.Completing? && !job'.run.Deleting?)
    ensures JobPodsOk(job', pods)
  {
    hide PodNames.Plan, AllCreated, CreatedUpTo, VerdictTrue;
  }

  lemma PodsStep(w: World, step: Step)
    requires !w.cfg.staleLists && !w.cfg.vanish && AllJobsOk(w) && PodsOk(w) && Apart(w.jobs)
    ensures PodsOk(Next(w, step))
  {
    hide PodsOk, AllJobsOk, Apart, Call, Count, FirstMove;
    match step
    case Proceed(j, ok, listed, key) =>
      if j < |w.jobs| { ProceedPods(w, j, ok, listed, key); }
    case PodMoves(key, becomes) =>
      if Next(w, step) != w { MovePods(w, key, becomes); }
    case _ => OtherPods(w, step);
  }

  /** Jobs keep their names and specs, and none is forgotten. */
  lemma JobsStay(w: World, step: Step)
    ensures |w.jobs| <= |Next(w, step).jobs| && Next(w, step).cfg == w.cfg
    ensures forall i: nat | i < |w.jobs| ::
              var job, job' := w.jobs[i], Next(w, step).jobs[i];
              job'.name == job.name && job'.ns == job.ns && job'.spec == job.spec && job.history <= job'.history
  {
    if step.Proceed? && step.j < |w.jobs| {
      CallSaves(w, w.jobs[step.j], step.ok, step.listed, step.key);
    }
    hide Call, Count, FirstMove;
  }

  lemma ApartBefore(w: World, step: Step)
    requires Apart(Next(w, step).jobs)
    ensures Apart(w.jobs)
  {
    JobsStay(w, step);
    hide Next;
    forall i, k, key | 0 <= i < |w.jobs| && 0 <= k < |w.jobs| && w.jobs[i].Wants(key) && w.jobs[k].Wants(key)
      ensures i == k
    {
      assert Next(w, step).jobs[i].Wants(key) && Next(w, step).jobs[k].Wants(key);
    }
  }

  lemma {:induction false} RunPodsOk(cfg: Config, steps: seq<Step>)
    requires !cfg.staleLists && !cfg.vanish && Apart(Run(cfg, steps).jobs)
    ensures AllJobsOk(Run(cfg, steps)) && PodsOk(Run(cfg, steps)) && Run(cfg, steps).cfg == cfg
    decreases |steps|
  {
    if steps != [] {
      var front, step := steps[..|steps| - 1], steps[|steps| - 1];
      ApartBefore(Run(cfg, front), step);
      RunPodsOk(cfg, front);
      JobStepOk(Run(cfg, front), step);
      PodsStep(Run(cfg, front), step);
      JobsStay(Run(cfg, front), step);
    }
  }
}
