/** What a verdict is worth: for any configuration, where it comes from and exactly when it is true. */
module JobVerdict {
  import opened Lifecycle
  import opened AgentStreams
  import opened PodNames
  import opened JobModel
  import opened JobLifecycle
  import opened JobPods
  import opened JobTheorems

  function VerdictOf(list: map<Key, Pod>): Phase {
    if AnyFailed(list) then Phase.Failed else Phase.Succeeded
  }

  /** Every planned pod is listed. */
  ghost predicate Covers(list: map<Key, Pod>, ns: string, plan: seq<string>) {
    forall key | Wanted(ns, plan, key) :: key in list
  }

  // -------------------------------------------------- pods and their owners, always

  ghost predicate OwnersOk(w: World) {
    NamesUnique(w.jobs) && Owned(w.jobs, w.pods)
  }

  /** What a reconcile adds is its job's own. */
  ghost predicate AddsOwn(job: Job, pods: map<Key, Pod>, pods': map<Key, Pod>) {
    && (forall k | k in pods' && k !in pods :: job.Wants(k) && pods'[k].job == job.name)
    && (forall k | k in pods' && k in pods :: pods'[k] == pods[k])
  }

  lemma CallAddsOwn(w: World, job: Job, ok: bool, listed: map<Key, Pod>, key: Key)
    ensures AddsOwn(job, w.pods, Call(w, job, ok, listed, key).1)
  {
    hide Labelled, ListAnswer, AllDone, AnyFailed, Total, Int32, PodNames.Plan, Save, Accepts;
  }

  lemma OwnedOn(jobs: seq<Job>, jobs': seq<Job>, pods: map<Key, Pod>, pods': map<Key, Pod>)
    requires Owned(jobs, pods) && |jobs| <= |jobs'|
    requires forall i: nat | i < |jobs| ::
               jobs'[i].name == jobs[i].name && jobs'[i].ns == jobs[i].ns && jobs'[i].spec == jobs[i].spec
    requires forall k | k in pods' ::
               || (k in pods && pods[k].job == pods'[k].job)
               || (exists i: nat :: i < |jobs| && jobs[i].Wants(k) && pods'[k].job == jobs[i].name)
    ensures Owned(jobs', pods')
  {
    forall k | k in pods'
      ensures exists i :: 0 <= i < |jobs'| && jobs'[i].Wants(k) && pods'[k].job == jobs'[i].name
    {
      var i: nat :| i < |jobs| && jobs[i].Wants(k) && pods'[k].job == jobs[i].name;
      assert jobs'[i].Wants(k);
    }
  }

  lemma OwnersStep(w: World, step: Step)
    requires OwnersOk(w)
    ensures OwnersOk(Next(w, step))
  {
    UniqueAfter(w, step);
    JobsStay(w, step);
    var w' := Next(w, step);
    if step.Proceed? && step.j < |w.jobs| {
      CallAddsOwn(w, w.jobs[step.j], step.ok, step.listed, step.key);
    }
    hide Call, Count, FirstMove, NamesUnique, PodNames.Plan, Wanted;
    OwnedOn(w.jobs, w'.jobs, w.pods, w'.pods);
  }

  lemma {:induction false} OwnersRun(cfg: Config, steps: seq<Step>)
    ensures OwnersOk(Run(cfg, steps)) && Run(cfg, steps).cfg == cfg
    decreases |steps|
  {
    if steps != [] {
      var front, step := steps[..|steps| - 1], steps[|steps| - 1];
      OwnersRun(cfg, front);
      OwnersStep(Run(cfg, front), step);
      JobsStay(Run(cfg, front), step);
      assert Run(cfg, steps) == Next(Run(cfg, front), step);
    }
  }

  // ------------------------------------------------------- exactly when it is true

  /** The listed pods are the job's, and exist as listed. */
  ghost predicate Shows(list: map<Key, Pod>, job: Job, pods: map<Key, Pod>) {
    forall key | key in list :: job.Wants(key) && key in pods && pods[key].phase == list[key].phase
  }

  /** Of any list of finished pods that still exist: the verdict is true exactly if the planned pods it leaves out have
      finished too, and none of them failed unless a listed one did. */
  lemma TrueIffRestAgrees(job: Job, pods: map<Key, Pod>, list: map<Key, Pod>)
    requires list != map[] && AllDone(list) && Shows(list, job, pods)
    ensures VerdictTrue(job.ns, job.Plan(), pods, VerdictOf(list)) <==>
              forall key | job.Wants(key) && key !in list ::
                key in pods && pods[key].Finished() && (pods[key].phase == PodFailed ==> AnyFailed(list))
  {
    hide PodNames.Plan;
    var key :| key in list;
    assert key.name in job.Plan();
  }

  /** Of a current list: exactly if it covers the plan. */
  lemma TrueIffCovered(w: World, j: nat)
    requires OwnersOk(w) && Apart(w.jobs) && j < |w.jobs|
    requires var list := Labelled(w.pods, w.jobs[j].ns, w.jobs[j].name); list != map[] && AllDone(list)
    ensures var job := w.jobs[j];
            var list := Labelled(w.pods, job.ns, job.name);
            && Shows(list, job, w.pods)
            && (VerdictTrue(job.ns, job.Plan(), w.pods, VerdictOf(list)) <==> Covers(list, job.ns, job.Plan()))
  {
    var job := w.jobs[j];
    var list := Labelled(w.pods, job.ns, job.name);
    forall key | key in w.pods
      ensures job.Wants(key) <==> key in list
    {
      LabelIsOwner(w, j, key);
    }
    hide Labelled, Apart, Owned, NamesUnique, PodNames.Plan;
    TrueIffRestAgrees(job, w.pods, list);
  }

  // --------------------------------------------------------- where it comes from

  /** Step k is the list call of a reconcile of job j that finds the verdict. */
  ghost predicate JudgedAt(cfg: Config, steps: seq<Step>, k: nat, j: nat, verdict: Phase)
    requires k < |steps|
  {
    var w := Run(cfg, steps[..k]);
    && steps[k].Proceed? && steps[k].j == j && Finds(w, j, steps[k].listed, verdict)
  }

  ghost predicate Finds(w: World, j: nat, listed: map<Key, Pod>, verdict: Phase) {
    && j < |w.jobs| && w.jobs[j].run.ListRunning?
    && var list := ListAnswer(w, w.jobs[j], listed);
    list != map[] && AllDone(list) && verdict == VerdictOf(list)
  }

  /** The job has this verdict, or is about to. */
  ghost predicate HasVerdict(job: Job, verdict: Phase) {
    || (job.run.Completing? && job.run.verdict == verdict)
    || (verdict.IsTerminal() && exists st :: st in job.history && st.phase == verdict)
  }

  lemma CallFinds(w: World, j: nat, ok: bool, listed: map<Key, Pod>, key: Key, verdict: Phase)
    requires j < |w.jobs| && HasVerdict(Call(w, w.jobs[j], ok, listed, key).0, verdict)
    ensures HasVerdict(w.jobs[j], verdict) || Finds(w, j, listed, verdict)
  {
    CallSaves(w, w.jobs[j], ok, listed, key);
    hide Labelled, ListAnswer, AllDone, AnyFailed, Total, Int32, PodNames.Plan;
  }

  lemma StepFinds(w: World, step: Step, j: nat, verdict: Phase)
    requires j < |Next(w, step).jobs| && HasVerdict(Next(w, step).jobs[j], verdict)
    ensures || (j < |w.jobs| && HasVerdict(w.jobs[j], verdict))
            || (step.Proceed? && step.j == j && Finds(w, j, step.listed, verdict))
  {
    if step.Proceed? && step.j == j && j < |w.jobs| {
      CallFinds(w, j, step.ok, step.listed, step.key, verdict);
    }
    hide Call, Count, Finds;
  }

  /** Every verdict was found by a list call of some reconcile of the job. */
  lemma {:induction false} VerdictWasFound(cfg: Config, steps: seq<Step>, j: nat, verdict: Phase) returns (k: nat)
    requires j < |Run(cfg, steps).jobs| && HasVerdict(Run(cfg, steps).jobs[j], verdict)
    ensures k < |steps| && JudgedAt(cfg, steps, k, j, verdict)
    decreases |steps|
  {
    var front, n := steps[..|steps| - 1], |steps| - 1;
    assert steps[..n] == front;
    StepFinds(Run(cfg, front), steps[n], j, verdict);
    hide HasVerdict, Finds, Next;
    if j < |Run(cfg, front).jobs| && HasVerdict(Run(cfg, front).jobs[j], verdict) {
      k := VerdictWasFound(cfg, front, j, verdict);
      assert front[..k] == steps[..k];
    } else {
      k := n;
    }
  }

  lemma {:induction false} ApartPrefix(cfg: Config, steps: seq<Step>, m: nat)
    requires Apart(Run(cfg, steps).jobs) && m <= |steps|
    ensures Apart(Run(cfg, steps[..m]).jobs)
    decreases |steps|
  {
    if m == |steps| {
      assert steps[..m] == steps;
    } else {
      var front := steps[..|steps| - 1];
      ApartBefore(Run(cfg, front), steps[|steps| - 1]);
      hide Apart, Next;
      ApartPrefix(cfg, front, m);
      assert front[..m] == steps[..m];
    }
  }

  /** Exactly when a committed verdict was true. For any configuration -- stale reads, pods removed from outside, users
      deleting jobs -- a verdict in a job's history was found by some list call. Where lists may be outdated, take any
      earlier state whose pods the list shows; otherwise it shows the present ones. The verdict was true of that state
      if and only if the list covered the plan. */
  lemma VerdictTrueIff(cfg: Config, steps: seq<Step>, j: nat, verdict: Phase) returns (k: nat, list: map<Key, Pod>)
    requires Apart(Run(cfg, steps).jobs) && j < |Run(cfg, steps).jobs| && verdict.IsTerminal()
    requires exists st :: st in Run(cfg, steps).jobs[j].history && st.phase == verdict
    ensures k < |steps| && JudgedAt(cfg, steps, k, j, verdict)
    ensures list == ListAnswer(Run(cfg, steps[..k]), Run(cfg, steps[..k]).jobs[j], steps[k].listed)
    ensures forall m | 0 <= m <= k && ShowsState(cfg, steps, m, j, list) ::
              var w := Run(cfg, steps[..m]);
              VerdictTrue(w.jobs[j].ns, w.jobs[j].Plan(), w.pods, verdict) <==>
                  Covers(list, w.jobs[j].ns, w.jobs[j].Plan())
    ensures !cfg.staleLists ==> ShowsState(cfg, steps, k, j, list)
  {
    k := VerdictWasFound(cfg, steps, j, verdict);
    list := ListAnswer(Run(cfg, steps[..k]), Run(cfg, steps[..k]).jobs[j], steps[k].listed);
    OwnersRun(cfg, steps[..k]);
    hide Run, Apart, OwnersOk, VerdictTrue, Covers, Labelled, AllDone, AnyFailed;
    forall m | 0 <= m <= k && ShowsState(cfg, steps, m, j, list)
      ensures var w := Run(cfg, steps[..m]);
              VerdictTrue(w.jobs[j].ns, w.jobs[j].Plan(), w.pods, verdict) <==>
                  Covers(list, w.jobs[j].ns, w.jobs[j].Plan())
    {
      ApartPrefix(cfg, steps, m);
      OwnersRun(cfg, steps[..m]);
      TrueIffCovered(Run(cfg, steps[..m]), j);
    }
  }

  /** The list shows the pods of the job as they were after m steps. */
  ghost predicate ShowsState(cfg: Config, steps: seq<Step>, m: nat, j: nat, list: map<Key, Pod>)
    requires m <= |steps|
  {
    var w := Run(cfg, steps[..m]);
    j < |w.jobs| && list == Labelled(w.pods, w.jobs[j].ns, w.jobs[j].name)
  }

  lemma SameSize<T>(a: set<T>, b: set<T>)
    requires a <= b && |a| == |b|
    ensures a == b
  {
    assert b == a + (b - a);
    assert |b| == |a| + |b - a|;
  }

  lemma PlanKeys(job: Job, list: map<Key, Pod>)
    requires forall key | key in list :: job.Wants(key)
    requires forall r | r in job.spec.roles :: r.maxReplicas >= 0
    requires Total(job.spec.roles) < 0x8000_0000 && NoClash(job.spec.roles)
    ensures Covers(list, job.ns, job.Plan()) <==> |list| == Int32(Total(job.spec.roles))
  {
    PlanSize(job);
    hide PodNames.Plan, Total, Int32, NoClash;
    var plan := set name | name in job.Plan() :: Key(job.ns, name);
    assert |list| == |list.Keys|;
    forall key
      ensures Wanted(job.ns, job.Plan(), key) <==> key in plan
    {
      if Wanted(job.ns, job.Plan(), key) {
        assert key == Key(job.ns, key.name);
      }
    }
    if |list.Keys| == |plan| {
      SameSize(list.Keys, plan);
    }
    if Covers(list, job.ns, job.Plan()) {
      assert list.Keys == plan;
    }
  }

  /** The check that would tell: when the replica counts are not negative, their sum fits an int32 and no roles clash,
      a list of the job's own pods covers the plan if and only if it is as long as the ActiveAgents of the Running
      status. */
  lemma CoversIffCount(cfg: Config, steps: seq<Step>, j: nat, v: nat, list: map<Key, Pod>)
    requires j < |Run(cfg, steps).jobs| && v < |Run(cfg, steps).jobs[j].history|
    requires Run(cfg, steps).jobs[j].history[v].phase == Running
    requires forall key | key in list :: Run(cfg, steps).jobs[j].Wants(key)
    requires var roles := Run(cfg, steps).jobs[j].spec.roles;
             (forall r | r in roles :: r.maxReplicas >= 0) && Total(roles) < 0x8000_0000 && NoClash(roles)
    ensures var job := Run(cfg, steps).jobs[j];
            Covers(list, job.ns, job.Plan()) <==> |list| == job.history[v].active
  {
    RunMetricsOk(cfg, steps);
    var job := Run(cfg, steps).jobs[j];
    assert JobOk(job, Run(cfg, steps).now) && job.history[v] in job.history;
    hide Run, PodNames.Plan, NoClash, Covers;
    PlanKeys(job, list);
  }

  // --------------------------------------------------------- a wrong verdict, reached

  lemma Go(cfg: Config, steps: seq<Step>, w: World, step: Step) returns (longer: seq<Step>, w': World)
    requires w == Run(cfg, steps)
    ensures longer == steps + [step] && w' == Next(w, step) && w' == Run(cfg, longer)
  {
    longer := steps + [step];
    w' := Next(w, step);
    assert longer[..|longer| - 1] == steps;
  }

  lemma TwoPods(name: string, a: Role, b: Role)
    requires a.Replicas() == 1 && b.Replicas() == 1
    ensures PodNames.Plan(name, [a, b]) == [PodName(name, a, 0), PodName(name, b, 0)] && Total([a, b]) == 2
  {
    assert [a, b][..1] == [a] && [a][..0] == [];
    assert PodNames.Plan(name, [a]) == RolePlan(name, a, 1);
    assert RolePlan(name, a, 1) == [PodName(name, a, 0)] && RolePlan(name, b, 1) == [PodName(name, b, 0)];
    assert Total([a]) == 1;
  }

  const RA := Role("a", 1)
  const RB := Role("b", 1)
  const KA := Key("n", PodName("j", RA, 0))
  const KB := Key("n", PodName("j", RB, 0))
  const JOB := Job("j", "n", Spec("t", [RA, RB], 1), [Status(Unset, 0, None, None)], false, Idle, 0, 0)

  lemma JobOfTwo()
    ensures KA != KB && JOB.Plan() == [KA.name, KB.name] && Total(JOB.spec.roles) == 2
  {
    TwoPods("j", RA, RB);
    assert PodName("j", RA, 0)[2] == 'a' && PodName("j", RB, 0)[2] == 'b';
  }

  lemma JobBegun(cfg: Config) returns (steps: seq<Step>, w: World)
    ensures w == Run(cfg, steps) && w.cfg == cfg
    ensures w.jobs == [JOB.(run := GetTenant(0))] && w.pods == map[] && w.tenants == {"t"} && w.now == 0
  {
    steps, w := [], Run(cfg, []);
    assert w == Init(cfg);
    hide Run, Exec, PodNames.Plan, Total;
    steps, w := Go(cfg, steps, w, SetTenant("t", true));
    steps, w := Go(cfg, steps, w, CreateJob("j", "n", JOB.spec, Unset));
    assert w.jobs == [JOB];
    steps, w := Go(cfg, steps, w, Begin(0, 0));
  }

  const OK := Proceed(0, true, map[], Key("", ""))

  lemma BothCreated(cfg: Config) returns (steps: seq<Step>, w: World)
    ensures w == Run(cfg, steps) && w.cfg == cfg && w.jobs == [JOB.(run := Creating(0, 2))]
    ensures w.tenants == {"t"} && w.now == 0
    ensures w.pods == map[KA := Pod("j", PodPending), KB := Pod("j", PodPending)]
  {
    JobOfTwo();
    steps, w := JobBegun(cfg);
    hide Run, Exec, PodName, PodNames.Plan, Total, Labelled, ListAnswer;
    steps, w := Go(cfg, steps, w, OK);
    assert w.jobs == [JOB.(run := Creating(0, 0))] && w.pods == map[];
    steps, w := Go(cfg, steps, w, OK);
    assert w.jobs == [JOB.(run := Creating(0, 1))] && w.pods == map[KA := Pod("j", PodPending)];
    steps, w := Go(cfg, steps, w, OK);
  }

  /** The job of two pods between reconciles, with n versions, the newest of this phase. */
  ghost predicate IsTwo(job: Job, n: nat, phase: Phase) {
    && job.name == "j" && job.ns == "n" && job.spec == JOB.spec && job.run == Idle && !job.gone
    && |job.history| == n && n > 0 && job.history[0] == JOB.history[0] && job.Last().phase == phase
  }

  /** It is Running. */
  lemma BothRunning(cfg: Config) returns (steps: seq<Step>, w: World)
    ensures w == Run(cfg, steps) && w.cfg == cfg && |w.jobs| == 1
    ensures IsTwo(w.jobs[0], 2, Running) && w.tenants == {"t"} && w.now == 0
    ensures w.pods == map[KA := Pod("j", PodPending), KB := Pod("j", PodPending)]
  {
    JobOfTwo();
    steps, w := BothCreated(cfg);
    hide Run, Exec, PodName, PodNames.Plan, Total, Labelled, ListAnswer;
    steps, w := Go(cfg, steps, w, OK);
    assert w.jobs[0].run.CountStart? && w.jobs[0].Last().phase == Running;
    steps, w := Go(cfg, steps, w, OK);
  }

  /** So a wrong verdict is reached: in this run one pod of a Running job has failed and the other succeeded; removing
      the failed one makes the next reconcile say Succeeded instead of Failed. */
  lemma WrongVerdictReached() returns (cfg: Config, steps: seq<Step>, failed: Key)
    ensures cfg.vanish && !cfg.staleLists && !cfg.staleReads && !cfg.userDeletes
    ensures var w := Run(cfg, steps);
            && |w.jobs| == 1 && w.jobs[0].run == Idle && w.jobs[0].history != [] && w.jobs[0].Last().phase == Running
            && failed in Labelled(w.pods, w.jobs[0].ns, w.jobs[0].name) && w.pods[failed].phase == PodFailed
            && JobTheorems.Judged(w, 0, map[]) == Phase.Failed
            && JobTheorems.Judged(Next(w, PodVanishes(failed)), 0, map[]) == Phase.Succeeded
  {
    cfg, failed := Config(false, false, true, false), KA;
    JobOfTwo();
    var w;
    steps, w := BothRunning(cfg);
    hide Run, Exec, PodName, PodNames.Plan, JobTheorems.Judged;
    steps, w := Go(cfg, steps, w, PodMoves(KA, PodFailed));
    steps, w := Go(cfg, steps, w, PodMoves(KB, PodSucceeded));
    assert w.pods == map[KA := Pod("j", PodFailed), KB := Pod("j", PodSucceeded)];
    RemovedPodHidesFailure(w, 0, KA, KB);
  }

  /** Likewise with an outdated list: while both pods are still pending, one that shows a successful pod makes the job
      Succeeded. */
  lemma OutdatedVerdictReached() returns (cfg: Config, steps: seq<Step>, listed: map<Key, Pod>)
    ensures cfg.staleLists && !cfg.vanish && !cfg.staleReads && !cfg.userDeletes
    ensures var w := Run(cfg, steps);
            && |w.jobs| == 1 && IsTwo(w.jobs[0], 2, Running) && w.pods != map[]
            && (forall key | key in w.pods :: w.pods[key].phase == PodPending)
            && JobTheorems.Judged(w, 0, listed) == Phase.Succeeded
  {
    cfg, listed := Config(false, true, false, false), map[KA := Pod("j", PodSucceeded)];
    JobOfTwo();
    var w;
    steps, w := BothRunning(cfg);
    hide Run, Exec, PodName, PodNames.Plan, JobTheorems.Judged;
    assert KA in w.pods && KA in listed;
    OutdatedListHidesFailure(w, 0, listed);
  }

  // ------------------------------------------------------ a Terminating job, reached

  lemma ListsBoth(w: World, job: Job, phase: PodPhase)
    requires !w.cfg.staleLists && job.ns == "n" && job.name == "j"
    requires w.pods == map[KA := Pod("j", phase), KB := Pod("j", phase)]
    ensures ListAnswer(w, job, map[]) == w.pods
  {
    assert KA.ns == "n" && KB.ns == "n";
  }

  /** Both pods succeed. */
  lemma BothSucceeded(cfg: Config) returns (steps: seq<Step>, w: World)
    ensures w == Run(cfg, steps) && w.cfg == cfg && |w.jobs| == 1 && IsTwo(w.jobs[0], 2, Running)
    ensures w.tenants == {"t"} && w.now == 0
    ensures w.pods == map[KA := Pod("j", PodSucceeded), KB := Pod("j", PodSucceeded)]
  {
    JobOfTwo();
    steps, w := BothRunning(cfg);
    hide Run, Exec, PodName, IsTwo;
    steps, w := Go(cfg, steps, w, PodMoves(KA, PodSucceeded));
    steps, w := Go(cfg, steps, w, PodMoves(KB, PodSucceeded));
  }

  /** The job is judged. */
  lemma BothDone(cfg: Config) returns (steps: seq<Step>, w: World)
    requires !cfg.staleLists
    ensures w == Run(cfg, steps) && w.cfg == cfg && |w.jobs| == 1 && IsTwo(w.jobs[0], 3, Phase.Succeeded)
    ensures w.jobs[0].Last().completedAt == Some(0) && w.tenants == {"t"} && w.now == 0
    ensures w.pods == map[KA := Pod("j", PodSucceeded), KB := Pod("j", PodSucceeded)]
  {
    steps, w := BothSucceeded(cfg);
    var job := w.jobs[0];
    hide Run, Exec, PodName, PodNames.Plan, Total, Labelled;
    steps, w := Go(cfg, steps, w, Begin(0, 1));
    assert w.jobs == [job.(run := ListRunning(1))];
    ListsBoth(w, w.jobs[0], PodSucceeded);
    assert KA in w.pods && AllDone(w.pods) && !AnyFailed(w.pods);
    hide ListAnswer, AllDone, AnyFailed;
    steps, w := Go(cfg, steps, w, OK);
    assert w.jobs == [job.(run := Completing(1, Phase.Succeeded))];
    steps, w := Go(cfg, steps, w, OK);
    assert w.jobs[0].run.CountFinish? && w.jobs[0].Last().phase == Phase.Succeeded;
    steps, w := Go(cfg, steps, w, OK);
  }

  /** Its TTL passes. */
  lemma BothExpired(cfg: Config) returns (steps: seq<Step>, w: World)
    requires !cfg.staleLists
    ensures w == Run(cfg, steps) && w.cfg == cfg && |w.jobs| == 1 && w.tenants == {"t"}
    ensures IsTwo(w.jobs[0], 4, Terminating)
    ensures w.pods == map[KA := Pod("j", PodSucceeded), KB := Pod("j", PodSucceeded)]
  {
    steps, w := BothDone(cfg);
    var job := w.jobs[0];
    hide Run, Exec, PodName, PodNames.Plan, Total, Labelled, ListAnswer;
    steps, w := Go(cfg, steps, w, Tick(SECOND));
    assert w.jobs == [job] && w.now == SECOND;
    steps, w := Go(cfg, steps, w, Begin(0, 2));
    assert w.jobs == [job.(run := Expiring(2))];
    steps, w := Go(cfg, steps, w, OK);
  }

  /** Its pods are deleted, and the delete of the job fails. */
  lemma PodsGone(cfg: Config) returns (steps: seq<Step>, w: World)
    requires !cfg.staleLists
    ensures w == Run(cfg, steps) && w.cfg == cfg && |w.jobs| == 1 && w.tenants == {"t"}
    ensures IsTwo(w.jobs[0], 4, Terminating)
    ensures w.pods == map[]
  {
    JobOfTwo();
    steps, w := BothExpired(cfg);
    var job := w.jobs[0];
    hide Run, Exec, PodName, PodNames.Plan, Total, Labelled;
    steps, w := Go(cfg, steps, w, Begin(0, 3));
    assert w.jobs == [job.(run := ListDoomed(3))];
    ListsBoth(w, w.jobs[0], PodSucceeded);
    hide ListAnswer;
    assert w.pods.Keys == {KA, KB} && {KA, KB} - {KA} == {KB} && {KB} - {KB} == {};
    steps, w := Go(cfg, steps, w, OK);
    assert w.jobs == [job.(run := Deleting(3, {KA, KB}))];
    steps, w := Go(cfg, steps, w, Proceed(0, true, map[], KA));
    assert w.jobs == [job.(run := Deleting(3, {KB}))] && w.pods == map[KB := Pod("j", PodSucceeded)];
    steps, w := Go(cfg, steps, w, Proceed(0, true, map[], KB));
    assert w.jobs == [job.(run := Deleting(3, {}))] && w.pods == map[];
    steps, w := Go(cfg, steps, w, Proceed(0, false, map[], KA));
  }
}
