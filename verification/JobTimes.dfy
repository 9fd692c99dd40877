/** When a status was committed: the times it holds, and the time to live counted from the commit itself. */
module JobTimes {
  import opened Lifecycle
  import opened AgentStreams
  import opened PodNames
  import opened JobModel
  import opened JobLifecycle
  import opened JobPods
  import opened JobTheorems

  /** metav1.Now() at this time, as it is stored: no more than a second earlier, in whole seconds. */
  ghost predicate IsNow(t: Option<int>, now: int) {
    t.Some? && t.value <= now < t.value + 1_000_000_000 && t.value % 1_000_000_000 == 0
  }

  /** A version committed at this time, on top of that one. */
  ghost predicate Stamped(before: Status, st: Status, now: int) {
    match st.phase
    case Running => IsNow(st.startedAt, now) && st.completedAt == before.completedAt
    case Succeeded => IsNow(st.completedAt, now) && st.startedAt == before.startedAt && st.active == 0
    case Failed => IsNow(st.completedAt, now) && st.startedAt == before.startedAt && st.active == 0
    case _ => st == before.(phase := Terminating)
  }

  /** Step k of the run committed version v of job j, and its times are those of that step. */
  ghost predicate CommittedAt(cfg: Config, steps: seq<Step>, k: nat, j: nat, v: nat)
    requires k < |steps|
  {
    var w, w' := Run(cfg, steps[..k]), Run(cfg, steps[..k + 1]);
    && j < |w.jobs| && j < |w'.jobs| && 0 < v == |w.jobs[j].history|
    && |w'.jobs[j].history| == v + 1 && w'.jobs[j].history[..v] == w.jobs[j].history
    && Stamped(w.jobs[j].history[v - 1], w'.jobs[j].history[v], w.now)
  }

  lemma CallStamps(w: World, job: Job, ok: bool, listed: map<Key, Pod>, key: Key)
    requires JobOk(job, w.now)
    ensures var job' := Call(w, job, ok, listed, key).0;
            || job'.history == job.history
            || (job.history != [] && |job'.history| == |job.history| + 1 && job.history <= job'.history
                && Stamped(job.Last(), job'.Last(), w.now))
  {
    CallSaves(w, job, ok, listed, key);
    hide Call, IsPath, Phases, Total, Int32, StatusOk;
  }

  lemma StepStamps(w: World, step: Step, j: nat)
    requires AllJobsOk(w) && j < |w.jobs|
    ensures j < |Next(w, step).jobs|
    ensures var job, job' := w.jobs[j], Next(w, step).jobs[j];
            || job'.history == job.history
            || (job.history != [] && |job'.history| == |job.history| + 1 && job.history <= job'.history
                && Stamped(job.Last(), job'.Last(), w.now))
  {
    JobsStay(w, step);
    if step.Proceed? && step.j == j {
      CallStamps(w, w.jobs[j], step.ok, step.listed, step.key);
    }
    hide Call, Count, FirstMove, JobOk;
  }

  /** Every version but the first was committed by some step of the run, and holds the time of that step: Running as
      StartedAt, a verdict as CompletedAt, and what was stored before is kept. */
  lemma {:induction false} VersionsAreStamped(cfg: Config, steps: seq<Step>, j: nat, v: nat) returns (k: nat)
    requires j < |Run(cfg, steps).jobs| && 0 < v < |Run(cfg, steps).jobs[j].history|
    ensures k < |steps| && CommittedAt(cfg, steps, k, j, v)
    ensures Run(cfg, steps[..k + 1]).jobs[j].history <= Run(cfg, steps).jobs[j].history
    decreases |steps|
  {
    hide Run, Next, Stamped, AllJobsOk, MetricsOk, CommittedAt;
    var n := |steps| - 1;
    LastStepStamps(cfg, steps, j);
    var front := steps[..n];
    if j < |Run(cfg, front).jobs| && v < |Run(cfg, front).jobs[j].history| {
      k := VersionsAreStamped(cfg, front, j, v);
      CommittedOn(cfg, front, steps, k, j, v);
      assert front[..k + 1] == steps[..k + 1];
    } else {
      k := n;
      assert steps[..n + 1] == steps;
    }
  }

  lemma CommittedOn(cfg: Config, steps: seq<Step>, steps': seq<Step>, k: nat, j: nat, v: nat)
    requires k < |steps| && steps <= steps' && CommittedAt(cfg, steps, k, j, v)
    ensures CommittedAt(cfg, steps', k, j, v)
  {
    hide Run, Stamped;
    assert steps'[..k] == steps[..k] && steps'[..k + 1] == steps[..k + 1];
  }

  /** What the last step of a run does to the versions of job j: nothing, or it commits one, or it makes the job. */
  lemma LastStepStamps(cfg: Config, steps: seq<Step>, j: nat)
    requires j < |Run(cfg, steps).jobs|
    ensures steps == [] ==> Run(cfg, steps).jobs == []
    ensures steps != [] ==>
              var n := |steps| - 1;
              var w, h := Run(cfg, steps[..n]), Run(cfg, steps).jobs[j].history;
              if j >= |w.jobs| then |h| == 1
              else || h == w.jobs[j].history
                   || (|h| == |w.jobs[j].history| + 1 && CommittedAt(cfg, steps, n, j, |h| - 1)
                       && w.jobs[j].history <= h)
  {
    if steps != [] {
      var n := |steps| - 1;
      var w := Run(cfg, steps[..n]);
      RunMetricsOk(cfg, steps[..n]);
      assert Run(cfg, steps) == Next(w, steps[n]) && steps[..n + 1] == steps;
      hide Run;
      if j < |w.jobs| {
        StepStamps(w, steps[n], j);
      } else {
        NewJobs(w, steps[n], j);
      }
      hide Next, Stamped, JobOk;
    }
  }

  /** A job starts with one version, without times. */
  lemma NewJobs(w: World, step: Step, j: nat)
    requires |w.jobs| <= j < |Next(w, step).jobs|
    ensures var job := Next(w, step).jobs[j];
            |job.history| == 1 && job.history[0].startedAt == None && job.history[0].completedAt == None
  {
    hide Call, Count, FirstMove;
  }

  /** So a Terminating job has lived out its TTL, but for less than a second, counted from the step that committed its
      verdict. */
  lemma LivesOutItsTtl(cfg: Config, steps: seq<Step>, j: nat) returns (k: nat)
    requires j < |Run(cfg, steps).jobs| && Run(cfg, steps).jobs[j].history != []
    requires Run(cfg, steps).jobs[j].Last().phase == Terminating
    ensures 2 <= |Run(cfg, steps).jobs[j].history|
    ensures k < |steps| && CommittedAt(cfg, steps, k, j, |Run(cfg, steps).jobs[j].history| - 2)
    ensures var h := Run(cfg, steps).jobs[j].history;
            h[|h| - 2].phase in {Phase.Succeeded, Phase.Failed}
    ensures Run(cfg, steps).jobs[j].spec.ttl > 0
    ensures Run(cfg, steps).now > Run(cfg, steps[..k]).now + (Run(cfg, steps).jobs[j].spec.ttl - 1) * 1_000_000_000
  {
    NeverExpiresEarly(cfg, steps, j);
    RunMetricsOk(cfg, steps);
    var job := Run(cfg, steps).jobs[j];
    assert JobOk(job, Run(cfg, steps).now);
    JobShape(job, Run(cfg, steps).now);
    var h := job.history;
    var v := |h| - 2;
    k := VersionsAreStamped(cfg, steps, j, v);
    var l := VersionsAreStamped(cfg, steps, j, v + 1);
    hide Run, JobOk;
    assert Run(cfg, steps[..k + 1]).jobs[j].history == h[..v + 1];
    assert Run(cfg, steps[..l + 1]).jobs[j].history == h;
  }

  /** And it does not live longer than that: one reconcile of a finished job makes it Terminating if the whole TTL has
      passed since the commit of its verdict, and changes nothing if more than a second of it is left. */
  lemma ExpiresOnTime(cfg: Config, steps: seq<Step>, j: nat) returns (k: nat)
    requires j < |Run(cfg, steps).jobs| && Run(cfg, steps).jobs[j].history != []
    requires var job := Run(cfg, steps).jobs[j];
             job.run == Idle && !job.gone && job.Last().phase in {Phase.Succeeded, Phase.Failed} && job.spec.ttl > 0
    ensures k < |steps| && CommittedAt(cfg, steps, k, j, |Run(cfg, steps).jobs[j].history| - 1)
    ensures var w, done := Run(cfg, steps), Run(cfg, steps[..k]).now;
            var job := w.jobs[j];
            var w' := Next(Next(w, Begin(j, |job.history| - 1)), Proceed(j, true, map[], Key("", "")));
            && j < |w'.jobs| && w'.jobs[j].history != []
            && (w.now >= done + job.spec.ttl * 1_000_000_000 ==> w'.jobs[j].Last().phase == Terminating)
            && (w.now <= done + (job.spec.ttl - 1) * 1_000_000_000 ==> w'.jobs[j].history == job.history)
  {
    RunMetricsOk(cfg, steps);
    var w := Run(cfg, steps);
    var job, v := w.jobs[j], |w.jobs[j].history| - 1;
    assert JobOk(job, w.now);
    JobShape(job, w.now);
    k := VersionsAreStamped(cfg, steps, j, v);
    hide Run, JobOk, IsPath, Phases, Total, Int32, PodNames.Plan, Labelled;
    assert Run(cfg, steps[..k + 1]).jobs[j].history == job.history;
    assert IsNow(job.Last().completedAt, Run(cfg, steps[..k]).now);
  }
}
