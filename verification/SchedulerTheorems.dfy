/** What holds in every run of the scheduler. */
module SchedulerTheorems {
  import opened Lifecycle
  import opened AgentStreams
  import opened SchedulerModel
  import opened SchedulerProofs
  import FanIn

  // ------------------------------------------------------------ the theorems

  function Run(reuse: bool, steps: seq<Step>): Sys {
    Exec(Init(reuse), steps)
  }

  lemma RunInv(reuse: bool, steps: seq<Step>)
    ensures Inv(Run(reuse, steps))
  {
    InitInv(reuse);
    ExecInv(Init(reuse), steps);
  }

  /** A Schedule call that has spawned and watches all its agents is accepted exactly when its job has not started and
      no Schedule call with the same id has ever been accepted; the record then owns exactly the agents of the call. */
  lemma AcceptedIff(reuse: bool, steps: seq<Step>, a: nat)
    requires ReadyToCommit(Run(reuse, steps).world, a)
    ensures var s := Run(reuse, steps);
            var s' := Next(s, Commit(a));
            var t, attempts := s.world.attempts[a], s.world.attempts;
            && (s'.world.attempts[a].at == Recorded <==>
                  && t.job.phase in {Unset, Pending}
                  && forall b | 0 <= b < |attempts| && attempts[b].at == Recorded :: attempts[b].job.id != t.job.id)
            && (s'.world.attempts[a].at == Recorded ==>
                  s'.jobs == s.jobs[t.job.id := Record(t.job.(phase := Running), t.agents, a, false)])
            && (s'.world.attempts[a].at != Recorded ==> s'.jobs == s.jobs && s'.world.attempts[a].at.Rejecting?)
  {
    RunInv(reuse, steps);
    var s := Run(reuse, steps);
    hide Run, Exec, AttemptsOk, JobsOk, CancelsOk, FanIn.Start;
    var t := s.world.attempts[a];
    var first := Normal(t.job.phase);
    if Transition(first, Spawned) != None {
      StartRecord(first, t, a);
    }
    if t.job.id in s.jobs {
      assert RecordOk(t.job.id, s.jobs[t.job.id], s.world.attempts);
    }
  }

  /** In every run a recorded job has walked the phase table from Pending to where it is now, and is never Pending. */
  lemma PhasesFollowTable(reuse: bool, steps: seq<Step>, j: string)
    requires j in Run(reuse, steps).jobs
    ensures var s := Run(reuse, steps);
            && j in s.world.history
            && IsPath(s.world.history[j]) && 2 <= |s.world.history[j]| <= 4
            && s.world.history[j][0] == Pending
            && s.world.history[j][|s.world.history[j]| - 1] == s.jobs[j].job.phase
            && s.jobs[j].job.phase in {Running, Phase.Succeeded, Phase.Failed, Terminating}
  {
    RunInv(reuse, steps);
    var s := Run(reuse, steps);
    hide Run, Exec, AttemptsOk, RecordsOk, JobsOk, CancelsOk, WatcherOk, IsPath;
    JobIsOk(s, j);
    PathShape(s.world.history[j]);
  }

  lemma RecordKept(s: Sys, step: Step, j: string)
    requires Inv(s) && j in s.jobs
    ensures var s' := Next(s, step);
            && j in s'.jobs && j in s.world.history && j in s'.world.history
            && s'.jobs[j].agents == s.jobs[j].agents && s'.jobs[j].maker == s.jobs[j].maker
            && s'.jobs[j].job.tenant == s.jobs[j].job.tenant
            && s.world.history[j] <= s'.world.history[j]
  {
    hide AttemptsOk, RecordsOk, CancelsOk, JobOk, FanIn.Next, FanIn.Start, Transition, Contract;
  }

  lemma {:induction false} RecordsStay(s: Sys, steps: seq<Step>, j: string)
    requires Inv(s) && j in s.jobs
    ensures var s' := Exec(s, steps);
            && j in s'.jobs && j in s.world.history && j in s'.world.history
            && s'.jobs[j].agents == s.jobs[j].agents && s'.jobs[j].maker == s.jobs[j].maker
            && s'.jobs[j].job.tenant == s.jobs[j].job.tenant
            && s.world.history[j] <= s'.world.history[j]
    decreases |steps|
  {
    JobIsOk(s, j);
    if steps != [] {
      var front := steps[..|steps| - 1];
      RecordsStay(s, front, j);
      ExecInv(s, front);
      RecordKept(Exec(s, front), steps[|steps| - 1], j);
    }
  }

  /** A record is never removed or replaced, whatever follows, and its phase history only grows. */
  lemma RecordsAreForever(reuse: bool, steps: seq<Step>, more: seq<Step>, j: string)
    requires j in Run(reuse, steps).jobs
    ensures var s, s' := Run(reuse, steps), Exec(Run(reuse, steps), more);
            && j in s'.jobs && j in s.world.history && j in s'.world.history
            && s'.jobs[j].agents == s.jobs[j].agents && s'.jobs[j].maker == s.jobs[j].maker
            && s'.jobs[j].job.tenant == s.jobs[j].job.tenant
            && s.world.history[j] <= s'.world.history[j]
  {
    RunInv(reuse, steps);
    hide Run, Exec, Inv;
    RecordsStay(Run(reuse, steps), more, j);
  }

  /** Per job id at most one Schedule and at most one Cancel ever succeed, a Cancel call never finds its record
      gone, and a job is Terminating exactly when a Cancel of it has succeeded. */
  lemma AtMostOnce(reuse: bool, steps: seq<Step>)
    ensures var w := Run(reuse, steps).world;
            && (forall a, b | 0 <= a < |w.attempts| && 0 <= b < |w.attempts|
                 && w.attempts[a].at == w.attempts[b].at == Recorded ::
                  w.attempts[a].job.id == w.attempts[b].job.id ==> a == b)
            && (forall c, d | 0 <= c < |w.cancels| && 0 <= d < |w.cancels|
                 && w.cancels[c].at == w.cancels[d].at == Done ::
                  w.cancels[c].id == w.cancels[d].id ==> c == d)
            && (forall c :: 0 <= c < |w.cancels| ==> w.cancels[c].at != Vanished)
    ensures var s := Run(reuse, steps);
            forall j | j in s.jobs :: s.jobs[j].job.phase == Terminating <==>
              exists c :: 0 <= c < |s.world.cancels| && s.world.cancels[c].at == Done && s.world.cancels[c].id == j
  {
    hide JobsOk, AttemptsOk, RecordOk;
    RunInv(reuse, steps);
    var s := Run(reuse, steps);
    assert forall c :: 0 <= c < |s.world.cancels| ==> CancelOk(s.jobs, s.world.cancels[c]);
  }

  /** The phase watchJob assigns without asking is the one the table gives. */
  lemma VerdictWriteIsTransition(reuse: bool, steps: seq<Step>, j: string)
    requires ReadyToWrite(Run(reuse, steps).world, j)
    ensures var s := Run(reuse, steps);
            && j in s.jobs && j in Next(s, WriteVerdict(j)).jobs
            && var before, after := s.jobs[j].job.phase, Next(s, WriteVerdict(j)).jobs[j].job.phase;
            && (before == Running ==>
                  Transition(before, if s.world.watchers[j].fan.AnyFailed() then AgentFailed
                      else AllComplete) == Some(after))
            && (before != Running ==> before == Terminating && after == Terminating)
  {
    hide AttemptsOk, RecordsOk, CancelsOk, JobsOk, JobOk, Transition, Exec;
    RunInv(reuse, steps);
    var s := Run(reuse, steps);
    WatchersAreRecorded(s, j);
    JobIsOk(s, j);
    WrittenJobOk(s.jobs[j], s.world.watchers[j], s.world.history[j]);
    VerdictEvent(s.world.watchers[j]);
  }

  lemma VerdictEvent(w: Watcher)
    ensures Transition(Running, if w.fan.AnyFailed() then AgentFailed else AllComplete) == Some(Verdict(w))
  {
  }

  /** End to end: a job that has had a verdict has had a report from every one of its agents; the verdict was Succeeded
      exactly if all of them Completed, and Failed exactly if one of them Failed. */
  lemma VerdictIsTheAgents(reuse: bool, steps: seq<Step>, j: string)
    requires j in Run(reuse, steps).jobs
    ensures var s := Run(reuse, steps);
            && j in s.world.history && j in s.world.watchers
            && var h, ts := s.world.history[j], s.world.watchers[j].fan.streams;
            && |ts| == |s.jobs[j].agents|
            && (Phase.Succeeded in h || Phase.Failed in h ==>
                  && (forall t | t in ts :: t.emitted == [Completed] || t.emitted == [EventType.Failed])
                  && (Phase.Succeeded in h <==> forall t | t in ts :: t.emitted == [Completed])
                  && (Phase.Failed in h <==> exists t :: t in ts && t.emitted == [EventType.Failed]))
  {
    RunInv(reuse, steps);
    var s := Run(reuse, steps);
    hide Run, Exec, AttemptsOk, RecordsOk, JobsOk, CancelsOk, FanIn.Inv, IsPath;
    JobIsOk(s, j);
    var w, h := s.world.watchers[j], s.world.history[j];
    if Phase.Succeeded in h || Phase.Failed in h {
      FanIn.VerdictIsRight(w.fan, s.jobs[j].stopped);
      forall t | t in w.fan.streams
        ensures t.emitted == [Completed] || t.emitted == [EventType.Failed]
      {
        assert Contract(t.emitted, t.closed, s.jobs[j].stopped);
        assert t.emitted[0] in t.emitted;
      }
    }
  }

  /** The stream carries what the Kubernetes polling loop sends for these polls, and likewise for Cloud Foundry. */
  ghost predicate PollsPod(t: FanIn.Stream, polls: seq<PodPoll>) {
    && (t.emitted == [Completed] <==> PodEndsWith(polls, {Found(PodSucceeded)}))
    && (t.emitted == [EventType.Failed] <==> PodEndsWith(polls, {NotFound, Found(PodFailed)}))
  }

  ghost predicate PollsTask(t: FanIn.Stream, polls: seq<TaskPoll>) {
    && (t.emitted == [Completed] <==> TaskEndsWith(polls, {Task(TaskSucceeded)}))
    && (t.emitted == [EventType.Failed] <==>
          TaskEndsWith(polls, {TaskError, Task(TaskFailed), Task(TaskCanceling)}))
  }

  /** Down to the platform: on Kubernetes a job that has had a verdict was Succeeded exactly if the polls of each agent
      ended with a pod that had succeeded, and Failed exactly if those of some agent ended with a pod that had failed or
      was gone. */
  lemma VerdictIsThePodPolls(reuse: bool, steps: seq<Step>, j: string, polls: seq<seq<PodPoll>>)
    requires j in Run(reuse, steps).jobs && j in Run(reuse, steps).world.watchers
    requires |polls| == |Run(reuse, steps).world.watchers[j].fan.streams|
    requires forall i | 0 <= i < |polls| :: PollsPod(Run(reuse, steps).world.watchers[j].fan.streams[i], polls[i])
    ensures j in Run(reuse, steps).world.history
    ensures var h := Run(reuse, steps).world.history[j];
            Phase.Succeeded in h || Phase.Failed in h ==>
              && (Phase.Succeeded in h <==>
                    forall i | 0 <= i < |polls| :: PodEndsWith(polls[i], {Found(PodSucceeded)}))
              && (Phase.Failed in h <==>
                    exists i :: 0 <= i < |polls| && PodEndsWith(polls[i], {NotFound, Found(PodFailed)}))
  {
    VerdictIsTheAgents(reuse, steps, j);
    hide Run, PodEndsWith;
    var ts := Run(reuse, steps).world.watchers[j].fan.streams;
    assert forall i | 0 <= i < |polls| :: ts[i] in ts && PollsPod(ts[i], polls[i]);
  }

  /** On Cloud Foundry likewise, a task that is being cancelled or cannot be read counting as failed. */
  lemma VerdictIsTheTaskPolls(reuse: bool, steps: seq<Step>, j: string, polls: seq<seq<TaskPoll>>)
    requires j in Run(reuse, steps).jobs && j in Run(reuse, steps).world.watchers
    requires |polls| == |Run(reuse, steps).world.watchers[j].fan.streams|
    requires forall i | 0 <= i < |polls| :: PollsTask(Run(reuse, steps).world.watchers[j].fan.streams[i], polls[i])
    ensures j in Run(reuse, steps).world.history
    ensures var h := Run(reuse, steps).world.history[j];
            Phase.Succeeded in h || Phase.Failed in h ==>
              && (Phase.Succeeded in h <==>
                    forall i | 0 <= i < |polls| :: TaskEndsWith(polls[i], {Task(TaskSucceeded)}))
              && (Phase.Failed in h <==>
                    exists i :: 0 <= i < |polls|
                      && TaskEndsWith(polls[i], {TaskError, Task(TaskFailed), Task(TaskCanceling)}))
  {
    VerdictIsTheAgents(reuse, steps, j);
    hide Run, TaskEndsWith;
    var ts := Run(reuse, steps).world.watchers[j].fan.streams;
    assert forall i | 0 <= i < |polls| :: ts[i] in ts && PollsTask(ts[i], polls[i]);
  }

  /** watchJob gives up without a verdict only for a job that a Cancel is terminating. */
  lemma GivesUpOnlyWhenCancelled(reuse: bool, steps: seq<Step>, j: string)
    requires j in Run(reuse, steps).jobs && j in Run(reuse, steps).world.watchers
    requires Run(reuse, steps).world.watchers[j].fan.returned
    ensures Run(reuse, steps).jobs[j].job.phase == Terminating
  {
    RunInv(reuse, steps);
    var s := Run(reuse, steps);
    JobIsOk(s, j);
    FanIn.ReturnsOnlyOnSilence(s.world.watchers[j].fan, s.jobs[j].stopped);
  }

  /** A running job whose agents have all reported is never stuck: some goroutine can bring its verdict nearer, or
      the verdict can be written at once. */
  lemma ReportedJobsGetTheirVerdict(reuse: bool, steps: seq<Step>, j: string) returns (step: Step)
    requires j in Run(reuse, steps).jobs && Run(reuse, steps).jobs[j].job.phase == Running
    requires j in Run(reuse, steps).world.watchers
    requires forall t | t in Run(reuse, steps).world.watchers[j].fan.streams :: t.closed && t.emitted != []
    ensures var s, s' := Run(reuse, steps), Next(Run(reuse, steps), step);
            && j in s'.jobs && j in s'.world.watchers
            && (s'.jobs[j].job.phase.IsTerminal()
                || FanIn.Nearer(s'.world.watchers[j].fan, s.world.watchers[j].fan))
  {
    hide AttemptsOk, RecordsOk, CancelsOk, JobsOk, Exec, FanIn.Inv, FanIn.Next, FanIn.Nearer, FanIn.AllKeepContract,
        HistoryOk;
    RunInv(reuse, steps);
    var s := Run(reuse, steps);
    JobIsOk(s, j);
    var w := s.world.watchers[j];
    if w.fan.Finished() {
      step := WriteVerdict(j);
    } else {
      var move := FanIn.AllReportedGetsCounted(w.fan, s.jobs[j].stopped);
      step := Fan(j, move);
    }
  }

  /** And no step of anyone takes the count of such a job further from its end. */
  lemma NothingDelaysTheVerdict(reuse: bool, steps: seq<Step>, step: Step, j: string)
    requires j in Run(reuse, steps).jobs && j in Run(reuse, steps).world.watchers
    requires forall t | t in Run(reuse, steps).world.watchers[j].fan.streams :: t.closed && t.emitted != []
    ensures var w, w' := Run(reuse, steps).world, Next(Run(reuse, steps), step).world;
            && j in w'.watchers
            && (w'.watchers[j].fan == w.watchers[j].fan || FanIn.Nearer(w'.watchers[j].fan, w.watchers[j].fan))
  {
    RunInv(reuse, steps);
    var s := Run(reuse, steps);
    hide Run, Exec;
    JobIsOk(s, j);
    RecordedOnce(s, step, j);
    if step.Fan? && step.id == j {
      hide Next, Inv, FanIn.Next, FanIn.Nearer;
      FanIn.EveryStepNears(s.world.watchers[j].fan, s.jobs[j].stopped, step.move);
    }
  }

  /** Only its own channel steps touch the fan-in of a recorded job. */
  lemma RecordedOnce(s: Sys, step: Step, j: string)
    requires j in s.jobs && j in s.world.watchers
    ensures var w, w' := s.world, Next(s, step).world;
            && j in w'.watchers
            && (w'.watchers[j].fan == w.watchers[j].fan
                || (step.Fan? && step.id == j && w'.watchers[j].fan == FanIn.Next(w.watchers[j].fan, step.move)))
  {
    hide Transition, FanIn.Next, FanIn.Start;
  }

  /** Once a Cancel has succeeded the job stays Terminating in every continuation, whichever of Cancel and
      watchJob took the lock first. */
  lemma CancelWins(reuse: bool, steps: seq<Step>, more: seq<Step>, c: nat)
    requires c < |Run(reuse, steps).world.cancels| && Run(reuse, steps).world.cancels[c].at == Done
    ensures var id := Run(reuse, steps).world.cancels[c].id;
            var s' := Exec(Run(reuse, steps), more);
            id in s'.jobs && s'.jobs[id].job.phase == Terminating
  {
    RunInv(reuse, steps);
    var s := Run(reuse, steps);
    CancelCallOk(s, c);
    var id := s.world.cancels[c].id;
    RecordsStay(s, more, id);
    ExecInv(s, more);
    var s' := Exec(s, more);
    JobIsOk(s, id);
    JobIsOk(s', id);
    var h := s.world.history[id];
    assert s'.world.history[id][|h| - 1] == Terminating;
    TerminatingIsFinal(s'.world.history[id], |h| - 1);
  }

  /** Step k is the SpawnAgent of Schedule call a that answered its i-th agent. */
  ghost predicate SpawnedBy(reuse: bool, steps: seq<Step>, k: nat, a: nat, i: nat, id: AgentId)
    requires k < |steps|
  {
    var w := Run(reuse, steps[..k]).world;
    && steps[k] == Spawn(a, Some(id)) && (id in w.spawned ==> w.reuse && id in w.gone)
    && a < |w.attempts| && w.attempts[a].at == Open && |w.attempts[a].agents| == i
  }

  /** Step k is its WatchAgent for that agent, all agents being spawned, and succeeds. */
  ghost predicate WatchedBy(reuse: bool, steps: seq<Step>, k: nat, a: nat, i: nat)
    requires k < |steps|
  {
    var w := Run(reuse, steps[..k]).world;
    && steps[k] == Watch(a, true)
    && a < |w.attempts| && w.attempts[a].at == Open && w.attempts[a].watched == i
    && |w.attempts[a].agents| == w.attempts[a].job.roles
  }

  /** How a Schedule call gets on. */
  lemma AttemptAdvances(s: Sys, step: Step, a: nat)
    requires a < |Next(s, step).world.attempts|
    ensures var t', w := Next(s, step).world.attempts[a], s.world;
            if a >= |w.attempts| then t'.agents == [] && t'.watched == 0
            else
              var t := w.attempts[a];
              && t'.job == t.job
              && (t'.agents == t.agents
                  || (exists id :: && step == Spawn(a, Some(id)) && t'.agents == t.agents + [id] && t.at == Open
                                   && (id in w.spawned ==> w.reuse && id in w.gone)))
              && (t'.watched == t.watched
                  || (step == Watch(a, true) && t'.watched == t.watched + 1 && t.at == Open
                      && |t.agents| == t.job.roles))
  {
    if step.Spawn? {
      assert Next(s, step).world == DoSpawn(s.world, step.a, step.answer);
      hide Next;
    } else if step.Watch? {
      assert Next(s, step).world == DoWatch(s.world, step.a, step.ok);
      hide Next;
    } else {
      AgentsUntouched(s, step, a);
      hide Next;
    }
  }

  lemma AgentsUntouched(s: Sys, step: Step, a: nat)
    requires !step.Spawn? && !step.Watch? && a < |Next(s, step).world.attempts|
    ensures var t', attempts := Next(s, step).world.attempts[a], s.world.attempts;
            if a >= |attempts| then t'.agents == [] && t'.watched == 0 else t' == attempts[a].(at := t'.at)
  {
    hide Transition, FanIn.Next, FanIn.Start, DoSpawn, DoWatch;
  }

  lemma {:induction false} SpawnedSoFar(reuse: bool, steps: seq<Step>, a: nat, i: nat) returns (k: nat)
    requires a < |Run(reuse, steps).world.attempts| && i < |Run(reuse, steps).world.attempts[a].agents|
    ensures k < |steps| && SpawnedBy(reuse, steps, k, a, i, Run(reuse, steps).world.attempts[a].agents[i])
    decreases |steps|
  {
    var n := |steps| - 1;
    var front := steps[..n];
    var s := Run(reuse, front);
    assert Run(reuse, steps) == Next(s, steps[n]);
    AttemptAdvances(s, steps[n], a);
    hide Next, Run;
    if i < |s.world.attempts[a].agents| {
      k := SpawnedSoFar(reuse, front, a, i);
      assert front[..k] == steps[..k];
    } else {
      k := n;
    }
  }

  lemma {:induction false} WatchedSoFar(reuse: bool, steps: seq<Step>, a: nat, i: nat) returns (k: nat)
    requires a < |Run(reuse, steps).world.attempts| && i < Run(reuse, steps).world.attempts[a].watched
    ensures k < |steps| && WatchedBy(reuse, steps, k, a, i)
    decreases |steps|
  {
    var n := |steps| - 1;
    var front := steps[..n];
    var s := Run(reuse, front);
    assert Run(reuse, steps) == Next(s, steps[n]);
    AttemptAdvances(s, steps[n], a);
    hide Next, Run;
    if i < s.world.attempts[a].watched {
      k := WatchedSoFar(reuse, front, a, i);
      assert front[..k] == steps[..k];
    } else {
      k := n;
    }
  }

  /** Before a job is recorded, its Schedule call has spawned every one of its agents, in order, and then had a
      successful WatchAgent for each. */
  lemma RecordedMeansWatched(reuse: bool, steps: seq<Step>, j: string, i: nat) returns (k: nat, l: nat)
    requires j in Run(reuse, steps).jobs && i < |Run(reuse, steps).jobs[j].agents|
    ensures var r := Run(reuse, steps).jobs[j];
            && k < |steps| && SpawnedBy(reuse, steps, k, r.maker, i, r.agents[i])
            && l < |steps| && WatchedBy(reuse, steps, l, r.maker, i)
    ensures var s := Run(reuse, steps);
            && s.jobs[j].maker < |s.world.attempts|
            && |s.jobs[j].agents| == s.world.attempts[s.jobs[j].maker].job.roles
  {
    RunInv(reuse, steps);
    var s := Run(reuse, steps);
    var a := s.jobs[j].maker;
    assert RecordOk(j, s.jobs[j], s.world.attempts) && AttemptOk(s.world.attempts[a], s.world.spawned);
    hide Run, Inv;
    k := SpawnedSoFar(reuse, steps, a, i);
    l := WatchedSoFar(reuse, steps, a, i);
  }

  /** An earlier step of the run was cancel call c's successful TerminateAgent for the i-th of these agents. */
  ghost predicate WasStopped(reuse: bool, steps: seq<Step>, c: nat, id: string, agents: seq<AgentId>, i: nat) {
    exists k :: 0 <= k < |steps| && StopsAt(reuse, steps, k, c, id, agents, i)
  }

  ghost predicate StopsAt(reuse: bool, steps: seq<Step>, k: nat, c: nat, id: string, agents: seq<AgentId>, i: nat)
    requires k < |steps|
  {
    var w := Run(reuse, steps[..k]).world;
    steps[k] == Terminate(c, true) && c < |w.cancels| && w.cancels[c] == CancelCall(id, agents, Stopping(i))
  }

  /** This step removes the agent of this name: a TerminateAgent that succeeds, or somebody outside. */
  ghost predicate Removes(s: Sys, step: Step, id: AgentId) {
    var w := s.world;
    match step
    case Terminate(c, ok) =>
      && ok && c < |w.cancels| && w.cancels[c].at.Stopping?
      && w.cancels[c].at.next < |w.cancels[c].agents| && w.cancels[c].agents[w.cancels[c].at.next] == id
    case Reject(a, ok) =>
      && ok && a < |w.attempts| && w.attempts[a].at.Rejecting?
      && w.attempts[a].at.next < |w.attempts[a].agents| && w.attempts[a].agents[w.attempts[a].at.next] == id
    case AgentLost(x) => x == id && id in w.holder
    case _ => false
  }

  /** This step spawns an agent of this name. */
  ghost predicate SpawnsName(s: Sys, step: Step, id: AgentId) {
    var w := s.world;
    && step.Spawn? && step.answer == Some(id)
    && step.a < |w.attempts| && w.attempts[step.a].at == Open
    && |w.attempts[step.a].agents| < w.attempts[step.a].job.roles
    && (id in w.spawned ==> w.reuse && id in w.gone)
  }

  ghost predicate RemovesAt(reuse: bool, steps: seq<Step>, k: nat, id: AgentId)
    requires k < |steps|
  {
    Removes(Run(reuse, steps[..k]), steps[k], id)
  }

  ghost predicate SpawnsAt(reuse: bool, steps: seq<Step>, k: nat, id: AgentId)
    requires k < |steps|
  {
    SpawnsName(Run(reuse, steps[..k]), steps[k], id)
  }

  lemma StepGone(s: Sys, step: Step, id: AgentId)
    ensures id in Next(s, step).world.gone <==> Removes(s, step, id) || (id in s.world.gone && !SpawnsName(s, step, id))
  {
    hide Transition, FanIn.Next, FanIn.Start;
  }

  /** Removed at step k, and not spawned by any later one. */
  ghost predicate LastRemoved(reuse: bool, steps: seq<Step>, id: AgentId, k: nat) {
    k < |steps| && RemovesAt(reuse, steps, k, id) && forall l | k < l < |steps| :: !SpawnsAt(reuse, steps, l, id)
  }

  /** The agent of this name has been removed since it was last spawned. */
  ghost predicate RemovedSince(reuse: bool, steps: seq<Step>, id: AgentId) {
    exists k: nat :: k < |steps| && LastRemoved(reuse, steps, id, k)
  }

  lemma OneStepMore(reuse: bool, steps: seq<Step>, id: AgentId, k: nat)
    requires k < |steps| - 1
    ensures RemovesAt(reuse, steps[..|steps| - 1], k, id) <==> RemovesAt(reuse, steps, k, id)
    ensures SpawnsAt(reuse, steps[..|steps| - 1], k, id) <==> SpawnsAt(reuse, steps, k, id)
  {
    hide Removes, SpawnsName, Run;
    assert steps[..|steps| - 1][..k] == steps[..k];
  }

  lemma LastRemovedBefore(reuse: bool, steps: seq<Step>, id: AgentId, k: nat)
    requires k < |steps| - 1
    ensures LastRemoved(reuse, steps, id, k) <==>
              LastRemoved(reuse, steps[..|steps| - 1], id, k) && !SpawnsAt(reuse, steps, |steps| - 1, id)
  {
    hide RemovesAt, SpawnsAt;
    var front := steps[..|steps| - 1];
    forall l: nat | l < |front|
      ensures RemovesAt(reuse, front, l, id) <==> RemovesAt(reuse, steps, l, id)
      ensures SpawnsAt(reuse, front, l, id) <==> SpawnsAt(reuse, steps, l, id)
    {
      OneStepMore(reuse, steps, id, l);
    }
  }

  lemma RemovedBefore(reuse: bool, steps: seq<Step>, id: AgentId)
    requires steps != []
    ensures RemovedSince(reuse, steps, id) <==>
              || RemovesAt(reuse, steps, |steps| - 1, id)
              || (RemovedSince(reuse, steps[..|steps| - 1], id) && !SpawnsAt(reuse, steps, |steps| - 1, id))
  {
    hide RemovesAt, SpawnsAt;
    var n := |steps| - 1;
    forall k: nat | k < n
      ensures LastRemoved(reuse, steps, id, k) <==>
                LastRemoved(reuse, steps[..n], id, k) && !SpawnsAt(reuse, steps, n, id)
    {
      LastRemovedBefore(reuse, steps, id, k);
    }
    assert LastRemoved(reuse, steps, id, n) <==> RemovesAt(reuse, steps, n, id);
    hide LastRemoved;
  }

  /** An agent's name is free again exactly if the agent has been removed since it was last spawned: by a TerminateAgent
      that succeeded, a failed one does not count, or by somebody outside. */
  lemma {:induction false} GoneIff(reuse: bool, steps: seq<Step>, id: AgentId)
    ensures id in Run(reuse, steps).world.gone <==> RemovedSince(reuse, steps, id)
    decreases |steps|
  {
    if steps != [] {
      var n := |steps| - 1;
      var front := steps[..n];
      GoneIff(reuse, front, id);
      StepGone(Run(reuse, front), steps[n], id);
      assert Run(reuse, steps) == Next(Run(reuse, front), steps[n]);
      hide Run, Next, Removes, SpawnsName, RemovedSince;
      RemovedBefore(reuse, steps, id);
    }
  }

  /** How a Cancel call gets on: it starts before its first agent, and each successful TerminateAgent takes it one
      further. */
  lemma CancelAdvances(s: Sys, step: Step, c: nat)
    requires c < |Next(s, step).world.cancels| && Next(s, step).world.cancels[c].at.Stopping?
    ensures var t' := Next(s, step).world.cancels[c];
            || (c >= |s.world.cancels| && t'.at.next == 0)
            || (c < |s.world.cancels| && s.world.cancels[c] == t')
            || (c < |s.world.cancels| && step == Terminate(c, true) && t'.at.next > 0
                 && s.world.cancels[c] == t'.(at := Stopping(t'.at.next - 1)))
  {
    hide Transition;
    if step.Terminate? {
      assert Next(s, step).world == DoTerminate(s.world, step.c, step.ok);
      hide Next;
    } else if !step.CallCancel? && !step.CommitCancel? {
      CancelsUntouched(s, step);
      hide Next;
    }
  }

  lemma CancelsUntouched(s: Sys, step: Step)
    requires !step.CallCancel? && !step.Terminate? && !step.CommitCancel?
    ensures Next(s, step).world.cancels == s.world.cancels
  {
    hide Transition, FanIn.Next, FanIn.Start;
  }

  lemma {:induction false} StoppedSoFar(reuse: bool, steps: seq<Step>, c: nat, i: nat)
    requires var w := Run(reuse, steps).world;
             c < |w.cancels| && w.cancels[c].at.Stopping? && i < w.cancels[c].at.next
    ensures var t := Run(reuse, steps).world.cancels[c];
            WasStopped(reuse, steps, c, t.id, t.agents, i)
    decreases |steps|
  {
    var front, n := steps[..|steps| - 1], |steps| - 1;
    var s, t' := Run(reuse, front), Run(reuse, steps).world.cancels[c];
    CancelAdvances(s, steps[n], c);
    assert steps[..n] == front;
    if s.world.cancels[c].at.next == i {
      assert StopsAt(reuse, steps, n, c, t'.id, t'.agents, i);
    } else {
      StoppedSoFar(reuse, front, c, i);
      var k :| 0 <= k < n && StopsAt(reuse, front, k, c, t'.id, t'.agents, i);
      assert front[..k] == steps[..k] && StopsAt(reuse, steps, k, c, t'.id, t'.agents, i);
    }
  }

  /** On every platform: the step that makes a job Terminating ends a Cancel call of it that has had a successful
      TerminateAgent for every agent of the job, one by one. */
  lemma TerminatingMeansStopped(reuse: bool, steps: seq<Step>, step: Step, j: string)
    requires var s, s' := Run(reuse, steps), Next(Run(reuse, steps), step);
             j in s.jobs && j in s'.jobs && s.jobs[j].job.phase != Terminating && s'.jobs[j].job.phase == Terminating
    ensures step.CommitCancel?
    ensures var agents := Run(reuse, steps).jobs[j].agents;
            forall i | 0 <= i < |agents| :: WasStopped(reuse, steps, step.c, j, agents, i)
  {
    RunInv(reuse, steps);
    var s := Run(reuse, steps);
    EndsACancel(s, step, j);
    hide Run, Next, Inv;
    forall i | 0 <= i < |s.jobs[j].agents|
      ensures WasStopped(reuse, steps, step.c, j, s.jobs[j].agents, i)
    {
      StoppedSoFar(reuse, steps, step.c, i);
    }
  }

  lemma EndsACancel(s: Sys, step: Step, j: string)
    requires Inv(s) && j in s.jobs && j in Next(s, step).jobs
    requires s.jobs[j].job.phase != Terminating && Next(s, step).jobs[j].job.phase == Terminating
    ensures step.CommitCancel? && ReadyToCancel(s.world, step.c)
    ensures s.world.cancels[step.c].id == j && s.world.cancels[step.c].agents == s.jobs[j].agents
  {
    hide AttemptsOk, RecordsOk, JobsOk, FanIn.Next, FanIn.Start;
    if step.CommitCancel? && ReadyToCancel(s.world, step.c) {
      CancelCallOk(s, step.c);
    }
  }

  /** Where the platform reuses agent names, as the Kubernetes adapter does (muto-<tenant>-<role>), this fails: a
      second Cancel of a job that is already Terminating deletes the running agent of a later job, and then returns an
      error. */
  lemma ReusedNamesBreakIsolation(first: string, later: string, pod: AgentId) returns (steps: seq<Step>)
    requires first != later
    ensures var s := Run(true, steps);
            && later in s.jobs && s.jobs[later].job.phase == Running && s.jobs[later].agents == [pod]
            && pod in s.world.gone
            && !CancelSeen(s.world.cancels, later)
            && (exists c :: 0 <= c < |s.world.cancels| && s.world.cancels[c].at == Refused)
  {
    hide Transition, Next, Exec;
    TableFacts();
    var p1, p2 := ScheduleSteps(0, Job(first, "t", 1, Unset), pod), CancelSteps(0, first);
    var p3, p4 := ScheduleSteps(1, Job(later, "t", 1, Unset), pod), CancelSteps(1, first);
    steps := p1 + p2 + p3 + p4;
    ScheduleOne(Init(true), Job(first, "t", 1, Unset), pod);
    var s1 := Exec(Init(true), p1);
    CancelOne(s1, first);
    var s2 := Exec(s1, p2);
    ScheduleOne(s2, Job(later, "t", 1, Unset), pod);
    var s3 := Exec(s2, p3);
    CancelOne(s3, first);
    ExecAppend(Init(true), p1, p2);
    ExecAppend(Init(true), p1 + p2, p3);
    ExecAppend(Init(true), p1 + p2 + p3, p4);
    assert Run(true, steps).world.cancels[1].at == Refused;
  }

  lemma TableFacts()
    ensures Transition(Running, Cancelled) == Some(Terminating)
    ensures Transition(Terminating, Cancelled) == None
  {
  }

  function ScheduleSteps(a: nat, job: Job, pod: AgentId): seq<Step> {
    [CallSchedule(job), Spawn(a, Some(pod)), Watch(a, true), Commit(a)]
  }

  function CancelSteps(c: nat, id: string): seq<Step> {
    [CallCancel(id), Terminate(c, true), CommitCancel(c)]
  }

  /** A one-role Schedule call that meets no obstacle. */
  lemma ScheduleOne(s: Sys, job: Job, pod: AgentId)
    requires job.roles == 1 && job.phase == Unset && job.id !in s.jobs && IsAvailable(s.world, pod)
    ensures var a := |s.world.attempts|;
            var s' := Exec(s, ScheduleSteps(a, job, pod));
            && s'.jobs == s.jobs[job.id := Record(job.(phase := Running), [pod], a, false)]
            && s'.world.cancels == s.world.cancels && s'.world.reuse == s.world.reuse && |s'.world.attempts| == a + 1
            && s'.world.gone == s.world.gone - {pod} && s'.world.spawned == s.world.spawned + {pod}
            && s'.world.holder == s.world.holder[pod := Place(a, 0)]
  {
    var a := |s.world.attempts|;
    var p := ScheduleSteps(a, job, pod);
    ExecFour(s, p);
    SpawnAndWatch(s, job, pod);
    RecordOne(Next(Next(Next(s, p[0]), p[1]), p[2]), a);
    hide Next, Exec;
  }

  lemma SpawnAndWatch(s: Sys, job: Job, pod: AgentId)
    requires job.roles == 1 && IsAvailable(s.world, pod)
    ensures var a, w := |s.world.attempts|, s.world;
            var s' := Next(Next(Next(s, CallSchedule(job)), Spawn(a, Some(pod))), Watch(a, true));
            && s'.jobs == s.jobs && s'.world.attempts == w.attempts + [Attempt(job, [pod], 1, Open)]
            && s'.world.cancels == w.cancels && s'.world.reuse == w.reuse
            && s'.world.gone == w.gone - {pod} && s'.world.spawned == w.spawned + {pod}
            && s'.world.holder == w.holder[pod := Place(a, 0)]
  {
    var a := |s.world.attempts|;
    var s2 := Next(Next(s, CallSchedule(job)), Spawn(a, Some(pod)));
    assert [] + [pod] == [pod] && s2.world.attempts[a] == Attempt(job, [pod], 0, Open);
    assert s2.world.attempts == s.world.attempts + [Attempt(job, [pod], 0, Open)];
  }

  lemma RecordOne(s: Sys, a: nat)
    requires ReadyToCommit(s.world, a)
    requires s.world.attempts[a].job.phase == Unset && s.world.attempts[a].job.id !in s.jobs
    ensures var t, w, w' := s.world.attempts[a], s.world, Next(s, Commit(a)).world;
            && Next(s, Commit(a)).jobs == s.jobs[t.job.id := Record(t.job.(phase := Running), t.agents, a, false)]
            && w'.cancels == w.cancels && w'.reuse == w.reuse && |w'.attempts| == |w.attempts|
            && w'.gone == w.gone && w'.spawned == w.spawned && w'.holder == w.holder
  {
    hide FanIn.Start;
    assert Transition(Pending, Spawned) == Some(Running);
  }

  /** Its first two steps. */
  lemma StopOne(s: Sys, id: string)
    requires id in s.jobs && |s.jobs[id].agents| == 1
    ensures var c, agents := |s.world.cancels|, s.jobs[id].agents;
            Next(Next(s, CallCancel(id)), Terminate(c, true)) ==
              s.(world := s.world.(cancels := s.world.cancels + [CancelCall(id, agents, Stopping(1))],
                                   sent := s.world.sent + {agents[0]}, gone := s.world.gone + {agents[0]}))
  {
  }

  /** Its last. */
  lemma EndOne(s: Sys, c: nat)
    requires ReadyToCancel(s.world, c) && s.world.cancels[c].id in s.jobs
    ensures var id := s.world.cancels[c].id;
            var rec := s.jobs[id].(stopped := true);
            var next := Transition(rec.job.phase, Cancelled);
            var w, w' := s.world, Next(s, CommitCancel(c)).world;
            && Next(s, CommitCancel(c)).jobs == s.jobs[id := if next.Some? then SetPhase(rec, next.value) else rec]
            && w'.cancels == w.cancels[c := w.cancels[c].(at := if next.Some? then Done else Refused)]
            && w'.gone == w.gone && w'.attempts == w.attempts && w'.reuse == w.reuse
            && w'.spawned == w.spawned
  {
    hide Transition;
  }

  /** A Cancel call of a one-agent job whose TerminateAgent succeeds. */
  lemma CancelOne(s: Sys, id: string)
    requires id in s.jobs && |s.jobs[id].agents| == 1
    ensures var c := |s.world.cancels|;
            var s' := Exec(s, CancelSteps(c, id));
            var rec := s.jobs[id].(stopped := true);
            var next := Transition(rec.job.phase, Cancelled);
            && s'.jobs == s.jobs[id := if next.Some? then SetPhase(rec, next.value) else rec]
            && s'.world.cancels == s.world.cancels + [CancelCall(id, s.jobs[id].agents, if next.Some? then Done
                 else Refused)]
            && s'.world.gone == s.world.gone + {s.jobs[id].agents[0]}
            && s'.world.attempts == s.world.attempts && s'.world.reuse == s.world.reuse
            && s'.world.spawned == s.world.spawned
  {
    hide Transition, Next, Exec;
    var c, p := |s.world.cancels|, CancelSteps(|s.world.cancels|, id);
    ExecThree(s, p);
    StopOne(s, id);
    EndOne(Next(Next(s, p[0]), p[1]), c);
  }

  lemma {:induction false} ExecAppend(s: Sys, p: seq<Step>, q: seq<Step>)
    ensures Exec(s, p + q) == Exec(Exec(s, p), q)
    decreases |q|
  {
    if q == [] {
      assert p + q == p;
    } else {
      assert (p + q)[..|p + q| - 1] == p + q[..|q| - 1];
      ExecAppend(s, p, q[..|q| - 1]);
    }
  }

  lemma ExecThree(s: Sys, p: seq<Step>)
    requires |p| == 3
    ensures Exec(s, p) == Next(Next(Next(s, p[0]), p[1]), p[2])
  {
    hide Next;
    assert p[..2][..1][..0] == [];
    assert Exec(s, p[..2][..1]) == Next(Exec(s, p[..2][..1][..0]), p[0]);
    assert Exec(s, p[..2]) == Next(Exec(s, p[..2][..1]), p[1]);
  }

  lemma ExecFour(s: Sys, p: seq<Step>)
    requires |p| == 4
    ensures Exec(s, p) == Next(Next(Next(Next(s, p[0]), p[1]), p[2]), p[3])
  {
    hide Next;
    ExecThree(s, p[..3]);
  }
}
