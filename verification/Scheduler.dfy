/**
 `DefaultScheduler` itself (core/scheduler/scheduler.go). Its methods are run against an environment that answers
 every adapter call and, between any two atomic actions, lets other calls and goroutines take any steps they like.
 `trace` records the steps taken; `Valid` says that the object's state is the one those steps lead to, so every
 theorem about runs holds of it.
 */
module Scheduler {
  import opened Lifecycle
  import opened AgentStreams
  import opened SchedulerModel
  import opened SchedulerProofs
  import FanIn
  import opened SchedulerTurns
  import SchedulerTheorems

  datatype Error = SpawnError | WatchError | AlreadyScheduled | InvalidTransition | JobNotFound | TerminateError

  /** What a receive on the results channel finds. */
  datatype Received = Event(ev: EventType) | Closed | NothingYet

  /** What nobody else can change under a goroutine's feet. */
  ghost predicate Undisturbed(me: Caller, w: World, w': World) {
    match me
    case Scheduling(a) => a < |w.attempts| ==> a < |w'.attempts| && w'.attempts[a] == w.attempts[a]
    case Cancelling(c) => c < |w.cancels| ==> c < |w'.cancels| && w'.cancels[c] == w.cancels[c]
    case Watching(id) => id in w.watchers ==>
      && id in w'.watchers && w'.watchers[id].wrote == w.watchers[id].wrote
      && w'.watchers[id].fan.received == w.watchers[id].fan.received
      && w'.watchers[id].fan.returned == w.watchers[id].fan.returned
      && |w'.watchers[id].fan.streams| == |w.watchers[id].fan.streams|
  }

  lemma ForeignToSchedule(s: Sys, step: Step, a: nat)
    requires !Owns(Scheduling(a), step)
    ensures Undisturbed(Scheduling(a), s.world, Next(s, step).world)
  {
    hide Transition, FanIn.Next, FanIn.Start;
  }

  lemma ForeignToCancel(s: Sys, step: Step, c: nat)
    requires !Owns(Cancelling(c), step)
    ensures Undisturbed(Cancelling(c), s.world, Next(s, step).world)
  {
    hide Transition, FanIn.Next, FanIn.Start;
  }

  lemma ForeignToWatch(s: Sys, step: Step, id: string)
    requires JobsOk(s.jobs, s.world.watchers, s.world.history) && !Owns(Watching(id), step)
    ensures Undisturbed(Watching(id), s.world, Next(s, step).world)
  {
    hide Transition, FanIn.Start, JobOk, FanIn.Next, Contract;
    if !step.Fan? && !step.WriteVerdict? && !step.Commit? {
      WatchersUntouched(s, step);
      hide Next;
    }
    if step.Fan? && step.id in s.world.watchers {
      ForeignMove(s.world.watchers[step.id].fan, step.move);
    }
  }

  lemma WatchersUntouched(s: Sys, step: Step)
    requires !step.Fan? && !step.WriteVerdict? && !step.Commit?
    ensures Next(s, step).world.watchers == s.world.watchers
  {
    hide Transition;
  }

  lemma ForeignMove(f: FanIn.State, move: FanIn.Step)
    ensures |FanIn.Next(f, move).streams| == |f.streams|
    ensures move != FanIn.Receive ==>
            FanIn.Next(f, move).received == f.received && FanIn.Next(f, move).returned == f.returned
  {
  }

  lemma ForeignStep(s: Sys, step: Step, me: Caller)
    requires Inv(s) && !Owns(me, step)
    ensures Undisturbed(me, s.world, Next(s, step).world)
  {
    hide Undisturbed, Owns, Next;
    match me
    case Scheduling(a) => ForeignToSchedule(s, step, a);
    case Cancelling(c) => ForeignToCancel(s, step, c);
    case Watching(id) => ForeignToWatch(s, step, id);
  }

  // ------------------------------------------------- what a Schedule call's run looks like

  function CallsMade(t: Attempt, err: Option<Error>): nat {
    match err
    case Some(SpawnError) => |t.agents| + 1
    case Some(WatchError) => t.job.roles + t.watched + 1
    case _ => 2 * t.job.roles + 1
  }

  /** The adapter's calls in order, each with the answer the adapter gives for that agent, up to the first error; then
      the section under the mutex; then, if it rejects the job, a TerminateAgent for every agent. */
  ghost predicate ScheduleTrace(before: seq<Step>, trace: seq<Step>, t: Attempt, a: nat, spawns: nat -> Option<AgentId>,
                                watches: nat -> bool, terminates: nat -> bool, others: nat -> seq<Step>,
                                err: Option<Error>) {
    var calls, n := ScheduleCalls(a, t.job.roles, spawns, watches), CallsMade(t, err);
    var cleanUp := if err in {Some(AlreadyScheduled), Some(InvalidTransition)} then
                     Interleaved(Scheduling(a), others, Rejections(a, t.job.roles, terminates)) else [];
    && n <= |calls|
    && trace == before + [CallSchedule(t.job)] + Interleaved(Scheduling(a), others, calls[..n]) + cleanUp
  }

  lemma ScheduleRan(before: seq<Step>, trace: seq<Step>, t: Attempt, a: nat, spawns: nat -> Option<AgentId>,
                    watches: nat -> bool, terminates: nat -> bool, others: nat -> seq<Step>, err: Option<Error>,
                    cleanUp: seq<Step>)
    requires var calls, n := ScheduleCalls(a, t.job.roles, spawns, watches), CallsMade(t, err);
             && n <= |calls|
             && trace == before + [CallSchedule(t.job)] + Interleaved(Scheduling(a), others, calls[..n]) + cleanUp
    requires cleanUp == if err in {Some(AlreadyScheduled), Some(InvalidTransition)} then
                          Interleaved(Scheduling(a), others, Rejections(a, t.job.roles, terminates)) else []
    ensures ScheduleTrace(before, trace, t, a, spawns, watches, terminates, others, err)
  {
    hide Interleaved;
  }

  /** At the last step of the trace the adapter refused to spawn agent k, or its answer was a name in use. */
  ghost predicate SpawnRefused(reuse: bool, trace: seq<Step>, spawns: nat -> Option<AgentId>, k: nat) {
    && trace != []
    && var w := SchedulerTheorems.Run(reuse, trace[..|trace| - 1]).world;
    match spawns(k)
    case None => true
    case Some(id) => id in w.spawned && !(w.reuse && id in w.gone)
  }

  /** Step m is the section under the mutex, and decides by the jobs it finds. */
  ghost predicate DecidedAt(reuse: bool, trace: seq<Step>, m: nat, a: nat, t: Attempt, err: Option<Error>)
    requires m < |trace|
  {
    var found := SchedulerTheorems.Run(reuse, trace[..m]).jobs;
    && trace[m] == Commit(a)
    && (err == Some(AlreadyScheduled) <==> t.job.id in found)
    && (err == Some(InvalidTransition) <==> t.job.id !in found && t.job.phase !in {Unset, Pending})
    && SchedulerTheorems.Run(reuse, trace[..m + 1]).jobs ==
         if err != None then found
         else found[t.job.id := SchedulerModel.Record(t.job.(phase := Running), t.agents, a, false)]
  }

  ghost predicate Decided(reuse: bool, from: seq<Step>, trace: seq<Step>, a: nat, t: Attempt, err: Option<Error>) {
    exists m :: |from| <= m < |trace| && DecidedAt(reuse, trace, m, a, t, err)
  }

  /** A TerminateAgent for each agent in order, each with the answer the adapter gives for it, up to the first error;
      then the second section under the mutex. */
  ghost predicate CancelTrace(before: seq<Step>, trace: seq<Step>, t: CancelCall, c: nat, terminates: nat -> bool,
                              others: nat -> seq<Step>, err: Option<Error>) {
    var me, start := Cancelling(c), before + [CallCancel(t.id)];
    match err
    case Some(JobNotFound) => trace == start
    case Some(TerminateError) =>
      && t.at.TerminateFailed?
      && trace == start + Interleaved(me, others, Terminations(c, t.at.next + 1, terminates))
    case _ =>
      var n := |t.agents|;
      trace == start + Interleaved(me, others, Terminations(c, n, terminates)) + Foreign(me, others(n))
          + [CommitCancel(c)]
  }

  lemma CancelRan(before: seq<Step>, trace: seq<Step>, t: CancelCall, c: nat, terminates: nat -> bool,
                  others: nat -> seq<Step>, err: Option<Error>)
    requires err in {None, Some(InvalidTransition), Some(TerminateError)}
    requires var start, n := before + [CallCancel(t.id)], |t.agents|;
             if err == Some(TerminateError) then
               && t.at.TerminateFailed?
               && trace == start + Interleaved(Cancelling(c), others, Terminations(c, t.at.next + 1, terminates))
             else
               trace == start + Interleaved(Cancelling(c), others, Terminations(c, n, terminates))
                        + Foreign(Cancelling(c), others(n)) + [CommitCancel(c)]
    ensures CancelTrace(before, trace, t, c, terminates, others, err)
  {
    hide Interleaved, Foreign, Terminations;
  }

  /** The last step is the second section of Cancel, refused exactly if it finds the job Terminating; nothing else has
      changed. */
  ghost predicate Concluded(reuse: bool, trace: seq<Step>, c: nat, id: string, err: Option<Error>) {
    && trace != [] && trace[|trace| - 1] == CommitCancel(c)
    && var found := SchedulerTheorems.Run(reuse, trace[..|trace| - 1]).jobs;
    && id in found
    && (err == Some(InvalidTransition) <==> found[id].job.phase == Terminating)
    && SchedulerTheorems.Run(reuse, trace).jobs ==
         found[id := found[id].(job := found[id].job.(phase := Terminating), stopped := true)]
  }

  /** After m rounds every agent's event was in the channel or counted, and there are rounds enough for those in the
      channel. */
  ghost predicate ArrivedBy(reuse: bool, start: seq<Step>, id: string, others: nat -> seq<Step>, m: nat, rounds: nat) {
    var w := WatchRun(reuse, start, id, others, m).world;
    && id in w.watchers
    && |w.watchers[id].fan.received| + |w.watchers[id].fan.buffer| >= |w.watchers[id].fan.streams|
    && m + |w.watchers[id].fan.buffer| <= rounds
  }

  /** The last step is the final section of watchJob: a Terminating phase is kept, a running job gets its verdict. */
  ghost predicate Written(reuse: bool, trace: seq<Step>, id: string) {
    && trace != [] && trace[|trace| - 1] == WriteVerdict(id)
    && var s := SchedulerTheorems.Run(reuse, trace[..|trace| - 1]);
    && id in s.jobs && id in s.world.watchers
    && SchedulerTheorems.Run(reuse, trace).jobs ==
         if s.jobs[id].job.phase == Terminating then s.jobs
         else
           var verdict := if EventType.Failed in s.world.watchers[id].fan.received then Phase.Failed
               else Phase.Succeeded;
           s.jobs[id := s.jobs[id].(job := s.jobs[id].job.(phase := verdict))]
  }

  class DefaultScheduler {
    var jobs: map<string, Record>
    var world: World
    const reuse: bool
    ghost var trace: seq<Step>

    ghost predicate Valid()
      reads this
    {
      Sys(jobs, world) == SchedulerTheorems.Run(reuse, trace)
    }

    constructor (reuse: bool)
      ensures Valid() && jobs == map[] && trace == []
    {
      this.reuse := reuse;
      jobs := map[];
      world := Init(reuse).world;
      trace := [];
    }

    /** Appends one step to the trace; the caller has just carried it out. */
    ghost method Record(step: Step, before: Sys)
      requires before == SchedulerTheorems.Run(reuse, trace) && Sys(jobs, world) == Next(before, step)
      modifies this`trace
      ensures Valid() && trace == old(trace) + [step]
    {
      trace := trace + [step];
      assert trace[..|trace| - 1] == old(trace);
    }

    /** Everyone else's turn. */
    method Others(steps: seq<Step>, me: Caller)
      requires Valid()
      modifies this
      ensures Valid() && trace == old(trace) + Foreign(me, steps) && Undisturbed(me, old(world), world)
    {
      hide SchedulerTheorems.Run, Next;
      for k := 0 to |steps|
        invariant Valid() && trace == old(trace) + Foreign(me, steps[..k]) && Undisturbed(me, old(world), world)
      {
        assert steps[..k + 1][..k] == steps[..k];
        if !Owns(me, steps[k]) {
          ghost var before := Sys(jobs, world);
          var next := Next(Sys(jobs, world), steps[k]);
          SchedulerTheorems.RunInv(reuse, trace);
          ForeignStep(before, steps[k], me);
          jobs, world := next.jobs, next.world;
          Record(steps[k], before);
        }
      }
      assert steps[..|steps|] == steps;
    }

    // ------------------------------------------------------ the adapter's calls

    method SpawnAgent(a: nat, answer: Option<AgentId>) returns (id: Option<AgentId>)
      requires Valid() && a < |world.attempts| && world.attempts[a].at == Open
      requires |world.attempts[a].agents| < world.attempts[a].job.roles
      modifies this
      ensures Valid() && trace == old(trace) + [Spawn(a, answer)] && trace[..|trace| - 1] == old(trace)
      ensures id == if answer.Some? && IsAvailable(old(world), answer.value) then answer else None
      ensures |world.attempts| == |old(world).attempts|
      ensures world.attempts[a] == var t := old(world).attempts[a];
                if id.Some? then t.(agents := t.agents + [id.value]) else t.(at := Abandoned)
    {
      hide SchedulerTheorems.Run;
      ghost var before := Sys(jobs, world);
      id := if answer.Some? && IsAvailable(world, answer.value) then answer else None;
      world := DoSpawn(world, a, answer);
      Record(Spawn(a, answer), before);
    }

    method WatchAgent(a: nat, ok: bool)
      requires Valid() && a < |world.attempts| && world.attempts[a].at == Open
      requires world.attempts[a].watched < |world.attempts[a].agents| == world.attempts[a].job.roles
      modifies this
      ensures Valid() && trace == old(trace) + [Watch(a, ok)]
      ensures |world.attempts| == |old(world).attempts|
      ensures world.attempts[a] == var t := old(world).attempts[a];
                if ok then t.(watched := t.watched + 1) else t.(at := Abandoned)
    {
      hide SchedulerTheorems.Run;
      ghost var before := Sys(jobs, world);
      world := DoWatch(world, a, ok);
      Record(Watch(a, ok), before);
    }

    /** The clean-up of a rejected attempt: TerminateAgent on every agent, errors ignored. */
    method TerminateAll(a: nat, terminates: nat -> bool, others: nat -> seq<Step>)
      requires Valid() && a < |world.attempts| && world.attempts[a].at.Rejecting? && world.attempts[a].at.next == 0
      modifies this
      ensures Valid() && a < |world.attempts|
      ensures var n := |old(world).attempts[a].agents|;
              trace == old(trace) + Interleaved(Scheduling(a), others, Rejections(a, n, terminates))
      ensures world.attempts[a] == var t := old(world).attempts[a]; t.(at := Rejecting(|t.agents|, t.at.reason))
    {
      hide SchedulerTheorems.Run, Interleaved, Foreign;
      ghost var own := Rejections(a, |world.attempts[a].agents|, terminates);
      NoTurn(Scheduling(a), others, own);
      var agentIDs := world.attempts[a].agents;
      ghost var t := world.attempts[a];
      for k := 0 to |agentIDs|
        invariant Valid() && trace == old(trace) + Interleaved(Scheduling(a), others, own[..k])
        invariant a < |world.attempts| && world.attempts[a] == t.(at := Rejecting(k, t.at.reason))
      {
        NextTurn(old(trace), Scheduling(a), others, own, k);
        Others(others(k), Scheduling(a));
        ghost var before := Sys(jobs, world);
        world := DoReject(world, a, terminates(k));
        Record(Reject(a, terminates(k)), before);
      }
      assert own[..|own|] == own;
    }

    /** The loop of Cancel: TerminateAgent on every agent, up to the first error. */
    method StopAgents(c: nat, terminates: nat -> bool, others: nat -> seq<Step>) returns (ok: bool)
      requires Valid() && c < |world.cancels| && world.cancels[c].at == Stopping(0)
      modifies this
      ensures Valid() && c < |world.cancels|
      ensures ok <==> forall k: nat :: k < |old(world).cancels[c].agents| ==> terminates(k)
      ensures var t := old(world).cancels[c];
              if ok then world.cancels[c] == t.(at := Stopping(|t.agents|))
              else && world.cancels[c].at.TerminateFailed? && world.cancels[c] == t.(at := world.cancels[c].at)
                   && var n := world.cancels[c].at.next;
                   n < |t.agents| && !terminates(n) && forall k: nat :: k < n ==> terminates(k)
      ensures var n := if ok then |old(world).cancels[c].agents| else world.cancels[c].at.next + 1;
              trace == old(trace) + Interleaved(Cancelling(c), others, Terminations(c, n, terminates))
    {
      hide SchedulerTheorems.Run, Owns, Interleaved, Foreign;
      ghost var own := Terminations(c, |world.cancels[c].agents|, terminates);
      NoTurn(Cancelling(c), others, own);
      var agentIDs := world.cancels[c].agents;
      ghost var t := world.cancels[c];
      for k := 0 to |agentIDs|
        invariant Valid() && trace == old(trace) + Interleaved(Cancelling(c), others, own[..k])
        invariant c < |world.cancels|
        invariant world.cancels[c] == t.(at := Stopping(k)) && forall i: nat :: i < k ==> terminates(i)
      {
        NextTurn(old(trace), Cancelling(c), others, own, k);
        Others(others(k), Cancelling(c));
        ghost var before := Sys(jobs, world);
        world := DoTerminate(world, c, terminates(k));
        Record(Terminate(c, terminates(k)), before);
        if !terminates(k) {
          assert own[..k + 1] == Terminations(c, k + 1, terminates);
          return false;
        }
      }
      assert own[..|own|] == own;
      return true;
    }

    // ------------------------------------------- the sections under the mutex

    /** Lines 71-108 of Schedule. */
    method Admit(a: nat) returns (err: Option<Error>)
      requires Valid() && ReadyToCommit(world, a)
      modifies this
      ensures Valid() && trace == old(trace) + [Commit(a)] && |world.attempts| == |old(world).attempts|
      ensures err in {None, Some(AlreadyScheduled), Some(InvalidTransition)}
      ensures var t := old(world).attempts[a];
              && world.attempts[a] == t.(at := if err == None then Recorded
                                               else Rejecting(0, if err == Some(AlreadyScheduled) then Duplicate
                                                   else IllegalPhase))
              && (err == Some(AlreadyScheduled) <==> t.job.id in old(jobs))
              && (err == Some(InvalidTransition) <==> t.job.id !in old(jobs) && t.job.phase !in {Unset, Pending})
              && jobs == if err == None then
                   old(jobs)[t.job.id := SchedulerModel.Record(t.job.(phase := Running), t.agents, a, false)]
                       else old(jobs)
    {
      hide SchedulerTheorems.Run, Transition, FanIn.Start;
      ghost var before := Sys(jobs, world);
      var me := world.attempts[a];
      var job := me.job;
      if job.id in jobs {
        world := world.(attempts := world.attempts[a := me.(at := Rejecting(0, Duplicate))]);
        Record(Commit(a), before);
        return Some(AlreadyScheduled);
      }
      var phase := job.phase;
      if phase == Unset {
        phase := Pending;
      }
      var next := Transition(phase, Spawned);
      SpawnedEdge(phase);
      if next == None {
        world := world.(attempts := world.attempts[a := me.(at := Rejecting(0, IllegalPhase))]);
        Record(Commit(a), before);
        return Some(InvalidTransition);
      }
      jobs := jobs[job.id := SchedulerModel.Record(job.(phase := next.value), me.agents, a, false)];
      world := world.(attempts := world.attempts[a := me.(at := Recorded)],
                      watchers := world.watchers[job.id := Watcher(FanIn.Start(|me.agents|, 1), false)],
                      history := world.history[job.id := [phase, next.value]]);
      Record(Commit(a), before);
      return None;
    }

    /** Lines 115-124 of Cancel: a new Cancel call, with a copy of the job's agents if there is such a job. */
    method Find(id: string) returns (found: bool)
      requires Valid()
      modifies this
      ensures Valid() && trace == old(trace) + [CallCancel(id)] && jobs == old(jobs)
      ensures found <==> id in jobs
      ensures var t := if found then CancelCall(id, jobs[id].agents, Stopping(0)) else CancelCall(id, [], NoSuchJob);
              world == old(world).(cancels := old(world).cancels + [t])
    {
      hide SchedulerTheorems.Run;
      ghost var before := Sys(jobs, world);
      found := id in jobs;
      if found {
        var agentIDs := jobs[id].agents;
        world := world.(cancels := world.cancels + [CancelCall(id, agentIDs, Stopping(0))]);
      } else {
        world := world.(cancels := world.cancels + [CancelCall(id, [], NoSuchJob)]);
      }
      Record(CallCancel(id), before);
    }

    /** Lines 134-149 of Cancel. */
    method FinishCancel(c: nat) returns (err: Option<Error>)
      requires Valid() && ReadyToCancel(world, c)
      modifies this
      ensures Valid() && trace == old(trace) + [CommitCancel(c)] && |world.cancels| == |old(world).cancels|
      ensures Concluded(reuse, trace, c, old(world).cancels[c].id, err)
      ensures err in {None, Some(InvalidTransition)}
      ensures var t := old(world).cancels[c];
              && world.cancels[c] == t.(at := if err == None then Done else Refused)
              && t.id in old(jobs)
              && (err == Some(InvalidTransition) <==> old(jobs)[t.id].job.phase == Terminating)
              && jobs == old(jobs)[t.id := SetPhase(old(jobs)[t.id].(stopped := true), Terminating)]
    {
      hide SchedulerTheorems.Run, Transition, AttemptsOk, RecordsOk, JobsOk, CancelsOk, JobOk;
      ghost var before := Sys(jobs, world);
      SchedulerTheorems.RunInv(reuse, trace);
      CancelCallOk(before, c);
      var id := world.cancels[c].id;
      RunningOrDone(before, id);
      if id !in jobs {
        assert false;  // the "already removed" branch: records are never removed
      }
      var rec := jobs[id].(stopped := true);
      var next := Transition(rec.job.phase, Cancelled);
      if next == None {
        jobs := jobs[id := rec];
        world := world.(cancels := world.cancels[c := world.cancels[c].(at := Refused)]);
        Record(CommitCancel(c), before);
        return Some(InvalidTransition);
      }
      jobs := jobs[id := SetPhase(rec, next.value)];
      world := world.(history := Remember(world, id, next.value),
          cancels := world.cancels[c := world.cancels[c].(at := Done)]);
      Record(CommitCancel(c), before);
      return None;
    }

    /** Lines 208-221 of watchJob. */
    method FinishWatch(id: string, failed: nat)
      requires Valid() && ReadyToWrite(world, id) && failed == world.watchers[id].fan.Failures()
      modifies this
      ensures Valid() && trace == old(trace) + [WriteVerdict(id)]
      ensures id in world.watchers && world.watchers[id] == old(world).watchers[id].(wrote := true)
      ensures id in old(jobs) && id in jobs
      ensures jobs == old(jobs)[id := if old(jobs)[id].job.phase == Terminating then old(jobs)[id]
                                      else SetPhase(old(jobs)[id], if failed > 0 then Phase.Failed
                                          else Phase.Succeeded)]
    {
      hide SchedulerTheorems.Run, AttemptsOk, RecordsOk, JobsOk, CancelsOk, JobOk;
      ghost var before := Sys(jobs, world);
      SchedulerTheorems.RunInv(reuse, trace);
      WatchersAreRecorded(before, id);
      JobIsOk(before, id);
      WrittenJobOk(jobs[id], world.watchers[id], world.history[id]);
      world := world.(watchers := world.watchers[id := world.watchers[id].(wrote := true)]);
      if id !in jobs {
        assert false;  // likewise
      }
      var rec := jobs[id];
      if rec.job.phase != Terminating && !rec.job.phase.IsTerminal() {
        var phase := if failed > 0 then Phase.Failed else Phase.Succeeded;
        jobs := jobs[id := SetPhase(rec, phase)];
        world := world.(history := Remember(world, id, phase));
      }
      Record(WriteVerdict(id), before);
    }

    // --------------------------------------------------------- the scheduler

    /** The first loop of Schedule: SpawnAgent for every role, up to the first error. */
    method SpawnAll(a: nat, job: Job, spawns: nat -> Option<AgentId>, ghost watches: nat -> bool,
                    others: nat -> seq<Step>)
      returns (ok: bool, agentIDs: seq<AgentId>)
      requires Valid() && a < |world.attempts| && world.attempts[a] == Attempt(job, [], 0, Open)
      modifies this
      ensures Valid() && a < |world.attempts|
      ensures world.attempts[a] == Attempt(job, agentIDs, 0, if ok then Open else Abandoned)
      ensures forall k: nat :: k < |agentIDs| ==> spawns(k) == Some(agentIDs[k])
      ensures if ok then |agentIDs| == job.roles
              else |agentIDs| < job.roles && SpawnRefused(reuse, trace, spawns, |agentIDs|)
      ensures var n := if ok then job.roles else |agentIDs| + 1;
              trace == old(trace) + Interleaved(Scheduling(a), others,
                  ScheduleCalls(a, job.roles, spawns, watches)[..n])
    {
      hide SchedulerTheorems.Run, Interleaved, Foreign, Owns;
      ghost var me, own := Scheduling(a), ScheduleCalls(a, job.roles, spawns, watches);
      NoTurn(me, others, own);
      agentIDs := [];
      for k := 0 to job.roles
        invariant Valid() && trace == old(trace) + Interleaved(me, others, own[..k]) && a < |world.attempts|
        invariant |agentIDs| == k && world.attempts[a] == Attempt(job, agentIDs, 0, Open)
        invariant forall i: nat :: i < k ==> spawns(i) == Some(agentIDs[i])
      {
        NextTurn(old(trace), me, others, own, k);
        Others(others(k), Scheduling(a));
        ghost var waiting := Sys(jobs, world);
        var id := SpawnAgent(a, spawns(k));
        if id == None {
          assert SchedulerTheorems.Run(reuse, trace[..|trace| - 1]) == waiting;
          return false, agentIDs;
        }
        agentIDs := agentIDs + [id.value];
      }
      ok := true;
    }

    /** The second: WatchAgent on every agent, up to the first error. */
    method WatchAll(a: nat, job: Job, agentIDs: seq<AgentId>, ghost spawns: nat -> Option<AgentId>,
                    watches: nat -> bool, others: nat -> seq<Step>, ghost start: seq<Step>)
      returns (ok: bool)
      requires Valid() && a < |world.attempts| && world.attempts[a] == Attempt(job, agentIDs, 0, Open)
      requires |agentIDs| == job.roles
      requires trace == start + Interleaved(Scheduling(a), others, ScheduleCalls(a, job.roles, spawns,
                   watches)[..job.roles])
      modifies this
      ensures Valid() && a < |world.attempts|
      ensures ok <==> forall k: nat :: k < job.roles ==> watches(k)
      ensures var t := world.attempts[a];
              && t.watched <= job.roles && (!ok ==> t.watched < job.roles)
              && t == Attempt(job, agentIDs, if ok then job.roles else t.watched, if ok then Open else Abandoned)
              && var n := if ok then 2 * job.roles else job.roles + t.watched + 1;
              trace == start + Interleaved(Scheduling(a), others, ScheduleCalls(a, job.roles, spawns, watches)[..n])
    {
      hide SchedulerTheorems.Run, Interleaved, Foreign, Owns;
      ghost var me, own := Scheduling(a), ScheduleCalls(a, job.roles, spawns, watches);
      for k := 0 to |agentIDs|
        invariant Valid() && trace == start + Interleaved(me, others, own[..job.roles + k]) && a < |world.attempts|
        invariant world.attempts[a] == Attempt(job, agentIDs, k, Open)
        invariant forall i: nat :: i < k ==> watches(i)
      {
        NextTurn(start, me, others, own, job.roles + k);
        Others(others(job.roles + k), Scheduling(a));
        WatchAgent(a, watches(k));
        if !watches(k) {
          return false;
        }
      }
      ok := true;
    }

    /** The rest of it: the section under the mutex and, if that rejects the job, the clean-up. */
    method Settle(a: nat, terminates: nat -> bool, others: nat -> seq<Step>, ghost spawns: nat -> Option<AgentId>,
                  ghost watches: nat -> bool, ghost start: seq<Step>)
      returns (err: Option<Error>, ghost m: nat, ghost cleanUp: seq<Step>)
      requires Valid() && ReadyToCommit(world, a)
      requires var n := world.attempts[a].job.roles;
               trace == start + Interleaved(Scheduling(a), others, ScheduleCalls(a, n, spawns, watches)[..2 * n])
      modifies this
      ensures Valid() && a < |world.attempts| && err in {None, Some(AlreadyScheduled), Some(InvalidTransition)}
      ensures var n := old(world).attempts[a].job.roles;
              && cleanUp == (if err == None then []
                             else Interleaved(Scheduling(a), others, Rejections(a, n, terminates)))
              && trace == start + Interleaved(Scheduling(a), others, ScheduleCalls(a, n, spawns, watches)[..2 * n + 1])
                   + cleanUp
      ensures |old(trace)| <= m < |trace| && DecidedAt(reuse, trace, m, a, world.attempts[a], err)
      ensures world.attempts[a] == old(world).attempts[a].(at := match err
                case None => Recorded
                case Some(AlreadyScheduled) => Rejecting(world.attempts[a].job.roles, Duplicate)
                case Some(_) => Rejecting(world.attempts[a].job.roles, IllegalPhase))
      ensures var t := world.attempts[a];
              err == None ==>
                && t.job.id in jobs
                && jobs[t.job.id] == SchedulerModel.Record(t.job.(phase := Running), t.agents, a, false)
    {
      hide SchedulerTheorems.Run, Transition, FanIn.Start, Interleaved, Foreign, Owns;
      var n := world.attempts[a].job.roles;
      ghost var own := ScheduleCalls(a, n, spawns, watches);
      NextTurn(start, Scheduling(a), others, own, 2 * n);
      assert own[..2 * n + 1] == own;
      Others(others(2 * n), Scheduling(a));
      m := |trace|;
      ghost var waiting := trace;
      err := Admit(a);
      ghost var admitted := trace;
      cleanUp := [];
      assert admitted[..m] == waiting && admitted[..m + 1] == admitted;
      if err != None {
        TerminateAll(a, terminates, others);
        cleanUp := Interleaved(Scheduling(a), others, Rejections(a, n, terminates));
        assert trace[..m] == admitted[..m] && trace[..m + 1] == admitted[..m + 1];
      }
    }

    /** Returns the number of this call, and the error if any. The call is accepted, and the job recorded as Running,
        only as the transition system allows; an error tells what became of the agents it had spawned. */
    method Schedule(job: Job, spawns: nat -> Option<AgentId>, watches: nat -> bool, terminates: nat -> bool,
                    others: nat -> seq<Step>)
      returns (a: nat, err: Option<Error>)
      requires Valid()
      modifies this
      ensures Valid() && a < |world.attempts| && world.attempts[a].job == job
      ensures ScheduleTrace(old(trace), trace, world.attempts[a], a, spawns, watches, terminates, others, err)
      ensures err == None <==> world.attempts[a].at == Recorded
      ensures err == None ==>
              job.id in jobs && jobs[job.id] == SchedulerModel.Record(job.(phase := Running), world.attempts[a].agents,
                  a, false)
      ensures err == Some(SpawnError) ==>
                && SpawnRefused(reuse, trace, spawns, |world.attempts[a].agents|)
                && world.attempts[a].at == Abandoned && |world.attempts[a].agents| < job.roles
      ensures err != Some(SpawnError) ==>
                && |world.attempts[a].agents| == job.roles
                && forall k: nat :: k < job.roles ==> spawns(k) == Some(world.attempts[a].agents[k])
      ensures err == Some(WatchError) <==> err != Some(SpawnError) && exists k: nat :: k < job.roles && !watches(k)
      ensures err == Some(WatchError) ==> world.attempts[a].at == Abandoned
      ensures err in {None, Some(AlreadyScheduled), Some(InvalidTransition)} ==> Decided(reuse, old(trace), trace, a,
                  world.attempts[a], err)
      ensures err == Some(AlreadyScheduled) <==> world.attempts[a].at == Rejecting(job.roles, Duplicate)
      ensures err == Some(InvalidTransition) <==> world.attempts[a].at == Rejecting(job.roles, IllegalPhase)
    {
      hide SchedulerTheorems.Run, Transition, FanIn.Start, Interleaved, Foreign, Owns, ScheduleTrace, ScheduleCalls,
          SpawnRefused, DecidedAt;
      a := |world.attempts|;
      ghost var before := Sys(jobs, world);
      world := world.(attempts := world.attempts + [Attempt(job, [], 0, Open)]);
      Record(CallSchedule(job), before);
      ghost var start := trace;

      var spawned, agentIDs := SpawnAll(a, job, spawns, watches, others);
      if !spawned {
        err := Some(SpawnError);
        assert trace == trace + [];
        ScheduleRan(old(trace), trace, world.attempts[a], a, spawns, watches, terminates, others, err, []);
        return;
      }
      var watched := WatchAll(a, job, agentIDs, spawns, watches, others, start);
      if !watched {
        err := Some(WatchError);
        assert trace == trace + [];
        ScheduleRan(old(trace), trace, world.attempts[a], a, spawns, watches, terminates, others, err, []);
        return;
      }
      ghost var cleanUp, m;
      err, m, cleanUp := Settle(a, terminates, others, spawns, watches, start);
      ScheduleRan(old(trace), trace, world.attempts[a], a, spawns, watches, terminates, others, err, cleanUp);
    }

    /** A Cancel that returns nil has left the job Terminating; one that finds it Terminating already reports an
        invalid transition, after having terminated its agents once more. */
    method Cancel(id: string, terminates: nat -> bool, others: nat -> seq<Step>) returns (c: nat, err: Option<Error>)
      requires Valid()
      modifies this
      ensures Valid() && c < |world.cancels| && world.cancels[c].id == id
      ensures CancelTrace(old(trace), trace, world.cancels[c], c, terminates, others, err)
      ensures err == Some(JobNotFound) <==> id !in old(jobs)
      ensures err == Some(TerminateError) <==>
                id in old(jobs) && exists k: nat :: k < |old(jobs)[id].agents| && !terminates(k)
      ensures err == Some(TerminateError) ==>
                && world.cancels[c].at.TerminateFailed?
                && var n := world.cancels[c].at.next;
                n < |old(jobs)[id].agents| && !terminates(n) && forall k: nat :: k < n ==> terminates(k)
      ensures err in {None, Some(InvalidTransition)} ==> Concluded(reuse, trace, c, id, err)
      ensures err in {None, Some(InvalidTransition)} ==>
              id in jobs && jobs[id].job.phase == Terminating && jobs[id].stopped
      ensures err == None <==> world.cancels[c].at == Done
      ensures err == Some(InvalidTransition) <==> world.cancels[c].at == Refused
    {
      hide SchedulerTheorems.Run, Transition, AttemptsOk, RecordsOk, JobsOk, CancelsOk, Owns, Exec, FanIn.Start,
          FanIn.Next, Inv, Interleaved, Foreign, Concluded, Terminations;
      c := |world.cancels|;
      var found := Find(id);
      if !found {
        return c, Some(JobNotFound);
      }
      hide CancelTrace;
      var agentIDs := world.cancels[c].agents;
      var ok := StopAgents(c, terminates, others);
      if !ok {
        err := Some(TerminateError);
        CancelRan(old(trace), trace, world.cancels[c], c, terminates, others, err);
        return;
      }
      Others(others(|agentIDs|), Cancelling(c));
      err := FinishCancel(c);
      CancelRan(old(trace), trace, world.cancels[c], c, terminates, others, err);
    }

    /** One look at the results channel. */
    method Receive(id: string) returns (received: Received)
      requires Valid() && id in world.watchers && !world.watchers[id].wrote
      requires !world.watchers[id].fan.returned && !world.watchers[id].fan.Finished()
      modifies this
      ensures Valid() && trace == old(trace) + [Fan(id, FanIn.Receive)] && jobs == old(jobs)
      ensures id in world.watchers
      ensures var w, fan := old(world).watchers[id], old(world).watchers[id].fan;
              match received
              case Event(ev) =>
                && fan.buffer != [] && ev == fan.buffer[0]
                && world.watchers[id] == w.(fan := fan.(received := fan.received + [ev], buffer := fan.buffer[1..]))
              case Closed =>
                  fan.resultsClosed && fan.buffer == [] && world.watchers[id] == w.(fan := fan.(returned := true))
              case NothingYet => !fan.resultsClosed && fan.buffer == [] && world.watchers[id] == w
    {
      hide SchedulerTheorems.Run, AttemptsOk, RecordsOk, JobsOk, CancelsOk, Exec, Transition, FanIn.Start, FanIn.Inv;
      SchedulerTheorems.RunInv(reuse, trace);
      WatchersAreRecorded(Sys(jobs, world), id);
      ghost var before := Sys(jobs, world);
      var w := world.watchers[id];
      if w.fan.buffer != [] {
        var ev := w.fan.buffer[0];
        world := world.(watchers := world.watchers[id := w.(fan := w.fan.(received := w.fan.received + [ev],
            buffer := w.fan.buffer[1..]))]);
        received := Event(ev);
      } else if w.fan.resultsClosed {
        world := world.(watchers := world.watchers[id := w.(fan := w.fan.(returned := true))]);
        received := Closed;
      } else {
        world := world.(watchers := world.watchers[id := w]);
        received := NothingYet;
      }
      Record(Fan(id, FanIn.Receive), before);
    }

    /** The watch goroutine of a recorded job, for at most that many scheduling rounds; n is how many it took. It reads
        on until its count is complete or the channel is closed: if it is still waiting it has used them all, and if
        at any point every agent's event had arrived, as many further rounds as events in the channel are enough.
        When it wrote the verdict, a running job has become Succeeded or Failed by what the counted events say. */
    method WatchJob(id: string, rounds: nat, others: nat -> seq<Step>)
      returns (wrote: bool, gaveUp: bool, ghost n: nat)
      requires Valid() && id in jobs && id in world.watchers
      requires !world.watchers[id].wrote && world.watchers[id].fan.received == [] && !world.watchers[id].fan.returned
      modifies this
      ensures Valid() && id in jobs && id in world.watchers
      ensures n <= rounds && (!wrote && !gaveUp ==> n == rounds)
      ensures trace == old(trace) + Interleaved(Watching(id), others, Receives(id, n))
                       + (if wrote then [WriteVerdict(id)] else [])
      ensures forall m: nat | ArrivedBy(reuse, old(trace), id, others, m, rounds) :: wrote
      ensures wrote <==> world.watchers[id].wrote
      ensures wrote ==> Written(reuse, trace, id)
      ensures !wrote ==> !world.watchers[id].fan.Finished()
      ensures gaveUp <==> world.watchers[id].fan.returned
      ensures gaveUp ==> !wrote && jobs[id].job.phase == Terminating
    {
      hide SchedulerTheorems.Run, AttemptsOk, RecordsOk, JobsOk, CancelsOk, JobOk, Exec, Owns, Transition, FanIn.Start,
          FanIn.Inv, Interleaved, Foreign, ArrivedBy;
      var total := |world.watchers[id].fan.streams|;
      var completed, failed := 0, 0;
      wrote, gaveUp := false, false;
      ghost var start, me := trace, Watching(id);
      n := 0;
      NoTurn(me, others, Receives(id, 0));
      assert Receives(id, 0)[..0] == Receives(id, 0);
      var round := 0;
      while completed + failed < total
        invariant Valid() && round <= rounds && n == round
        invariant trace == start + Interleaved(me, others, Receives(id, n)) && id in world.watchers
        invariant total == |world.watchers[id].fan.streams| && !world.watchers[id].wrote
        invariant completed == world.watchers[id].fan.Completed() && failed == world.watchers[id].fan.Failures()
        invariant gaveUp <==> world.watchers[id].fan.returned
        invariant !gaveUp
        decreases rounds - round
      {
        if round == rounds {
          SchedulerTheorems.RunInv(reuse, trace);
          WatchersAreRecorded(Sys(jobs, world), id);
          StillWaiting(start, id, others, rounds, n);
          return;  // still waiting for an event
        }
        NextReceive(start, id, others, n);
        Others(others(round), Watching(id));
        round, n := round + 1, n + 1;
        var received := Receive(id);
        match received {
          case Event(Completed) => completed := completed + 1;
          case Event(Failed) => failed := failed + 1;
          case Event(Started) =>
          case NothingYet =>
          case Closed =>
            gaveUp := true;
            SchedulerTheorems.RunInv(reuse, trace);
            WatchersAreRecorded(Sys(jobs, world), id);
            SchedulerTheorems.GivesUpOnlyWhenCancelled(reuse, trace, id);
            StillWaiting(start, id, others, rounds, n);
            return;
        }
      }
      ghost var counted := trace;
      FinishWatch(id, failed);
      wrote := true;
      assert trace[..|trace| - 1] == counted;
    }

    /** A goroutine that has given up, or has not finished its count in all its rounds, has not had all events. */
    lemma StillWaiting(start: seq<Step>, id: string, others: nat -> seq<Step>, rounds: nat, n: nat)
      requires Valid() && n <= rounds && trace == start + Interleaved(Watching(id), others, Receives(id, n))
      requires var s := SchedulerTheorems.Run(reuse, start);
               id in s.jobs && id in s.world.watchers
      requires id in world.watchers && !world.watchers[id].fan.Finished()
      requires world.watchers[id].fan.returned || n == rounds
      ensures forall m: nat :: !ArrivedBy(reuse, start, id, others, m, rounds)
    {
      hide SchedulerTheorems.Run, Interleaved;
      forall m: nat
        ensures !ArrivedBy(reuse, start, id, others, m, rounds)
      {
        if ArrivedBy(reuse, start, id, others, m, rounds) {
          assert WatchRun(reuse, start, id, others, n) == Sys(jobs, world);
          ArrivedIsFinished(reuse, start, id, others, m, rounds);
        }
      }
    }

    /** All jobs of the tenant whose phase is not Succeeded or Failed, so Terminating ones included, each once. */
    method ListActive(tenant: string) returns (result: seq<Job>)
      requires Valid()
      ensures Lists(jobs, tenant, jobs.Keys, result)
    {
      SchedulerTheorems.RunInv(reuse, trace);
      RecordIds(jobs, world.attempts);
      result := ActiveJobs(jobs, tenant);
    }

    /** Its loop over the map, in whatever order. */
    static method ActiveJobs(jobs: map<string, Record>, tenant: string) returns (result: seq<Job>)
      requires forall id | id in jobs :: jobs[id].job.id == id
      ensures Lists(jobs, tenant, jobs.Keys, result)
    {
      result := [];
      var todo := jobs.Keys;
      while todo != {}
        invariant todo <= jobs.Keys && Lists(jobs, tenant, jobs.Keys - todo, result)
        decreases |todo|
      {
        var id :| id in todo;
        ListsOneMore(jobs, tenant, jobs.Keys - todo, result, id);
        assert jobs.Keys - (todo - {id}) == jobs.Keys - todo + {id};
        todo := todo - {id};
        if jobs[id].job.tenant == tenant && !jobs[id].job.phase.IsTerminal() {
          result := result + [jobs[id].job];
        }
      }
      assert jobs.Keys - todo == jobs.Keys;
    }
  }

  /** result lists the tenant's active jobs among these ids, each once. */
  ghost predicate Lists(jobs: map<string, Record>, tenant: string, ids: set<string>, result: seq<Job>) {
    && (forall j | j in result ::
          && j.id in ids && j.id in jobs && jobs[j.id].job == j
          && j.tenant == tenant && j.phase !in {Phase.Succeeded, Phase.Failed})
    && (forall id | id in ids && id in jobs && jobs[id].job.tenant == tenant
            && jobs[id].job.phase !in {Phase.Succeeded, Phase.Failed} :: jobs[id].job in result)
    && (forall i, k | 0 <= i < k < |result| :: result[i].id != result[k].id)
  }

  lemma ListsOneMore(jobs: map<string, Record>, tenant: string, ids: set<string>, result: seq<Job>, id: string)
    requires Lists(jobs, tenant, ids, result) && id in jobs && id !in ids && jobs[id].job.id == id
    ensures var job := jobs[id].job;
            Lists(jobs, tenant, ids + {id}, if job.tenant == tenant && !job.phase.IsTerminal() then result + [job]
                else result)
  {
    assert forall i | 0 <= i < |result| :: result[i] in result;
  }

  lemma RecordIds(jobs: map<string, Record>, attempts: seq<Attempt>)
    requires RecordsOk(jobs, attempts)
    ensures forall id | id in jobs :: jobs[id].job.id == id
  {
    forall id | id in jobs
      ensures jobs[id].job.id == id
    {
      assert RecordOk(id, jobs[id], attempts);
    }
  }

  /** A recorded job is cancellable unless it is being terminated. */
  lemma RunningOrDone(s: Sys, id: string)
    requires JobsOk(s.jobs, s.world.watchers, s.world.history) && id in s.jobs
    ensures s.jobs[id].stopped <==> s.jobs[id].job.phase == Terminating
    ensures Transition(s.jobs[id].job.phase, Cancelled) == if s.jobs[id].job.phase == Terminating then None
            else Some(Terminating)
  {
    hide Transition, WatcherOk;
    JobIsOk(s, id);
    CancelEdge(s.world.history[id], s.jobs[id].job.phase);
  }

  /** Spawned leads somewhere from Pending only. */
  lemma SpawnedEdge(phase: Phase)
    ensures Transition(phase, Spawned) == if phase == Pending then Some(Running) else None
  {
  }
}
