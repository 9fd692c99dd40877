/**
 Whose agents the scheduler terminates, on platforms that give every agent a fresh name and on those that reuse names. A
 TerminateAgent call strays when the agent of that name has been spawned again, by another place, since.
 */
module SchedulerIsolation {
  import opened Lifecycle
  import opened AgentStreams
  import opened SchedulerModel
  import opened SchedulerProofs
  import opened SchedulerTheorems
  import FanIn

  // ------------------------------------------------------------------ isolation

  predicate HeldByOther(holder: map<AgentId, Place>, id: AgentId, p: Place) {
    id in holder && holder[id] != p
  }

  /** The agent a step passes to TerminateAgent, and the place it means by that. */
  function Aim(s: Sys, step: Step): Option<(AgentId, Place)> {
    var w := s.world;
    match step
    case Reject(a, _) =>
      if a < |w.attempts| && w.attempts[a].at.Rejecting? && w.attempts[a].at.next < |w.attempts[a].agents| then
        Some((w.attempts[a].agents[w.attempts[a].at.next], Place(a, w.attempts[a].at.next)))
      else None
    case Terminate(c, _) =>
      if c < |w.cancels| && w.cancels[c].at.Stopping? && w.cancels[c].at.next < |w.cancels[c].agents|
          && w.cancels[c].id in s.jobs then
        Some((w.cancels[c].agents[w.cancels[c].at.next], Place(s.jobs[w.cancels[c].id].maker, w.cancels[c].at.next)))
      else None
    case _ => None
  }

  /** It terminates an agent that some other place has spawned under the same name since. */
  predicate Strays(s: Sys, step: Step) {
    var aim := Aim(s, step);
    aim.Some? && HeldByOther(s.world.holder, aim.value.0, aim.value.1)
  }

  /** No step of these strays. */
  predicate Isolated(s: Sys, steps: seq<Step>)
    decreases |steps|
  {
    steps == [] || (Isolated(s, steps[..|steps| - 1]) && !Strays(Exec(s, steps[..|steps| - 1]), steps[|steps| - 1]))
  }

  // ----------------------------------------------------- what has been passed over

  /** How many of its agents a Cancel call has terminated. */
  function Passed(t: CancelCall): nat {
    match t.at
    case Stopping(next) => next
    case TerminateFailed(next) => next
    case NoSuchJob => 0
    case _ => |t.agents|
  }

  ghost predicate CancelPassed(cancels: seq<CancelCall>, j: string, i: nat) {
    exists c :: 0 <= c < |cancels| && cancels[c].id == j && i < Passed(cancels[c])
  }

  ghost predicate IsPlace(attempts: seq<Attempt>, p: Place) {
    p.a < |attempts| && p.i < |attempts[p.a].agents|
  }

  function AgentAt(attempts: seq<Attempt>, p: Place): AgentId
    requires p.a < |attempts| && p.i < |attempts[p.a].agents|
  {
    attempts[p.a].agents[p.i]
  }

  /** The place's own call, or a Cancel of its job, has passed it over. */
  ghost predicate Spent(attempts: seq<Attempt>, cancels: seq<CancelCall>, p: Place)
    requires p.a < |attempts|
  {
    match attempts[p.a].at
    case Rejecting(next, _) => p.i < next
    case Recorded => CancelPassed(cancels, attempts[p.a].job.id, p.i)
    case _ => false
  }

  // ------------------------------------------------------ invariants of every run

  ghost predicate HolderOk(attempts: seq<Attempt>, holder: map<AgentId, Place>, spawned: set<AgentId>) {
    && holder.Keys == spawned
    && (forall id | id in holder :: IsPlace(attempts, holder[id]) && AgentAt(attempts, holder[id]) == id)
  }

  /** What a Cancel call has passed is gone, or its name has been given away. */
  ghost predicate PassedOk(jobs: map<string, Record>, cancels: seq<CancelCall>, holder: map<AgentId, Place>,
                           gone: set<AgentId>) {
    forall c, i :: 0 <= c < |cancels| && 0 <= i < Passed(cancels[c]) ==>
      PassedOne(jobs, cancels[c], i, holder, gone)
  }

  ghost predicate PassedOne(jobs: map<string, Record>, t: CancelCall, i: nat, holder: map<AgentId, Place>,
                            gone: set<AgentId>) {
    && t.id in jobs && i < |t.agents|
    && (t.agents[i] in gone || HeldByOther(holder, t.agents[i], Place(jobs[t.id].maker, i)))
  }

  /** So is what somebody outside has removed. */
  ghost predicate LostOk(attempts: seq<Attempt>, holder: map<AgentId, Place>, gone: set<AgentId>, lost: set<Place>) {
    forall p | p in lost :: LostOne(attempts, holder, gone, p)
  }

  ghost predicate LostOne(attempts: seq<Attempt>, holder: map<AgentId, Place>, gone: set<AgentId>, p: Place) {
    IsPlace(attempts, p) && (AgentAt(attempts, p) in gone || HeldByOther(holder, AgentAt(attempts, p), p))
  }

  ghost predicate BaseInv(s: Sys) {
    && HolderOk(s.world.attempts, s.world.holder, s.world.spawned)
    && PassedOk(s.jobs, s.world.cancels, s.world.holder, s.world.gone)
    && LostOk(s.world.attempts, s.world.holder, s.world.gone, s.world.lost)
  }

  // ------------------------------------------------ invariants while no step strays

  /** A place that has not been passed over, and whose agent nobody outside has removed, holds its agent's name, and
      that agent is there. */
  ghost predicate HeldOk(attempts: seq<Attempt>, cancels: seq<CancelCall>, holder: map<AgentId, Place>,
                         gone: set<AgentId>, lost: set<Place>) {
    forall p | IsPlace(attempts, p) && !Spent(attempts, cancels, p) && p !in lost :: Holds(attempts, holder, gone, p)
  }

  ghost predicate Holds(attempts: seq<Attempt>, holder: map<AgentId, Place>, gone: set<AgentId>, p: Place)
    requires IsPlace(attempts, p)
  {
    var id := AgentAt(attempts, p);
    id in holder && holder[id] == p && id !in gone
  }

  /** Why the agent at place i of attempt t may have been passed to TerminateAgent. */
  ghost predicate MayBeSent(t: Attempt, i: nat, cancels: seq<CancelCall>) {
    || (t.at.Rejecting? && i < t.at.next)
    || (t.at.Recorded? && CancelSeen(cancels, t.job.id))
  }

  ghost predicate SentOk(attempts: seq<Attempt>, cancels: seq<CancelCall>, holder: map<AgentId, Place>,
                         sent: set<AgentId>) {
    && (forall id | id in sent :: id in holder && holder[id].a < |attempts|
         && MayBeSent(attempts[holder[id].a], holder[id].i, cancels))
    && (forall id | id in holder && holder[id].a < |attempts| && attempts[holder[id].a].at.Rejecting?
         && holder[id].i < attempts[holder[id].a].at.next
          :: id in sent)
  }

  ghost predicate IsoInv(s: Sys) {
    && HeldOk(s.world.attempts, s.world.cancels, s.world.holder, s.world.gone, s.world.lost)
    && SentOk(s.world.attempts, s.world.cancels, s.world.holder, s.world.sent)
  }

  // ------------------------------------------------------------------ what steps do

  /** A step that is no effective Spawn moves no agent and no name. */
  ghost predicate SamePlaces(w: World, w': World) {
    && w'.holder == w.holder && w'.spawned == w.spawned && |w.attempts| <= |w'.attempts|
    && (forall a: nat | a < |w.attempts| :: w'.attempts[a].agents == w.attempts[a].agents)
    && (forall a: nat | |w.attempts| <= a < |w'.attempts| :: w'.attempts[a].agents == [])
  }

  lemma StaysPut(s: Sys, step: Step)
    requires !step.Spawn?
    ensures SamePlaces(s.world, Next(s, step).world)
  {
    if step.CallSchedule? || step.Watch? || step.Commit? || step.Reject? {
      hide FanIn.Start, Transition;
    } else {
      AttemptsUntouched(s, step);
      hide Next;
    }
  }

  lemma AttemptsUntouched(s: Sys, step: Step)
    requires step.CallCancel? || step.Terminate? || step.CommitCancel? || step.Fan? || step.WriteVerdict?
             || step.AgentLost?
    ensures var w, w' := s.world, Next(s, step).world;
            w'.attempts == w.attempts && w'.holder == w.holder && w'.spawned == w.spawned
  {
    if step.Fan? || step.WriteVerdict? {
      WatchingTouchesNone(s, step);
      hide Next;
    }
    hide Transition;
  }

  lemma WatchingTouchesNone(s: Sys, step: Step)
    requires step.Fan? || step.WriteVerdict?
    ensures var w, w' := s.world, Next(s, step).world;
            w'.attempts == w.attempts && w'.holder == w.holder && w'.spawned == w.spawned
  {
    hide FanIn.Next;
  }

  ghost predicate Spawns(s: Sys, step: Step) {
    && step.Spawn? && step.a < |s.world.attempts| && s.world.attempts[step.a].at == Open
    && |s.world.attempts[step.a].agents| < s.world.attempts[step.a].job.roles
    && step.answer.Some? && IsAvailable(s.world, step.answer.value)
  }

  lemma SpawnStays(s: Sys, step: Step)
    requires step.Spawn? && !Spawns(s, step)
    ensures SamePlaces(s.world, Next(s, step).world)
  {
  }

  lemma HolderStep(s: Sys, step: Step)
    requires HolderOk(s.world.attempts, s.world.holder, s.world.spawned)
    ensures var w' := Next(s, step).world;
            HolderOk(w'.attempts, w'.holder, w'.spawned)
  {
    var w, w' := s.world, Next(s, step).world;
    if Spawns(s, step) {
      assert w'.attempts[step.a].agents == w.attempts[step.a].agents + [step.answer.value];
    } else {
      if step.Spawn? { SpawnStays(s, step); } else { StaysPut(s, step); }
      hide Next;
    }
  }

  /** What a step may do to a Cancel call. */
  ghost predicate GetsOn(t: CancelCall, t': CancelCall) {
    && t'.id == t.id && t'.agents == t.agents && Passed(t) <= Passed(t') && (t'.at == NoSuchJob <==> t.at == NoSuchJob)
    && (t'.at.Stopping? ==> t.at.Stopping? && t.at.next <= t'.at.next)
    && (t'.at != t.at ==> t.at.Stopping?)
  }

  /** The records' makers, and what Cancel calls hold, stay. */
  ghost predicate Onward(s: Sys, s': Sys) {
    && |s.world.cancels| <= |s'.world.cancels|
    && (forall c: nat | c < |s.world.cancels| :: GetsOn(s.world.cancels[c], s'.world.cancels[c]))
    && (forall j | j in s.jobs :: j in s'.jobs && s'.jobs[j].maker == s.jobs[j].maker
         && s'.jobs[j].agents == s.jobs[j].agents)
  }

  ghost predicate OneGetsOn(cancels: seq<CancelCall>, cancels': seq<CancelCall>, c: nat) {
    || cancels' == cancels
    || (c < |cancels| == |cancels'| && cancels' == cancels[c := cancels'[c]] && GetsOn(cancels[c], cancels'[c]))
  }

  lemma TerminateGetsOn(s: Sys, c: nat, ok: bool)
    ensures OneGetsOn(s.world.cancels, Next(s, Terminate(c, ok)).world.cancels, c)
  {
    assert Next(s, Terminate(c, ok)).world == DoTerminate(s.world, c, ok);
    hide Next;
  }

  lemma CommitGetsOn(s: Sys, c: nat)
    requires c < |s.world.cancels| ==> CancelOk(s.jobs, s.world.cancels[c])
    ensures OneGetsOn(s.world.cancels, Next(s, CommitCancel(c)).world.cancels, c)
  {
    hide Transition;
  }

  lemma CancelsOnward(s: Sys, step: Step)
    requires CancelsOk(s.jobs, s.world.cancels)
    ensures var cancels, cancels' := s.world.cancels, Next(s, step).world.cancels;
            && |cancels| <= |cancels'|
            && forall c: nat | c < |cancels| :: GetsOn(cancels[c], cancels'[c])
  {
    if step.Terminate? || step.CommitCancel? {
      if step.c < |s.world.cancels| {
        CancelCallOk(s, step.c);
      }
      if step.Terminate? { TerminateGetsOn(s, step.c, step.ok); } else { CommitGetsOn(s, step.c); }
      hide Next;
    } else if !step.CallCancel? {
      CancelsUntouched(s, step);
      hide Next;
    }
    hide CancelsOk;
  }

  lemma GoesOnward(s: Sys, step: Step)
    requires Inv(s)
    ensures Onward(s, Next(s, step))
  {
    CancelsOnward(s, step);
    forall j | j in s.jobs
      ensures j in Next(s, step).jobs && Next(s, step).jobs[j].maker == s.jobs[j].maker
      ensures Next(s, step).jobs[j].agents == s.jobs[j].agents
    {
      RecordKept(s, step, j);
    }
    hide Next, Inv, Passed;
  }

  lemma PassedGrows(s: Sys, s': Sys, j: string, i: nat)
    requires Onward(s, s') && CancelPassed(s.world.cancels, j, i)
    ensures CancelPassed(s'.world.cancels, j, i)
  {
    hide Passed;
    var c :| 0 <= c < |s.world.cancels| && s.world.cancels[c].id == j && i < Passed(s.world.cancels[c]);
    assert s'.world.cancels[c].id == j;
  }

  /** What is passed anew: the agent a successful Terminate of a Cancel call names. */
  lemma PassesOne(s: Sys, step: Step, c: nat, i: nat)
    requires Inv(s)
    requires c < |Next(s, step).world.cancels| && i < Passed(Next(s, step).world.cancels[c])
    ensures || (c < |s.world.cancels| && i < Passed(s.world.cancels[c]))
            || (&& step == Terminate(c, true) && c < |s.world.cancels| && s.world.cancels[c].at == Stopping(i)
                && i < |s.world.cancels[c].agents|
                && Next(s, step).world.gone == s.world.gone + {s.world.cancels[c].agents[i]})
  {
    hide Inv;
    if !step.Terminate? {
      PassesNone(s, step, c, i);
      hide Next;
    }
  }

  lemma PassesNone(s: Sys, step: Step, c: nat, i: nat)
    requires Inv(s) && !step.Terminate?
    requires c < |Next(s, step).world.cancels| && i < Passed(Next(s, step).world.cancels[c])
    ensures c < |s.world.cancels| && i < Passed(s.world.cancels[c])
  {
    hide Inv, Transition;
    if !step.CallCancel? && !step.CommitCancel? {
      CancelsUntouched(s, step);
      hide Next;
    }
  }

  /** Only a Spawn makes an agent live again, and it gives the name to its new place. */
  lemma LivesAgain(s: Sys, step: Step, id: AgentId)
    requires id in s.world.gone && id !in Next(s, step).world.gone
    ensures Spawns(s, step) && step.answer.value == id
    ensures Next(s, step).world.holder == s.world.holder[id := Place(step.a, |s.world.attempts[step.a].agents|)]
  {
    hide Transition, FanIn.Next, FanIn.Start;
  }

  lemma HolderMoves(s: Sys, step: Step, id: AgentId, p: Place)
    requires HeldByOther(s.world.holder, id, p)
    requires Spawns(s, step) ==> p != Place(step.a, |s.world.attempts[step.a].agents|)
    ensures HeldByOther(Next(s, step).world.holder, id, p)
  {
    if !Spawns(s, step) {
      if step.Spawn? { SpawnStays(s, step); } else { StaysPut(s, step); }
      hide Next;
    }
  }

  lemma MakerIsDone(s: Sys, j: string)
    requires Inv(s) && j in s.jobs
    ensures RecordOk(j, s.jobs[j], s.world.attempts)
  {
  }

  lemma PassedStep(s: Sys, step: Step)
    requires Inv(s) && BaseInv(s)
    ensures var s' := Next(s, step);
            PassedOk(s'.jobs, s'.world.cancels, s'.world.holder, s'.world.gone)
  {
    var s' := Next(s, step);
    GoesOnward(s, step);
    hide Next, CancelsOk, AttemptsOk, JobsOk, HolderOk, Passed, RecordsOk;
    forall c, i | 0 <= c < |s'.world.cancels| && 0 <= i < Passed(s'.world.cancels[c])
      ensures PassedOne(s'.jobs, s'.world.cancels[c], i, s'.world.holder, s'.world.gone)
    {
      PassesOne(s, step, c, i);
      var t := s.world.cancels[c];
      CancelCallOk(s, c);
      if i < Passed(t) {
        assert PassedOne(s.jobs, t, i, s.world.holder, s.world.gone);
        StaysPassed(s, step, t, i);
      } else {
        FoundJob(s, c);
      }
    }
  }

  lemma FoundJob(s: Sys, c: nat)
    requires Inv(s) && c < |s.world.cancels| && s.world.cancels[c].at != NoSuchJob
    ensures s.world.cancels[c].id in s.jobs && s.world.cancels[c].agents == s.jobs[s.world.cancels[c].id].agents
  {
    CancelCallOk(s, c);
  }

  lemma StaysPassed(s: Sys, step: Step, t: CancelCall, i: nat)
    requires Inv(s) && PassedOne(s.jobs, t, i, s.world.holder, s.world.gone) && Onward(s, Next(s, step))
    ensures var s' := Next(s, step);
            PassedOne(s'.jobs, t, i, s'.world.holder, s'.world.gone)
  {
    MakerIsDone(s, t.id);
    StaysGone(s, step, t.agents[i], Place(s.jobs[t.id].maker, i));
    hide Next, Inv, CancelsOk, GetsOn, HeldByOther;
  }

  lemma StaysGone(s: Sys, step: Step, id: AgentId, p: Place)
    requires id in s.world.gone || HeldByOther(s.world.holder, id, p)
    requires Spawns(s, step) ==> p != Place(step.a, |s.world.attempts[step.a].agents|)
    ensures var w' := Next(s, step).world;
            id in w'.gone || HeldByOther(w'.holder, id, p)
  {
    if id in s.world.gone {
      if id !in Next(s, step).world.gone {
        LivesAgain(s, step, id);
      }
    } else {
      HolderMoves(s, step, id, p);
    }
    hide Next;
  }

  lemma BaseStep(s: Sys, step: Step)
    requires Inv(s) && BaseInv(s)
    ensures BaseInv(Next(s, step))
  {
    HolderStep(s, step);
    PassedStep(s, step);
    LostStep(s, step);
  }

  /** Only a loss adds to the lost places: the one that holds the name. */
  lemma LosesOne(s: Sys, step: Step)
    ensures var w, w' := s.world, Next(s, step).world;
            || w'.lost == w.lost
            || (step.AgentLost? && step.id in w.holder && w'.lost == w.lost + {w.holder[step.id]}
                && w'.gone == w.gone + {step.id} && w'.holder == w.holder && w'.attempts == w.attempts)
  {
    hide Transition, FanIn.Next, FanIn.Start;
  }

  lemma PlaceStays(s: Sys, step: Step, p: Place)
    requires IsPlace(s.world.attempts, p)
    ensures var w' := Next(s, step).world;
            IsPlace(w'.attempts, p) && AgentAt(w'.attempts, p) == AgentAt(s.world.attempts, p)
  {
    if Spawns(s, step) {
      SpawnDoes(s, step);
    } else if step.Spawn? {
      SpawnStays(s, step);
    } else {
      StaysPut(s, step);
    }
    hide Next;
  }

  lemma LostStep(s: Sys, step: Step)
    requires BaseInv(s)
    ensures var w' := Next(s, step).world;
            LostOk(w'.attempts, w'.holder, w'.gone, w'.lost)
  {
    hide Next, PassedOk, HeldByOther;
    var w, w' := s.world, Next(s, step).world;
    LosesOne(s, step);
    forall p | p in w'.lost
      ensures LostOne(w'.attempts, w'.holder, w'.gone, p)
    {
      if p in w.lost {
        assert LostOne(w.attempts, w.holder, w.gone, p);
        PlaceStays(s, step, p);
        NotTheNext(s, step, p);
        StaysGone(s, step, AgentAt(w.attempts, p), p);
      }
    }
  }

  lemma NotTheNext(s: Sys, step: Step, p: Place)
    requires IsPlace(s.world.attempts, p)
    ensures Spawns(s, step) ==> p != Place(step.a, |s.world.attempts[step.a].agents|)
  {
  }

  lemma {:induction false} BaseExec(reuse: bool, steps: seq<Step>)
    ensures Inv(Run(reuse, steps)) && BaseInv(Run(reuse, steps)) && Run(reuse, steps).world.reuse == reuse
    decreases |steps|
  {
    RunInv(reuse, steps);
    if steps != [] {
      var front, step := steps[..|steps| - 1], steps[|steps| - 1];
      BaseExec(reuse, front);
      BaseStep(Run(reuse, front), step);
      ReuseStays(Run(reuse, front), step);
      assert Run(reuse, steps) == Next(Run(reuse, front), step);
    }
  }

  lemma ReuseStays(s: Sys, step: Step)
    ensures Next(s, step).world.reuse == s.world.reuse
  {
    hide Transition, FanIn.Next, FanIn.Start;
  }

  // ------------------------------------- what holds as long as no step strays

  /** Where a Schedule call goes. */
  ghost predicate CallGoesOn(t: Attempt, t': Attempt) {
    && t'.job == t.job
    && (t.at.Rejecting? ==> t'.at.Rejecting? && t.at.next <= t'.at.next)
    && (t.at.Recorded? ==> t'.at.Recorded?)
    && (t'.at != t.at ==> t.at.Open? || t.at.Rejecting?)
    && (t.at.Open? || t'.at.Rejecting? || t'.at == t.at)
  }

  lemma CallsGoOn(s: Sys, step: Step)
    ensures var attempts, attempts' := s.world.attempts, Next(s, step).world.attempts;
            |attempts| <= |attempts'| && forall a: nat | a < |attempts| :: CallGoesOn(attempts[a], attempts'[a])
  {
    if step.CallSchedule? || step.Spawn? || step.Watch? || step.Commit? || step.Reject? {
      hide FanIn.Start, Transition;
    } else {
      AttemptsUntouched(s, step);
      hide Next;
    }
  }

  lemma SpentStays(s: Sys, step: Step, p: Place)
    requires Inv(s) && p.a < |s.world.attempts| && Spent(s.world.attempts, s.world.cancels, p)
    ensures var w' := Next(s, step).world;
            p.a < |w'.attempts| && Spent(w'.attempts, w'.cancels, p)
  {
    CallsGoOn(s, step);
    GoesOnward(s, step);
    hide Next, Inv;
    if s.world.attempts[p.a].at.Recorded? {
      PassedGrows(s, Next(s, step), s.world.attempts[p.a].job.id, p.i);
    }
    hide Onward, CancelPassed;
  }

  /** A step terminates only what it aims at. */
  ghost predicate HitsAtMost(w: World, w': World, aim: Option<(AgentId, Place)>) {
    && (w'.gone == w.gone || (aim.Some? && w'.gone == w.gone + {aim.value.0}))
    && (w'.sent == w.sent || (aim.Some? && w'.sent == w.sent + {aim.value.0}))
  }

  lemma HitsItsAim(s: Sys, step: Step)
    requires Inv(s) && !step.Spawn? && !step.AgentLost?
    ensures HitsAtMost(s.world, Next(s, step).world, Aim(s, step))
    ensures step.Reject? && Aim(s, step).Some? ==> Next(s, step).world.sent == s.world.sent + {Aim(s, step).value.0}
  {
    hide Inv;
    if step.Reject? {
      hide FanIn.Next, FanIn.Start, Transition;
    } else if step.Terminate? {
      TerminateHits(s, step.c, step.ok);
      hide Next, Inv;
    } else {
      AimsAtNone(s, step);
      hide Next, Inv;
    }
  }

  lemma TerminateHits(s: Sys, c: nat, ok: bool)
    requires Inv(s)
    ensures HitsAtMost(s.world, Next(s, Terminate(c, ok)).world, Aim(s, Terminate(c, ok)))
  {
    hide Inv;
    if c < |s.world.cancels| && s.world.cancels[c].at.Stopping? {
      FoundJob(s, c);
    }
  }

  lemma AimsAtNone(s: Sys, step: Step)
    requires !step.Spawn? && !step.Reject? && !step.Terminate? && !step.AgentLost?
    ensures Next(s, step).world.gone == s.world.gone && Next(s, step).world.sent == s.world.sent
  {
    hide Transition, FanIn.Next, FanIn.Start;
  }

  lemma AimIsAPlace(s: Sys, step: Step)
    requires Inv(s) && Aim(s, step).Some?
    ensures var aim := Aim(s, step).value;
            && IsPlace(s.world.attempts, aim.1) && AgentAt(s.world.attempts, aim.1) == aim.0 && aim.0 in s.world.spawned
  {
    hide Inv;
    if step.Terminate? {
      FoundJob(s, step.c);
      MakerIsDone(s, s.world.cancels[step.c].id);
    }
    PlaceIsSpawned(s, Aim(s, step).value.1);
  }

  lemma PlaceIsSpawned(s: Sys, p: Place)
    requires Inv(s) && IsPlace(s.world.attempts, p)
    ensures AgentAt(s.world.attempts, p) in s.world.spawned
  {
    assert AttemptOk(s.world.attempts[p.a], s.world.spawned);
  }

  lemma AimIsSpent(s: Sys, step: Step)
    requires Inv(s) && Aim(s, step).Some? && Next(s, step).world.gone != s.world.gone
    ensures var w', p := Next(s, step).world, Aim(s, step).value.1;
            p.a < |w'.attempts| && Spent(w'.attempts, w'.cancels, p)
  {
    hide Inv;
    if step.Terminate? {
      FoundJob(s, step.c);
      MakerIsDone(s, s.world.cancels[step.c].id);
      assert Passed(Next(s, step).world.cancels[step.c]) > s.world.cancels[step.c].at.next;
    }
  }

  lemma HeldOn(w: World, w': World, id: AgentId, q: Place)
    requires HeldOk(w.attempts, w.cancels, w.holder, w.gone, w.lost) && SamePlaces(w, w')
    requires forall p: Place | p.a < |w.attempts| && Spent(w.attempts, w.cancels, p) ::
             Spent(w'.attempts, w'.cancels, p)
    requires w'.gone <= w.gone + {id} && w.lost <= w'.lost
    requires id in w'.gone && id !in w.gone ==>
               id in w.holder && w.holder[id] == q && q.a < |w'.attempts| && Spent(w'.attempts, w'.cancels, q)
    ensures HeldOk(w'.attempts, w'.cancels, w'.holder, w'.gone, w'.lost)
  {
    hide Spent;
    forall p | IsPlace(w'.attempts, p) && !Spent(w'.attempts, w'.cancels, p) && p !in w'.lost
      ensures Holds(w'.attempts, w'.holder, w'.gone, p)
    {
      assert IsPlace(w.attempts, p) && !Spent(w.attempts, w.cancels, p);
      assert Holds(w.attempts, w.holder, w.gone, p);
    }
  }

  lemma HeldRest(s: Sys, step: Step)
    requires Inv(s) && BaseInv(s) && IsoInv(s) && !Strays(s, step) && !Spawns(s, step) && !step.AgentLost?
    ensures var w' := Next(s, step).world;
            HeldOk(w'.attempts, w'.cancels, w'.holder, w'.gone, w'.lost)
  {
    var w, w', aim := s.world, Next(s, step).world, Aim(s, step);
    LosesOne(s, step);
    forall p: Place | p.a < |w.attempts| && Spent(w.attempts, w.cancels, p)
      ensures p.a < |w'.attempts| && Spent(w'.attempts, w'.cancels, p)
    {
      SpentStays(s, step, p);
    }
    if step.Spawn? {
      SpawnStays(s, step);
      assert w'.gone == w.gone;
      HeldOn(w, w', "", Place(0, 0));
    } else {
      StaysPut(s, step);
      HitsItsAim(s, step);
      if w'.gone == w.gone {
        hide Next, Inv, Spent, HeldOk;
        HeldOn(w, w', "", Place(0, 0));
      } else {
        AimIsAPlace(s, step);
        AimIsSpent(s, step);
        hide Next, Inv, Spent, HeldOk, Aim;
        HeldOn(w, w', aim.value.0, aim.value.1);
      }
    }
  }

  /** The effect of a Spawn that succeeds. */
  lemma SpawnDoes(s: Sys, step: Step)
    requires Spawns(s, step)
    ensures var w, w', id, t := s.world, Next(s, step).world, step.answer.value, s.world.attempts[step.a];
            && w'.attempts == w.attempts[step.a := t.(agents := t.agents + [id])] && w'.cancels == w.cancels
            && w'.gone == w.gone - {id} && w'.sent == w.sent - {id}
            && w'.holder == w.holder[id := Place(step.a, |t.agents|)] && w'.lost == w.lost
  {
  }

  lemma LossDoes(s: Sys, id: AgentId)
    requires HolderOk(s.world.attempts, s.world.holder, s.world.spawned) && IsoInv(s)
    ensures IsoInv(Next(s, AgentLost(id)))
  {
    hide SentOk, Spent;
    var w, w' := s.world, Next(s, AgentLost(id)).world;
    forall p | IsPlace(w'.attempts, p) && !Spent(w'.attempts, w'.cancels, p) && p !in w'.lost
      ensures Holds(w'.attempts, w'.holder, w'.gone, p)
    {
      assert Holds(w.attempts, w.holder, w.gone, p);
    }
  }

  lemma HeldSpawn(s: Sys, step: Step)
    requires Inv(s) && BaseInv(s) && IsoInv(s) && Spawns(s, step)
    ensures var w' := Next(s, step).world;
            HeldOk(w'.attempts, w'.cancels, w'.holder, w'.gone, w'.lost)
  {
    var w, w', id := s.world, Next(s, step).world, step.answer.value;
    SpawnDoes(s, step);
    hide Next, Inv, CancelPassed, SentOk, PassedOk, LostOk;
    forall p | IsPlace(w'.attempts, p) && !Spent(w'.attempts, w'.cancels, p) && p !in w'.lost
      ensures Holds(w'.attempts, w'.holder, w'.gone, p)
    {
      if IsPlace(w.attempts, p) {
        assert Holds(w.attempts, w.holder, w.gone, p);
      }
    }
  }

  lemma SeenStays(s: Sys, s': Sys, j: string)
    requires Onward(s, s') && CancelSeen(s.world.cancels, j)
    ensures CancelSeen(s'.world.cancels, j)
  {
    hide Passed;
    var c :| 0 <= c < |s.world.cancels| && s.world.cancels[c].id == j && s.world.cancels[c].at != NoSuchJob;
    assert GetsOn(s.world.cancels[c], s'.world.cancels[c]);
  }

  lemma MaybeStays(s: Sys, step: Step, p: Place)
    requires Inv(s) && p.a < |s.world.attempts| && MayBeSent(s.world.attempts[p.a], p.i, s.world.cancels)
    ensures var w' := Next(s, step).world;
            p.a < |w'.attempts| && MayBeSent(w'.attempts[p.a], p.i, w'.cancels)
  {
    CallsGoOn(s, step);
    GoesOnward(s, step);
    hide Next, Inv;
    if s.world.attempts[p.a].at.Recorded? {
      SeenStays(s, Next(s, step), s.world.attempts[p.a].job.id);
    }
    hide Onward, CancelSeen;
  }

  lemma AimMayBeSent(s: Sys, step: Step)
    requires Inv(s) && Aim(s, step).Some?
    ensures var w', p := Next(s, step).world, Aim(s, step).value.1;
            p.a < |w'.attempts| && MayBeSent(w'.attempts[p.a], p.i, w'.cancels)
  {
    hide Inv;
    if step.Terminate? {
      FoundJob(s, step.c);
      MakerIsDone(s, s.world.cancels[step.c].id);
      assert Next(s, step).world.cancels[step.c].id == s.world.cancels[step.c].id;
    }
  }

  /** A rejected call passes its agents one at a time. */
  lemma RejectsOne(s: Sys, step: Step, p: Place)
    requires p.a < |Next(s, step).world.attempts|
    requires var t' := Next(s, step).world.attempts[p.a]; t'.at.Rejecting? && p.i < t'.at.next
    ensures || (p.a < |s.world.attempts| && s.world.attempts[p.a].at.Rejecting? && p.i < s.world.attempts[p.a].at.next)
            || (step.Reject? && Aim(s, step).Some? && Aim(s, step).value.1 == p)
  {
    if !step.Reject? {
      RejectsNone(s, step, p);
      hide Next, Aim;
    }
  }

  lemma RejectsNone(s: Sys, step: Step, p: Place)
    requires !step.Reject? && p.a < |Next(s, step).world.attempts|
    requires var t' := Next(s, step).world.attempts[p.a]; t'.at.Rejecting? && p.i < t'.at.next
    ensures p.a < |s.world.attempts| && s.world.attempts[p.a].at.Rejecting? && p.i < s.world.attempts[p.a].at.next
  {
    if step.CallSchedule? || step.Spawn? || step.Watch? || step.Commit? {
      hide FanIn.Start, Transition;
    } else {
      AttemptsUntouched(s, step);
      hide Next;
    }
  }

  lemma SentRest(s: Sys, step: Step)
    requires Inv(s) && BaseInv(s) && IsoInv(s) && !Strays(s, step) && !step.Spawn? && !step.AgentLost?
    ensures var w' := Next(s, step).world;
            SentOk(w'.attempts, w'.cancels, w'.holder, w'.sent)
  {
    hide Next, Inv, Aim, HeldOk, PassedOk, LostOk, MayBeSent, CancelSeen;
    var w, w', aim := s.world, Next(s, step).world, Aim(s, step);
    StaysPut(s, step);
    HitsItsAim(s, step);
    if aim.Some? {
      AimIsAPlace(s, step);
      AimMayBeSent(s, step);
    }
    forall id | id in w'.sent
      ensures id in w'.holder && w'.holder[id].a < |w'.attempts|
              && MayBeSent(w'.attempts[w'.holder[id].a], w'.holder[id].i, w'.cancels)
    {
      if id in w.sent {
        MaybeStays(s, step, w.holder[id]);
      }
    }
    forall id | id in w'.holder && w'.holder[id].a < |w'.attempts| && w'.attempts[w'.holder[id].a].at.Rejecting?
                && w'.holder[id].i < w'.attempts[w'.holder[id].a].at.next
      ensures id in w'.sent
    {
      RejectsOne(s, step, w.holder[id]);
    }
  }

  lemma SentSpawn(s: Sys, step: Step)
    requires Inv(s) && BaseInv(s) && IsoInv(s) && Spawns(s, step)
    ensures var w' := Next(s, step).world;
            SentOk(w'.attempts, w'.cancels, w'.holder, w'.sent)
  {
    SpawnDoes(s, step);
    hide Next, Inv, HeldOk, PassedOk, LostOk, CancelSeen, IsAvailable;
  }

  lemma SpawnFails(s: Sys, step: Step)
    requires BaseInv(s) && IsoInv(s) && step.Spawn? && !Spawns(s, step)
    ensures var w' := Next(s, step).world;
            SentOk(w'.attempts, w'.cancels, w'.holder, w'.sent)
  {
    hide HeldOk, PassedOk, LostOk, CancelSeen, HolderOk;
  }

  lemma IsoStep(s: Sys, step: Step)
    requires Inv(s) && BaseInv(s) && IsoInv(s) && !Strays(s, step)
    ensures IsoInv(Next(s, step))
  {
    hide Next, Inv, PassedOk, LostOk, HolderOk, Spawns, Strays;
    if Spawns(s, step) {
      HeldSpawn(s, step);
      SentSpawn(s, step);
    } else if step.AgentLost? {
      LossDoes(s, step.id);
    } else {
      HeldRest(s, step);
      if step.Spawn? { SpawnFails(s, step); } else { SentRest(s, step); }
    }
  }
}
