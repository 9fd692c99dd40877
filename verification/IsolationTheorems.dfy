/** When the scheduler's TerminateAgent calls stray, and who owns which agent. */
module IsolationTheorems {
  import opened Lifecycle
  import opened SchedulerModel
  import opened SchedulerProofs
  import opened SchedulerTheorems
  import opened SchedulerIsolation

  // ------------------------------------------------------- when a step can stray

  /** Another Cancel call of the job has passed, or may still pass, an agent that t has still to terminate. */
  predicate Endangers(other: CancelCall, t: CancelCall) {
    && other.id == t.id && t.at.Stopping? && t.at.next < |t.agents|
    && match other.at
       case Stopping(_) => true
       case TerminateFailed(next) => next > t.at.next
       case Done => true
       case Refused => true
       case _ => false
  }

  ghost predicate Risky(cancels: seq<CancelCall>) {
    exists c, d :: 0 <= c < |cancels| && 0 <= d < |cancels| && c != d && Endangers(cancels[c], cancels[d])
  }

  /** To aim at a place that has been passed over, a Cancel call must be in danger. */
  lemma SpentIsRisky(s: Sys, step: Step)
    requires Inv(s) && Aim(s, step).Some?
    requires var p := Aim(s, step).value.1;
             p.a < |s.world.attempts| && Spent(s.world.attempts, s.world.cancels, p)
    ensures Risky(s.world.cancels)
  {
    hide Inv;
    if step.Terminate? {
      var d, cancels := step.c, s.world.cancels;
      var i := cancels[d].at.next;
      FoundJob(s, d);
      MakerIsDone(s, cancels[d].id);
      var c :| 0 <= c < |cancels| && cancels[c].id == cancels[d].id && i < Passed(cancels[c]);
      NotVanished(s, c);
      assert c != d && Endangers(cancels[c], cancels[d]);
    }
  }

  lemma NotVanished(s: Sys, c: nat)
    requires Inv(s) && c < |s.world.cancels|
    ensures s.world.cancels[c].at != Vanished
  {
    CancelCallOk(s, c);
  }

  /** A Cancel call that has still to terminate the i-th agent of job j. */
  predicate StillAims(t: CancelCall, j: string, i: nat) {
    t.id == j && t.at.Stopping? && t.at.next <= i
  }

  /** The place's own call, or a Cancel of its job, may still terminate its agent. */
  ghost predicate Ahead(attempts: seq<Attempt>, cancels: seq<CancelCall>, p: Place) {
    p.a < |attempts| &&
    match attempts[p.a].at
    case Open => true
    case Rejecting(next, _) => next <= p.i
    case Recorded => exists d :: 0 <= d < |cancels| && StillAims(cancels[d], attempts[p.a].job.id, p.i)
    case Abandoned => false
  }

  /** Somebody outside has removed an agent that is still to be terminated. */
  ghost predicate Exposed(w: World) {
    exists p :: p in w.lost && Ahead(w.attempts, w.cancels, p)
  }

  ghost predicate Danger(w: World) {
    Risky(w.cancels) || Exposed(w)
  }

  lemma AimIsAhead(s: Sys, step: Step)
    requires Inv(s) && Aim(s, step).Some?
    ensures Ahead(s.world.attempts, s.world.cancels, Aim(s, step).value.1)
  {
    hide Inv;
    if step.Terminate? {
      FoundJob(s, step.c);
      MakerIsDone(s, s.world.cancels[step.c].id);
      assert StillAims(s.world.cancels[step.c], s.world.cancels[step.c].id, s.world.cancels[step.c].at.next);
    }
  }

  lemma NoStrayAt(s: Sys, step: Step)
    requires Inv(s) && IsoInv(s) && !Risky(s.world.cancels)
    requires Aim(s, step).Some? ==> Aim(s, step).value.1 !in s.world.lost
    ensures !Strays(s, step)
  {
    if Aim(s, step).Some? {
      AimIsAPlace(s, step);
      hide Aim, Inv, Spent, Risky;
      var p := Aim(s, step).value.1;
      if Spent(s.world.attempts, s.world.cancels, p) {
        SpentIsRisky(s, step);
      }
      assert Holds(s.world.attempts, s.world.holder, s.world.gone, p);
    }
  }

  lemma NoStray(s: Sys, step: Step)
    requires Inv(s) && IsoInv(s) && !Danger(s.world)
    ensures !Strays(s, step)
  {
    hide Inv, IsoInv, Risky, Ahead, Aim, Strays;
    if Aim(s, step).Some? {
      AimIsAhead(s, step);
    }
    NoStrayAt(s, step);
  }

  /** No Cancel is called, and nobody outside removes an agent. */
  predicate Quiet(steps: seq<Step>) {
    forall step | step in steps :: !step.CallCancel? && !step.AgentLost?
  }

  lemma NoNewCancels(s: Sys, step: Step)
    requires !step.CallCancel?
    ensures |Next(s, step).world.cancels| == |s.world.cancels|
  {
    if !step.Terminate? && !step.CommitCancel? {
      CancelsUntouched(s, step);
      hide Next;
    }
    hide Transition;
  }

  /** Without a new Cancel call the risk does not grow. */
  lemma RiskFalls(s: Sys, step: Step)
    requires Inv(s) && !step.CallCancel? && Risky(Next(s, step).world.cancels)
    ensures Risky(s.world.cancels)
  {
    hide Inv, Next;
    GoesOnward(s, step);
    NoNewCancels(s, step);
    var cancels, cancels' := s.world.cancels, Next(s, step).world.cancels;
    var c, d :| 0 <= c < |cancels'| && 0 <= d < |cancels'| && c != d && Endangers(cancels'[c], cancels'[d]);
    assert GetsOn(cancels[c], cancels'[c]) && GetsOn(cancels[d], cancels'[d]);
    hide Passed;
    assert Endangers(cancels[c], cancels[d]);
  }

  lemma AheadBefore(s: Sys, step: Step, p: Place)
    requires Inv(s) && !step.CallCancel? && p.a < |s.world.attempts|
    requires Ahead(Next(s, step).world.attempts, Next(s, step).world.cancels, p)
    ensures Ahead(s.world.attempts, s.world.cancels, p)
  {
    hide Inv, Next;
    CallsGoOn(s, step);
    GoesOnward(s, step);
    NoNewCancels(s, step);
    hide Passed;
    var w, w' := s.world, Next(s, step).world;
    assert CallGoesOn(w.attempts[p.a], w'.attempts[p.a]);
    if w.attempts[p.a].at.Recorded? {
      var j := w.attempts[p.a].job.id;
      var d :| 0 <= d < |w'.cancels| && StillAims(w'.cancels[d], j, p.i);
      assert GetsOn(w.cancels[d], w'.cancels[d]) && StillAims(w.cancels[d], j, p.i);
    }
  }

  lemma DangerFalls(s: Sys, step: Step)
    requires Inv(s) && BaseInv(s) && !step.CallCancel? && !step.AgentLost? && Danger(Next(s, step).world)
    ensures Danger(s.world)
  {
    hide Inv, Next, Risky, Ahead, PassedOk, HolderOk;
    LosesOne(s, step);
    if Risky(Next(s, step).world.cancels) {
      RiskFalls(s, step);
    } else {
      var p :| p in s.world.lost && Ahead(Next(s, step).world.attempts, Next(s, step).world.cancels, p);
      assert LostOne(s.world.attempts, s.world.holder, s.world.gone, p);
      AheadBefore(s, step, p);
    }
  }

  lemma {:induction false} StaysIsolated(s: Sys, more: seq<Step>)
    requires Inv(s) && BaseInv(s) && IsoInv(s) && !Danger(s.world) && Quiet(more)
    ensures Isolated(s, more)
    ensures var s' := Exec(s, more);
            Inv(s') && BaseInv(s') && IsoInv(s') && !Danger(s'.world)
    decreases |more|
  {
    hide Inv, BaseInv, IsoInv, Danger, Next, Strays;
    if more != [] {
      var front, step := more[..|more| - 1], more[|more| - 1];
      assert step in more && forall x | x in front :: x in more;
      StaysIsolated(s, front);
      OneStepOn(Exec(s, front), step);
    }
  }

  lemma OneStepOn(s: Sys, step: Step)
    requires Inv(s) && BaseInv(s) && IsoInv(s) && !Danger(s.world) && !step.CallCancel? && !step.AgentLost?
    ensures !Strays(s, step)
    ensures var s' := Next(s, step);
            Inv(s') && BaseInv(s') && IsoInv(s') && !Danger(s'.world)
  {
    hide Inv, BaseInv, IsoInv, Danger, Next, Strays;
    NoStray(s, step);
    StepInv(s, step);
    BaseStep(s, step);
    IsoStep(s, step);
    if Danger(Next(s, step).world) {
      DangerFalls(s, step);
    }
  }

  // ---------------------------------------------------------- how a step is led astray

  lemma StraysLast(s: Sys, more: seq<Step>, step: Step)
    requires Strays(Exec(s, more), step)
    ensures !Isolated(s, more + [step])
  {
    assert (more + [step])[..|more|] == more;
  }

  /** Cancel call d has still to terminate what c has passed. */
  ghost predicate Behind(cancels: seq<CancelCall>, c: nat, d: nat) {
    && c < |cancels| && d < |cancels| && cancels[c].id == cancels[d].id
    && cancels[d].at.Stopping? && cancels[d].at.next < |cancels[d].agents| && cancels[d].at.next < Passed(cancels[c])
  }

  /** Its next step then aims at a spent place, whose agent is terminated if its name has not been given away. */
  lemma BehindAims(s: Sys, c: nat, d: nat)
    requires Inv(s) && BaseInv(s) && Behind(s.world.cancels, c, d)
    ensures var aim := Aim(s, Terminate(d, true));
            && aim.Some? && aim.value.1.a < |s.world.attempts|
            && (aim.value.0 in s.world.gone || HeldByOther(s.world.holder, aim.value.0, aim.value.1))
  {
    hide Inv, HolderOk, HeldByOther;
    FoundJob(s, c);
    FoundJob(s, d);
    MakerIsDone(s, s.world.cancels[d].id);
    WasPassed(s, c, s.world.cancels[d].at.next);
    hide BaseInv;
  }

  lemma WasPassed(s: Sys, c: nat, i: nat)
    requires BaseInv(s) && c < |s.world.cancels| && i < Passed(s.world.cancels[c])
    ensures PassedOne(s.jobs, s.world.cancels[c], i, s.world.holder, s.world.gone)
  {
  }

  /** A step that aims at an agent that is gone can be led astray: its name has been given away, or one Schedule call
      gives it away now. */
  lemma StrayNow(s: Sys, step: Step) returns (more: seq<Step>)
    requires s.world.reuse && Aim(s, step).Some?
    requires var aim := Aim(s, step).value;
             && aim.1.a < |s.world.attempts|
             && (aim.0 in s.world.gone || HeldByOther(s.world.holder, aim.0, aim.1))
    ensures Quiet(more) && !Isolated(s, more)
  {
    hide Next, Isolated;
    var aim := Aim(s, step).value;
    if HeldByOther(s.world.holder, aim.0, aim.1) {
      more := [];
    } else {
      more := GiveAway(s, aim.0);
    }
    assert Aim(Exec(s, more), step) == Aim(s, step);
    StraysLast(s, more, step);
    more := more + [step];
  }

  /** A Schedule call that spawns an agent of this name again. */
  lemma GiveAway(s: Sys, id: AgentId) returns (more: seq<Step>)
    requires s.world.reuse && id in s.world.gone
    ensures Quiet(more)
    ensures var s' := Exec(s, more);
            && id in s'.world.holder && s'.world.holder[id] == Place(|s.world.attempts|, 0)
            && s'.world.cancels == s.world.cancels && s'.jobs == s.jobs && |s'.world.attempts| > |s.world.attempts|
            && forall a: nat | a < |s.world.attempts| :: s'.world.attempts[a] == s.world.attempts[a]
  {
    var a, call := |s.world.attempts|, CallSchedule(Job("", "", 1, Unset));
    var s1 := Next(s, call);
    SpawnDoes(s1, Spawn(a, Some(id)));
    more := [call, Spawn(a, Some(id))];
    ExecTwo(s, more);
    assert Next(s1, Spawn(a, Some(id))).jobs == s.jobs;
  }

  lemma ExecTwo(s: Sys, p: seq<Step>)
    requires |p| == 2
    ensures Exec(s, p) == Next(Next(s, p[0]), p[1])
  {
    hide Next;
    assert p[..1][..0] == [];
    assert Exec(s, p[..1]) == Next(Exec(s, p[..1][..0]), p[0]);
  }

  lemma {:induction false} IsolatedAppend(s: Sys, p: seq<Step>, q: seq<Step>)
    ensures Isolated(s, p + q) <==> Isolated(s, p) && Isolated(Exec(s, p), q)
    decreases |q|
  {
    hide Next, Strays;
    if q == [] {
      assert p + q == p;
    } else {
      var front := q[..|q| - 1];
      assert (p + q)[..|p + q| - 1] == p + front;
      IsolatedAppend(s, p, front);
      ExecAppend(s, p, front);
    }
  }

  /** Two Cancel calls of a job that are about to terminate the same agent. */
  ghost predicate Level(cancels: seq<CancelCall>, c: nat, d: nat) {
    && c < |cancels| && d < |cancels| && c != d && cancels[c].id == cancels[d].id
    && cancels[c].agents == cancels[d].agents
    && cancels[c].at == cancels[d].at && cancels[d].at.Stopping? && cancels[d].at.next < |cancels[d].agents|
  }

  lemma RiskyPair(s: Sys) returns (c: nat, d: nat)
    requires Inv(s) && Risky(s.world.cancels)
    ensures Behind(s.world.cancels, c, d) || Level(s.world.cancels, c, d)
  {
    hide Inv;
    var cancels := s.world.cancels;
    c, d :| c < |cancels| && d < |cancels| && c != d && Endangers(cancels[c], cancels[d]);
    FoundJob(s, c);
    FoundJob(s, d);
    if Passed(cancels[c]) < cancels[d].at.next {
      c, d := d, c;
    }
  }

  lemma StepFirst(s: Sys, step: Step, more: seq<Step>)
    requires !Isolated(Next(s, step), more) && Quiet(more) && !step.CallCancel? && !step.AgentLost?
    ensures !Isolated(s, [step] + more) && Quiet([step] + more)
  {
    hide Next, Strays;
    assert [step][..0] == [] && Exec(s, [step]) == Next(Exec(s, [step][..0]), step);
    IsolatedAppend(s, [step], more);
  }

  lemma StrayRisky(s: Sys) returns (more: seq<Step>)
    requires Inv(s) && BaseInv(s) && s.world.reuse && Risky(s.world.cancels)
    ensures Quiet(more) && !Isolated(s, more)
  {
    hide Inv, BaseInv, Isolated, Quiet, Risky, Behind, Level, Aim, Next;
    var c, d := RiskyPair(s);
    if Behind(s.world.cancels, c, d) {
      BehindAims(s, c, d);
      more := StrayNow(s, Terminate(d, true));
    } else {
      more := StrayAfterOne(s, c, d);
    }
  }

  lemma StrayAfterOne(s: Sys, c: nat, d: nat) returns (more: seq<Step>)
    requires Inv(s) && BaseInv(s) && s.world.reuse && Level(s.world.cancels, c, d)
    ensures Quiet(more) && !Isolated(s, more)
  {
    hide Inv, BaseInv, Next, Isolated, Quiet, Aim;
    var step := Terminate(c, true);
    TerminatesOne(s, c);
    BehindAims(Next(s, step), c, d);
    hide Behind, Level;
    more := StrayNow(Next(s, step), Terminate(d, true));
    StepFirst(s, step, more);
    more := [step] + more;
  }

  // Removed agents that are still to be terminated.

  /** What the leading-astray needs of a state, and what every step keeps. */
  ghost predicate Reusing(s: Sys) {
    Inv(s) && BaseInv(s) && s.world.reuse
  }

  lemma ReusingOn(s: Sys, step: Step)
    requires Reusing(s) && !step.AgentLost?
    ensures Reusing(Next(s, step)) && Next(s, step).world.lost == s.world.lost
  {
    hide Inv, BaseInv, Next;
    StepInv(s, step);
    BaseStep(s, step);
    ReuseStays(s, step);
    LosesOne(s, step);
  }

  lemma LostIsGone(s: Sys, p: Place)
    requires Reusing(s) && p in s.world.lost
    ensures LostOne(s.world.attempts, s.world.holder, s.world.gone, p) && s.world.reuse
  {
    hide Inv, PassedOk, HolderOk;
  }

  lemma {:induction false} StrayByReject(s: Sys, p: Place) returns (more: seq<Step>)
    requires Reusing(s) && p in s.world.lost && p.a < |s.world.attempts|
    requires s.world.attempts[p.a].at.Rejecting? && s.world.attempts[p.a].at.next <= p.i
    ensures Quiet(more) && !Isolated(s, more)
    decreases p.i - s.world.attempts[p.a].at.next
  {
    hide Reusing, Isolated, Quiet, HeldByOther;
    LostIsGone(s, p);
    var step := Reject(p.a, true);
    if s.world.attempts[p.a].at.next == p.i {
      hide Next;
      more := StrayNow(s, step);
    } else {
      ReusingOn(s, step);
      assert Next(s, step).world.attempts[p.a].at.next == s.world.attempts[p.a].at.next + 1;
      more := StrayByReject(Next(s, step), p);
      StepFirst(s, step, more);
      more := [step] + more;
    }
  }

  lemma {:induction false} StrayByCancel(s: Sys, p: Place, d: nat) returns (more: seq<Step>)
    requires Reusing(s) && p in s.world.lost && p.a < |s.world.attempts| && s.world.attempts[p.a].at.Recorded?
    requires d < |s.world.cancels| && StillAims(s.world.cancels[d], s.world.attempts[p.a].job.id, p.i)
    ensures Quiet(more) && !Isolated(s, more)
    decreases p.i - s.world.cancels[d].at.next
  {
    hide Inv, BaseInv, Isolated, Quiet, HeldByOther, Next;
    LostIsGone(s, p);
    RecordOf(s, p.a);
    FoundJob(s, d);
    var step := Terminate(d, true);
    if s.world.cancels[d].at.next == p.i {
      more := StrayNow(s, step);
    } else {
      TerminatesOne(s, d);
      CallsStay(s, d);
      ReusingOn(s, step);
      more := StrayByCancel(Next(s, step), p, d);
      StepFirst(s, step, more);
      more := [step] + more;
    }
  }

  lemma CallsStay(s: Sys, d: nat)
    ensures Next(s, Terminate(d, true)).world.attempts == s.world.attempts
  {
    AttemptsUntouched(s, Terminate(d, true));
    hide Next;
  }

  // An open call can still be rejected: its remaining agents get fresh names, and another call takes its id.

  lemma {:induction false} NamesBelow(names: set<string>) returns (n: nat)
    ensures forall x | x in names :: |x| < n
  {
    if names == {} {
      n := 0;
    } else {
      var x :| x in names;
      n := NamesBelow(names - {x});
      n := if |x| < n then n else |x| + 1;
    }
  }

  lemma FreshName(names: set<string>) returns (x: string)
    ensures x !in names
  {
    var n := NamesBelow(names);
    x := seq(n, _ => 'x');
  }

  lemma OpenIsOk(s: Sys, a: nat)
    requires Inv(s) && a < |s.world.attempts|
    ensures var t := s.world.attempts[a]; t.watched <= |t.agents| <= t.job.roles
  {
    assert AttemptOk(s.world.attempts[a], s.world.spawned);
  }

  lemma {:induction false} StrayByOpen(s: Sys, p: Place) returns (more: seq<Step>)
    requires Reusing(s) && p in s.world.lost && p.a < |s.world.attempts| && s.world.attempts[p.a].at.Open?
    requires s.world.attempts[p.a].job.id in s.jobs
    ensures Quiet(more) && !Isolated(s, more)
    decreases var t := s.world.attempts[p.a]; 2 * t.job.roles - |t.agents| - t.watched
  {
    hide Inv, BaseInv, Isolated, Quiet, Transition;
    var a, t := p.a, s.world.attempts[p.a];
    OpenIsOk(s, a);
    var step;
    if |t.agents| < t.job.roles {
      var x := FreshName(s.world.spawned);
      step := Spawn(a, Some(x));
      assert Next(s, step).world.attempts[a] == t.(agents := t.agents + [x]);
    } else if t.watched < t.job.roles {
      step := Watch(a, true);
      assert Next(s, step).world.attempts[a] == t.(watched := t.watched + 1);
    } else {
      step := Commit(a);
      assert Next(s, step).world.attempts[a] == t.(at := Rejecting(0, Duplicate));
    }
    assert Next(s, step).jobs == s.jobs;
    ReusingOn(s, step);
    hide Next, Reusing;
    if step.Commit? {
      more := StrayByReject(Next(s, step), p);
    } else {
      more := StrayByOpen(Next(s, step), p);
    }
    StepFirst(s, step, more);
    more := [step] + more;
  }

  /** A call without agents takes the id. */
  lemma StrayByTaken(s: Sys, p: Place) returns (more: seq<Step>)
    requires Reusing(s) && p in s.world.lost && p.a < |s.world.attempts| && s.world.attempts[p.a].at.Open?
    ensures Quiet(more) && !Isolated(s, more)
  {
    hide Inv, BaseInv, Isolated, Quiet;
    if s.world.attempts[p.a].job.id in s.jobs {
      hide Next;
      more := StrayByOpen(s, p);
    } else {
      var call, commit := CallSchedule(Job(s.world.attempts[p.a].job.id, "", 0, Unset)), Commit(|s.world.attempts|);
      var s1 := Next(s, call);
      var s2 := Next(s1, commit);
      Takes(s, s.world.attempts[p.a].job.id);
      ReusingOn(s, call);
      ReusingOn(s1, commit);
      hide Next, Reusing;
      more := StrayByOpen(s2, p);
      StepFirst(s1, commit, more);
      StepFirst(s, call, [commit] + more);
      more := [call] + ([commit] + more);
    }
  }

  lemma Takes(s: Sys, j: string)
    requires j !in s.jobs
    ensures var s2 := Next(Next(s, CallSchedule(Job(j, "", 0, Unset))), Commit(|s.world.attempts|));
            && j in s2.jobs && |s.world.attempts| < |s2.world.attempts|
            && forall a: nat | a < |s.world.attempts| :: s2.world.attempts[a] == s.world.attempts[a]
  {
    hide FanIn.Start;
    assert Transition(Pending, Spawned) == Some(Running);
  }

  lemma StrayExposed(s: Sys) returns (more: seq<Step>)
    requires Inv(s) && BaseInv(s) && s.world.reuse && Exposed(s.world)
    ensures Quiet(more) && !Isolated(s, more)
  {
    var p :| p in s.world.lost && Ahead(s.world.attempts, s.world.cancels, p);
    hide Inv, BaseInv, Isolated, Quiet, Next;
    match s.world.attempts[p.a].at
    case Open => more := StrayByTaken(s, p);
    case Rejecting(_, _) => more := StrayByReject(s, p);
    case Recorded =>
      var d: nat :| d < |s.world.cancels| && StillAims(s.world.cancels[d], s.world.attempts[p.a].job.id, p.i);
      more := StrayByCancel(s, p, d);
  }

  /** Where names are reused, danger means that some continuation strays, without any further Cancel or removal. */
  lemma CanStray(s: Sys) returns (more: seq<Step>)
    requires Inv(s) && BaseInv(s) && s.world.reuse && Danger(s.world)
    ensures Quiet(more) && !Isolated(s, more)
  {
    hide Inv, BaseInv, Isolated, Quiet, Risky, Exposed;
    if Risky(s.world.cancels) {
      more := StrayRisky(s);
    } else {
      more := StrayExposed(s);
    }
  }

  lemma TerminatesOne(s: Sys, c: nat)
    requires Inv(s) && BaseInv(s) && c < |s.world.cancels| && s.world.cancels[c].at.Stopping?
    requires s.world.cancels[c].at.next < |s.world.cancels[c].agents|
    ensures var s', t := Next(s, Terminate(c, true)), s.world.cancels[c];
            && Inv(s') && BaseInv(s') && s'.world.reuse == s.world.reuse
            && s'.world.cancels == s.world.cancels[c := t.(at := Stopping(t.at.next + 1))]
  {
    hide Inv, BaseInv;
    StepInv(s, Terminate(c, true));
    BaseStep(s, Terminate(c, true));
  }

  // ------------------------------------------------------------------ fresh names

  /** No agent belongs to two places. */
  ghost predicate AgentsDistinct(attempts: seq<Attempt>) {
    forall p, q | IsPlace(attempts, p) && IsPlace(attempts, q) && AgentAt(attempts, p) == AgentAt(attempts, q) :: p == q
  }

  lemma DistinctStep(s: Sys, step: Step)
    requires Inv(s) && AgentsDistinct(s.world.attempts) && !s.world.reuse
    ensures AgentsDistinct(Next(s, step).world.attempts)
  {
    var w, w' := s.world, Next(s, step).world;
    if Spawns(s, step) {
      SpawnDoes(s, step);
      hide Next, Inv;
      forall p, q | IsPlace(w'.attempts, p) && IsPlace(w'.attempts, q)
          && AgentAt(w'.attempts, p) == AgentAt(w'.attempts, q)
        ensures p == q
      {
        if IsPlace(w.attempts, p) { PlaceIsSpawned(s, p); }
        if IsPlace(w.attempts, q) { PlaceIsSpawned(s, q); }
      }
    } else {
      if step.Spawn? { SpawnStays(s, step); } else { StaysPut(s, step); }
      hide Next, Inv;
      forall p | IsPlace(w'.attempts, p)
        ensures IsPlace(w.attempts, p) && AgentAt(w.attempts, p) == AgentAt(w'.attempts, p)
      {
      }
    }
  }

  lemma {:induction false} FreshExec(steps: seq<Step>)
    ensures var s := Run(false, steps);
            Inv(s) && BaseInv(s) && !s.world.reuse && AgentsDistinct(s.world.attempts)
    decreases |steps|
  {
    BaseExec(false, steps);
    if steps != [] {
      var front, step := steps[..|steps| - 1], steps[|steps| - 1];
      FreshExec(front);
      DistinctStep(Run(false, front), step);
      assert Run(false, steps) == Next(Run(false, front), step);
    }
  }

  lemma FreshNeverStrays(s: Sys, step: Step)
    requires Inv(s) && BaseInv(s) && AgentsDistinct(s.world.attempts)
    ensures !Strays(s, step)
  {
    if Aim(s, step).Some? {
      AimIsAPlace(s, step);
      hide Inv, Aim, PassedOk;
    }
  }

  /** Where every agent gets a fresh name no step of any run strays. */
  lemma {:induction false} FreshIsIsolated(steps: seq<Step>)
    ensures Isolated(Init(false), steps)
    decreases |steps|
  {
    if steps != [] {
      var front := steps[..|steps| - 1];
      FreshIsIsolated(front);
      FreshExec(front);
      hide Inv, BaseInv, AgentsDistinct, Strays;
      FreshNeverStrays(Run(false, front), steps[|steps| - 1]);
    }
  }

  // ------------------------------------------------------------------ main results

  lemma {:induction false} IsoExec(reuse: bool, steps: seq<Step>)
    requires Isolated(Init(reuse), steps)
    ensures Inv(Run(reuse, steps)) && BaseInv(Run(reuse, steps)) && IsoInv(Run(reuse, steps))
    ensures Run(reuse, steps).world.reuse == reuse
    decreases |steps|
  {
    BaseExec(reuse, steps);
    if steps != [] {
      var front, step := steps[..|steps| - 1], steps[|steps| - 1];
      IsoExec(reuse, front);
      IsoStep(Run(reuse, front), step);
      assert Run(reuse, steps) == Next(Run(reuse, front), step);
    }
  }

  /** The exact condition. In a run in which no step has strayed, none will, whatever happens short of a further Cancel
      call or removal, if and only if names are fresh, or no Cancel call has still to terminate an agent that another
      Cancel call of the same job has passed or may still pass, and nothing that somebody outside has removed is still
      to be terminated: by an open or rejected Schedule call, or by a Cancel. */
  lemma IsolationIff(reuse: bool, steps: seq<Step>)
    requires Isolated(Init(reuse), steps)
    ensures (forall more | Quiet(more) :: Isolated(Run(reuse, steps), more))
            <==> !reuse || !Danger(Run(reuse, steps).world)
  {
    IsoExec(reuse, steps);
    var s := Run(reuse, steps);
    hide Inv, BaseInv, IsoInv, Danger, Isolated, Exec;
    if reuse && Danger(s.world) {
      var more := CanStray(s);
    } else {
      forall more | Quiet(more)
        ensures Isolated(s, more)
      {
        if reuse {
          StaysIsolated(s, more);
        } else {
          FreshIsIsolated(steps + more);
          IsolatedAppend(Init(reuse), steps, more);
        }
      }
    }
  }

  /** A Cancel call that got, or may still get, past its first agent. */
  predicate GetsPast(t: CancelCall) { t.at != NoSuchJob && t.at != TerminateFailed(0) }

  ghost predicate CancelledBefore(cancels: seq<CancelCall>, j: string) {
    exists c :: 0 <= c < |cancels| && cancels[c].id == j && GetsPast(cancels[c])
  }

  /** A call at its start is in danger, or endangers, exactly the ones of its job that get past their first agent. */
  lemma RiskyAppend(cancels: seq<CancelCall>, t: CancelCall)
    requires !Risky(cancels) && t.at in {Stopping(0), NoSuchJob}
    requires forall c | 0 <= c < |cancels| && cancels[c].id == t.id && cancels[c].at != NoSuchJob ::
               cancels[c].at != Vanished && cancels[c].agents == t.agents
    ensures Risky(cancels + [t]) <==> t.at == Stopping(0) && t.agents != [] && CancelledBefore(cancels, t.id)
  {
    var cancels', n := cancels + [t], |cancels|;
    if Risky(cancels') {
      var c, d :| 0 <= c < |cancels'| && 0 <= d < |cancels'| && c != d && Endangers(cancels'[c], cancels'[d]);
      assert c == n || d == n;
      assert c < n ==> GetsPast(cancels[c]);
      assert d < n ==> GetsPast(cancels[d]);
    }
    if t.at == Stopping(0) && t.agents != [] && CancelledBefore(cancels, t.id) {
      var c :| 0 <= c < |cancels| && cancels[c].id == t.id && GetsPast(cancels[c]);
      assert Endangers(cancels'[c], cancels'[n]);
    }
  }

  lemma CancelAdds(s: Sys, j: string)
    ensures var t := if j in s.jobs then CancelCall(j, s.jobs[j].agents, Stopping(0)) else CancelCall(j, [], NoSuchJob);
            Next(s, CallCancel(j)) == s.(world := s.world.(cancels := s.world.cancels + [t]))
  {
  }

  lemma CancelAgain(s: Sys, j: string)
    requires Inv(s) && !Risky(s.world.cancels)
    ensures Risky(Next(s, CallCancel(j)).world.cancels) <==>
              j in s.jobs && s.jobs[j].agents != [] && CancelledBefore(s.world.cancels, j)
  {
    var cancels := s.world.cancels;
    var t := if j in s.jobs then CancelCall(j, s.jobs[j].agents, Stopping(0)) else CancelCall(j, [], NoSuchJob);
    hide Next, Inv, Risky, CancelledBefore;
    CancelAdds(s, j);
    forall c | 0 <= c < |cancels| && cancels[c].id == j && cancels[c].at != NoSuchJob
      ensures cancels[c].at != Vanished && cancels[c].agents == t.agents
    {
      NotVanished(s, c);
      FoundJob(s, c);
    }
    RiskyAppend(cancels, t);
  }

  /** Somebody outside has removed an agent of this job. */
  ghost predicate HasLost(s: Sys, j: string)
    requires j in s.jobs
  {
    exists p :: p in s.world.lost && p.a == s.jobs[j].maker
  }

  lemma CancelExposes(s: Sys, j: string)
    requires Inv(s) && !Exposed(s.world)
    ensures Exposed(Next(s, CallCancel(j)).world) <==> j in s.jobs && HasLost(s, j)
  {
    hide Inv, Next, Ahead;
    CancelAdds(s, j);
    var w, w' := s.world, Next(s, CallCancel(j)).world;
    var t := if j in s.jobs then CancelCall(j, s.jobs[j].agents, Stopping(0)) else CancelCall(j, [], NoSuchJob);
    if Exposed(w') {
      var p :| p in w.lost && Ahead(w.attempts, w'.cancels, p);
      AheadOfNew(s, t, p);
    }
    if j in s.jobs && HasLost(s, j) {
      var p :| p in w.lost && p.a == s.jobs[j].maker;
      AheadOfStart(s, t, p);
    }
  }

  /** A Cancel call at its start is ahead of every place of its job. */
  lemma AheadOfStart(s: Sys, t: CancelCall, p: Place)
    requires Inv(s) && t.id in s.jobs && t.at == Stopping(0) && p.a == s.jobs[t.id].maker
    ensures Ahead(s.world.attempts, s.world.cancels + [t], p)
  {
    hide Inv;
    MakerIsDone(s, t.id);
    assert StillAims((s.world.cancels + [t])[|s.world.cancels|], t.id, p.i);
  }

  /** What is ahead only because of a new Cancel call belongs to its job. */
  lemma AheadOfNew(s: Sys, t: CancelCall, p: Place)
    requires Inv(s) && Ahead(s.world.attempts, s.world.cancels + [t], p)
    requires !Ahead(s.world.attempts, s.world.cancels, p)
    ensures t.at.Stopping? && t.id in s.jobs && s.jobs[t.id].maker == p.a
  {
    hide Inv;
    var cancels, j := s.world.cancels + [t], s.world.attempts[p.a].job.id;
    var d :| 0 <= d < |cancels| && StillAims(cancels[d], j, p.i);
    assert forall e | 0 <= e < |s.world.cancels| :: cancels[e] == s.world.cancels[e];
    assert d == |s.world.cancels|;
    RecordOf(s, p.a);
  }

  /** What a caller can check before Cancel(j) where names are reused: the call is harmless, whatever happens short of
      yet another one or a removal, if and only if the job is unknown or has no agents, or none of its agents has been
      removed from outside and it has not been cancelled before but for attempts that failed at its first agent. */
  lemma CancelIsSafeIff(steps: seq<Step>, j: string)
    requires Isolated(Init(true), steps) && !Danger(Run(true, steps).world)
    ensures var s := Run(true, steps);
            (forall more | Quiet(more) :: Isolated(Next(s, CallCancel(j)), more))
            <==> !(j in s.jobs && s.jobs[j].agents != [] && (CancelledBefore(s.world.cancels, j) || HasLost(s, j)))
  {
    IsoExec(true, steps);
    var s := Run(true, steps);
    CancelAgain(s, j);
    CancelExposes(s, j);
    if j in s.jobs && HasLost(s, j) {
      LostHasAgents(s, j);
    }
    var longer := steps + [CallCancel(j)];
    assert longer[..|steps|] == steps;
    assert !Strays(s, CallCancel(j));
    assert Isolated(Init(true), longer) && Run(true, longer) == Next(s, CallCancel(j));
    hide Run, Next, Isolated, Inv, BaseInv, IsoInv, Risky, Exposed, HasLost, CancelledBefore;
    IsolationIff(true, longer);
  }

  lemma LostHasAgents(s: Sys, j: string)
    requires Inv(s) && BaseInv(s) && j in s.jobs && HasLost(s, j)
    ensures s.jobs[j].agents != []
  {
    hide Inv, PassedOk, HolderOk;
    var p :| p in s.world.lost && p.a == s.jobs[j].maker;
    assert LostOne(s.world.attempts, s.world.holder, s.world.gone, p);
    MakerIsDone(s, j);
  }

  /** No two Cancel calls have found the same job. */
  ghost predicate OneEach(cancels: seq<CancelCall>) {
    forall c, d | 0 <= c < d < |cancels| && cancels[c].at != NoSuchJob && cancels[d].at != NoSuchJob ::
        cancels[c].id != cancels[d].id
  }

  /** What somebody outside has removed belongs neither to a rejected Schedule call nor to a job a Cancel has found. */
  ghost predicate LeftAlone(w: World) {
    forall p | p in w.lost && p.a < |w.attempts| :: !Handled(w.attempts, w.cancels, p.a)
  }

  ghost predicate Handled(attempts: seq<Attempt>, cancels: seq<CancelCall>, a: nat)
    requires a < |attempts|
  {
    attempts[a].at.Rejecting? || (attempts[a].at.Recorded? && CancelSeen(cancels, attempts[a].job.id))
  }

  /** So on every platform no step of a run strays in which each job is found by at most one Cancel call, and no agent
      of a rejected call or a cancelled job is removed from outside. */
  lemma {:induction false} OneCancelEach(reuse: bool, steps: seq<Step>)
    requires OneEach(Run(reuse, steps).world.cancels) && LeftAlone(Run(reuse, steps).world)
    ensures Isolated(Init(reuse), steps) && !Risky(Run(reuse, steps).world.cancels)
    decreases |steps|
  {
    hide Inv, BaseInv, IsoInv, Next, Strays, Aim, LeftAlone, OneEach;
    BaseExec(reuse, steps);
    NotRisky(Run(reuse, steps));
    if steps != [] {
      var front, step := steps[..|steps| - 1], steps[|steps| - 1];
      var s := Run(reuse, front);
      assert Run(reuse, steps) == Next(s, step);
      BaseExec(reuse, front);
      OneBefore(s, step);
      AloneBefore(s, step);
      OneCancelEach(reuse, front);
      IsoExec(reuse, front);
      NoStrayAt(s, step);
    }
  }

  lemma HandledStays(s: Sys, step: Step, a: nat)
    requires Inv(s) && a < |s.world.attempts| && Handled(s.world.attempts, s.world.cancels, a)
    ensures var w' := Next(s, step).world;
            a < |w'.attempts| && Handled(w'.attempts, w'.cancels, a)
  {
    hide Inv, Next, CancelSeen;
    CallsGoOn(s, step);
    GoesOnward(s, step);
    assert CallGoesOn(s.world.attempts[a], Next(s, step).world.attempts[a]);
    if s.world.attempts[a].at.Recorded? {
      SeenStays(s, Next(s, step), s.world.attempts[a].job.id);
    }
  }

  lemma AimIsHandled(s: Sys, step: Step)
    requires Inv(s) && Aim(s, step).Some?
    ensures var p := Aim(s, step).value.1;
            p.a < |s.world.attempts| && Handled(s.world.attempts, s.world.cancels, p.a)
  {
    hide Inv;
    if step.Terminate? {
      FoundJob(s, step.c);
      MakerIsDone(s, s.world.cancels[step.c].id);
    }
  }

  lemma AloneBefore(s: Sys, step: Step)
    requires Inv(s) && LeftAlone(Next(s, step).world)
    ensures LeftAlone(s.world)
    ensures Aim(s, step).Some? ==> Aim(s, step).value.1 !in s.world.lost
  {
    hide Inv, Next, Aim, Handled;
    LosesOne(s, step);
    forall p | p in s.world.lost && p.a < |s.world.attempts|
      ensures !Handled(s.world.attempts, s.world.cancels, p.a)
    {
      if Handled(s.world.attempts, s.world.cancels, p.a) {
        HandledStays(s, step, p.a);
      }
    }
    if Aim(s, step).Some? {
      AimIsHandled(s, step);
    }
  }

  lemma OneBefore(s: Sys, step: Step)
    requires Inv(s) && OneEach(Next(s, step).world.cancels)
    ensures OneEach(s.world.cancels)
  {
    GoesOnward(s, step);
    hide Next, Inv, Passed;
    forall c, d | 0 <= c < d < |s.world.cancels| && s.world.cancels[c].at != NoSuchJob
        && s.world.cancels[d].at != NoSuchJob
      ensures s.world.cancels[c].id != s.world.cancels[d].id
    {
      assert GetsOn(s.world.cancels[c], Next(s, step).world.cancels[c])
          && GetsOn(s.world.cancels[d], Next(s, step).world.cancels[d]);
    }
  }

  lemma NotRisky(s: Sys)
    requires OneEach(s.world.cancels)
    ensures !Risky(s.world.cancels)
  {
  }

  /** Removal from outside is enough, as for pods of the Kubernetes adapter: the pod of a job is removed, a later job of
      the same tenant and role gets one of the same name, and the first and only Cancel of the first job deletes it, and
      succeeds. */
  lemma RemovedPodBreaksIsolation(first: string, later: string, pod: AgentId) returns (steps: seq<Step>)
    requires first != later
    ensures var s := Run(true, steps);
            && later in s.jobs && s.jobs[later].job.phase == Running && s.jobs[later].agents == [pod]
            && pod in s.world.gone && !CancelSeen(s.world.cancels, later)
            && |s.world.cancels| == 1 && s.world.cancels[0].id == first && s.world.cancels[0].at == Done
            && OneEach(s.world.cancels) && !Risky(s.world.cancels) && !Isolated(Init(true), steps)
  {
    hide Transition, Next, Exec, Isolated;
    TableFacts();
    var p1, p4 := ScheduleSteps(0, Job(first, "t", 1, Unset), pod), CancelSteps(0, first);
    var p3 := ScheduleSteps(1, Job(later, "t", 1, Unset), pod);
    ScheduleOne(Init(true), Job(first, "t", 1, Unset), pod);
    var s1 := Exec(Init(true), p1);
    LoseOne(s1, pod);
    var s2 := Exec(s1, [AgentLost(pod)]);
    ScheduleOne(s2, Job(later, "t", 1, Unset), pod);
    var s3 := Exec(s2, p3);
    CancelOne(s3, first);
    FirstAims(s3, first);
    steps := p1 + [AgentLost(pod)] + p3 + p4;
    ExecAppend(Init(true), p1, [AgentLost(pod)]);
    ExecAppend(Init(true), p1 + [AgentLost(pod)], p3);
    ExecAppend(Init(true), p1 + [AgentLost(pod)] + p3, p4);
    IsolatedAppend(Init(true), p1 + [AgentLost(pod)] + p3, p4);
    NotRisky(Run(true, steps));
  }

  lemma LoseOne(s: Sys, id: AgentId)
    requires id in s.world.holder && id !in s.world.gone
    ensures Exec(s, [AgentLost(id)]) == s.(world := DoLose(s.world, id))
  {
    assert [AgentLost(id)][..0] == [];
    assert Exec(s, [AgentLost(id)]) == Next(Exec(s, [AgentLost(id)][..0]), AgentLost(id));
  }

  /** A Cancel of a one-agent job whose agent's name has been given away strays. */
  lemma FirstAims(s: Sys, j: string)
    requires j in s.jobs && |s.jobs[j].agents| == 1
    requires HeldByOther(s.world.holder, s.jobs[j].agents[0], Place(s.jobs[j].maker, 0))
    ensures !Isolated(s, CancelSteps(|s.world.cancels|, j))
  {
    var c := |s.world.cancels|;
    var p := CancelSteps(c, j);
    var s1 := Next(s, CallCancel(j));
    assert p == [CallCancel(j)] + ([Terminate(c, true)] + [CommitCancel(c)]);
    assert [CallCancel(j)][..0] == [] && Exec(s, [CallCancel(j)]) == s1;
    assert [Terminate(c, true)][..0] == [] && !Isolated(s1, [Terminate(c, true)]);
    IsolatedAppend(s, [CallCancel(j)], [Terminate(c, true)] + [CommitCancel(c)]);
    IsolatedAppend(s1, [Terminate(c, true)], [CommitCancel(c)]);
  }

  // ------------------------------------------------------------------- the ledger

  /** The four fates of a spawned agent. */
  datatype Fate = InFlight | Owned(job: string) | SentBack(done: bool) | Dropped

  function FateOf(t: Attempt, i: nat): Fate {
    match t.at
    case Open => InFlight
    case Recorded => Owned(t.job.id)
    case Rejecting(next, _) => SentBack(i < next)
    case Abandoned => Dropped
  }

  /** As long as no step strays -- always, where names are fresh -- the agent of a name belongs to the place that
      spawned it last, and has exactly one fate; all earlier bearers of the name have been passed over by their own
      call or a Cancel of their own job, or removed from outside. Only two fates ever lead to TerminateAgent: a
      rejected call that has reached it, or a Cancel of the very job that owns it; agents in flight are left alone and
      abandoned agents are never cleaned up. */
  lemma Ledger(reuse: bool, steps: seq<Step>, id: AgentId) returns (p: Place)
    requires Isolated(Init(reuse), steps) && id in Run(reuse, steps).world.spawned
    ensures var s := Run(reuse, steps);
            var w := s.world;
            && id in w.holder && w.holder[id] == p && IsPlace(w.attempts, p) && AgentAt(w.attempts, p) == id
            && (forall q | IsPlace(w.attempts, q) && AgentAt(w.attempts, q) == id && q != p ::
                  reuse && (Spent(w.attempts, w.cancels, q) || q in w.lost))
            && (id in w.gone ==> Spent(w.attempts, w.cancels, p) || p in w.lost)
            && match FateOf(w.attempts[p.a], p.i)
               case InFlight => id !in w.sent
               case Dropped => id !in w.sent
               case SentBack(done) => id in w.sent <==> done
               case Owned(j) =>
                 && j in s.jobs && s.jobs[j].maker == p.a && s.jobs[j].agents == w.attempts[p.a].agents
                 && (id in w.sent ==> CancelSeen(w.cancels, j))
  {
    hide Inv, BaseInv, IsoInv, Isolated, AgentsDistinct, Spent;
    IsoExec(reuse, steps);
    if !reuse {
      FreshExec(steps);
    }
    var s := Run(reuse, steps);
    var w := s.world;
    hide Run;
    HolderIs(s, id);
    p := w.holder[id];
    FateIs(s, id);
    forall q | IsPlace(w.attempts, q) && AgentAt(w.attempts, q) == id && q != p
      ensures reuse && (Spent(w.attempts, w.cancels, q) || q in w.lost)
    {
      if !reuse {
        OnlyPlace(s, p, q);
      }
      if !Spent(w.attempts, w.cancels, q) && q !in w.lost {
        Unspent(s, q);
      }
    }
    if !Spent(w.attempts, w.cancels, p) && p !in w.lost {
      Unspent(s, p);
    }
  }

  lemma HolderIs(s: Sys, id: AgentId)
    requires BaseInv(s) && id in s.world.spawned
    ensures var w := s.world;
            id in w.holder && IsPlace(w.attempts, w.holder[id]) && AgentAt(w.attempts, w.holder[id]) == id
  {
    hide PassedOk, LostOk;
  }

  lemma FateIs(s: Sys, id: AgentId)
    requires Inv(s) && IsoInv(s) && id in s.world.holder && IsPlace(s.world.attempts, s.world.holder[id])
    ensures var w, p := s.world, s.world.holder[id];
            match FateOf(w.attempts[p.a], p.i)
            case InFlight => id !in w.sent
            case Dropped => id !in w.sent
            case SentBack(done) => id in w.sent <==> done
            case Owned(j) =>
              && j in s.jobs && s.jobs[j].maker == p.a && s.jobs[j].agents == w.attempts[p.a].agents
              && (id in w.sent ==> CancelSeen(w.cancels, j))
  {
    hide Inv, HeldOk, CancelSeen;
    if s.world.attempts[s.world.holder[id].a].at == Recorded {
      RecordOf(s, s.world.holder[id].a);
    }
  }

  lemma RecordOf(s: Sys, a: nat)
    requires Inv(s) && a < |s.world.attempts| && s.world.attempts[a].at == Recorded
    ensures var j := s.world.attempts[a].job.id;
            j in s.jobs && s.jobs[j].maker == a && s.jobs[j].agents == s.world.attempts[a].agents
  {
    hide JobsOk, CancelsOk, AttemptsOk;
    var j := s.world.attempts[a].job.id;
    assert RecordOk(j, s.jobs[j], s.world.attempts);
  }

  /** A rejected call that is still to terminate an agent means its own, unless that was removed from outside: any
      recorded job with an agent of that name has had it terminated by a Cancel, or lost it too. Where names are fresh
      no recorded job has an agent of that name at all. */
  lemma RejectionsAreHarmless(reuse: bool, steps: seq<Step>, a: nat, i: nat)
    requires Isolated(Init(reuse), steps)
    requires var w := Run(reuse, steps).world;
             a < |w.attempts| && w.attempts[a].at.Rejecting? && i < |w.attempts[a].agents|
    ensures var s := Run(reuse, steps);
            var w, id := s.world, s.world.attempts[a].agents[i];
            && (Outstanding(w, a, i) ==> id in w.holder && w.holder[id] == Place(a, i))
            && (forall j, k | j in s.jobs && 0 <= k < |s.jobs[j].agents| && s.jobs[j].agents[k] == id ::
                  && reuse
                  && (Outstanding(w, a, i) ==> CancelPassed(w.cancels, j, k) || Place(s.jobs[j].maker, k) in w.lost))
  {
    hide Inv, BaseInv, IsoInv, AgentsDistinct, Isolated, CancelPassed;
    IsoExec(reuse, steps);
    if !reuse {
      FreshExec(steps);
    }
    hide Run;
    var s, p := Run(reuse, steps), Place(a, i);
    if Outstanding(s.world, a, i) {
      Unspent(s, p);
    }
    forall j, k | j in s.jobs && 0 <= k < |s.jobs[j].agents| && s.jobs[j].agents[k] == AgentAt(s.world.attempts, p)
      ensures reuse && (Outstanding(s.world, a, i) ==>
                CancelPassed(s.world.cancels, j, k) || Place(s.jobs[j].maker, k) in s.world.lost)
    {
      MakerIsDone(s, j);
      var q := Place(s.jobs[j].maker, k);
      if !reuse {
        OnlyPlace(s, p, q);
      }
      if Outstanding(s.world, a, i) {
        PassedByCancel(s, p, j, k);
      }
    }
  }

  /** The rejected call has still to terminate its i-th agent, which nobody outside has removed. */
  predicate Outstanding(w: World, a: nat, i: nat)
    requires a < |w.attempts| && w.attempts[a].at.Rejecting?
  {
    w.attempts[a].at.next <= i && Place(a, i) !in w.lost
  }

  lemma Unspent(s: Sys, p: Place)
    requires IsoInv(s) && IsPlace(s.world.attempts, p) && !Spent(s.world.attempts, s.world.cancels, p)
    requires p !in s.world.lost
    ensures Holds(s.world.attempts, s.world.holder, s.world.gone, p)
  {
  }

  lemma OnlyPlace(s: Sys, p: Place, q: Place)
    requires AgentsDistinct(s.world.attempts) && IsPlace(s.world.attempts, p) && IsPlace(s.world.attempts, q)
    requires AgentAt(s.world.attempts, p) == AgentAt(s.world.attempts, q)
    ensures p == q
  {
  }

  lemma PassedByCancel(s: Sys, p: Place, j: string, k: nat)
    requires Inv(s) && IsoInv(s) && j in s.jobs && k < |s.jobs[j].agents| && IsPlace(s.world.attempts, p)
    requires s.jobs[j].agents[k] == AgentAt(s.world.attempts, p) && s.world.attempts[p.a].at.Rejecting?
    requires !Spent(s.world.attempts, s.world.cancels, p) && p !in s.world.lost
    ensures CancelPassed(s.world.cancels, j, k) || Place(s.jobs[j].maker, k) in s.world.lost
  {
    hide Inv, IsoInv, CancelPassed;
    MakerIsDone(s, j);
    Unspent(s, p);
    var q := Place(s.jobs[j].maker, k);
    if !Spent(s.world.attempts, s.world.cancels, q) && q !in s.world.lost {
      Unspent(s, q);
    }
  }
}
