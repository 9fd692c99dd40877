/**
 Who takes which step: a goroutine of the scheduler runs by a script that says what everyone else does before each of
 its own steps. The run it makes is a function of the script, and everything it can be sure of follows from that run.
 */
module SchedulerTurns {
  import opened Lifecycle
  import opened AgentStreams
  import opened SchedulerModel
  import opened SchedulerProofs
  import FanIn
  import opened SchedulerTheorems

  /** The goroutine on whose behalf a method runs. */
  datatype Caller = Scheduling(a: nat) | Cancelling(c: nat) | Watching(id: string)

  /** The steps only that goroutine can take. */
  predicate Owns(me: Caller, step: Step) {
    match me
    case Scheduling(a) => (step.Spawn? || step.Watch? || step.Commit? || step.Reject?) && step.a == a
    case Cancelling(c) => (step.Terminate? || step.CommitCancel?) && step.c == c
    case Watching(id) => step == WriteVerdict(id) || step == Fan(id, FanIn.Receive)
  }

  /** The steps of a script that are not the goroutine's own. */
  function Foreign(me: Caller, steps: seq<Step>): seq<Step>
    decreases |steps|
  {
    if steps == [] then []
    else
      var last := steps[|steps| - 1];
      Foreign(me, steps[..|steps| - 1]) + (if Owns(me, last) then [] else [last])
  }

  /** Before own step number k others take the steps others(k). */
  function Interleaved(me: Caller, others: nat -> seq<Step>, own: seq<Step>): seq<Step>
    decreases |own|
  {
    if own == [] then []
    else
      var n := |own| - 1;
      Interleaved(me, others, own[..n]) + Foreign(me, others(n)) + [own[n]]
  }

  /** The goroutine's own steps in a run. */
  function Mine(me: Caller, steps: seq<Step>): seq<Step>
    decreases |steps|
  {
    if steps == [] then []
    else
      var last := steps[|steps| - 1];
      Mine(me, steps[..|steps| - 1]) + (if Owns(me, last) then [last] else [])
  }

  lemma {:induction false} MineAppend(me: Caller, p: seq<Step>, q: seq<Step>)
    ensures Mine(me, p + q) == Mine(me, p) + Mine(me, q)
    decreases |q|
  {
    if q == [] {
      assert p + q == p;
    } else {
      assert (p + q)[..|p + q| - 1] == p + q[..|q| - 1];
      MineAppend(me, p, q[..|q| - 1]);
    }
  }

  /** Nobody else takes a goroutine's steps ... */
  lemma {:induction false} ForeignIsNotMine(me: Caller, steps: seq<Step>)
    ensures Mine(me, Foreign(me, steps)) == []
    decreases |steps|
  {
    if steps != [] {
      var front, last := steps[..|steps| - 1], steps[|steps| - 1];
      ForeignIsNotMine(me, front);
      if !Owns(me, last) {
        MineAppend(me, Foreign(me, front), [last]);
      } else {
        assert Foreign(me, steps) == Foreign(me, front);
      }
    }
  }

  /** ... and none of their own are lost. */
  lemma {:induction false} ForeignIsAllOthers(me: Caller, steps: seq<Step>, step: Step)
    requires !Owns(me, step)
    ensures multiset(Foreign(me, steps))[step] == multiset(steps)[step]
    decreases |steps|
  {
    if steps != [] {
      var front, last := steps[..|steps| - 1], steps[|steps| - 1];
      ForeignIsAllOthers(me, front, step);
      assert steps == front + [last];
    }
  }

  lemma NoneOfMine(me: Caller, front: seq<Step>, turn: seq<Step>)
    requires Mine(me, turn) == []
    ensures Mine(me, front + turn) == Mine(me, front)
  {
    hide Owns, Mine;
    MineAppend(me, front, turn);
  }

  lemma OneOfMine(me: Caller, front: seq<Step>, step: Step)
    requires Owns(me, step)
    ensures Mine(me, front + [step]) == Mine(me, front) + [step]
  {
    assert (front + [step])[..|front|] == front;
  }

  /** What a goroutine does in its run is exactly its own list, in order. */
  lemma {:induction false} MineIsOwn(me: Caller, others: nat -> seq<Step>, own: seq<Step>)
    requires forall k | 0 <= k < |own| :: Owns(me, own[k])
    ensures Mine(me, Interleaved(me, others, own)) == own
    decreases |own|
  {
    if own != [] {
      var n := |own| - 1;
      MineIsOwn(me, others, own[..n]);
      hide Owns, Mine, Foreign;
      ForeignIsNotMine(me, others(n));
      NoneOfMine(me, Interleaved(me, others, own[..n]), Foreign(me, others(n)));
      OneOfMine(me, Interleaved(me, others, own[..n]) + Foreign(me, others(n)), own[n]);
      assert own[..n] + [own[n]] == own;
    }
  }

  lemma {:induction false} InterleavedPrefix(me: Caller, others: nat -> seq<Step>, own: seq<Step>, m: nat)
    requires m <= |own|
    ensures Interleaved(me, others, own[..m]) <= Interleaved(me, others, own)
    decreases |own|
  {
    var n := |own| - 1;
    if m < |own| {
      InterleavedPrefix(me, others, own[..n], m);
      assert own[..n][..m] == own[..m];
    } else {
      assert own[..m] == own;
    }
  }

  lemma NoTurn(me: Caller, others: nat -> seq<Step>, own: seq<Step>)
    ensures Interleaved(me, others, own[..0]) == []
  {
  }

  lemma NextTurn(start: seq<Step>, me: Caller, others: nat -> seq<Step>, own: seq<Step>, k: nat)
    requires k < |own|
    ensures start + Interleaved(me, others, own[..k + 1]) ==
              start + Interleaved(me, others, own[..k]) + Foreign(me, others(k)) + [own[k]]
  {
    assert own[..k + 1][..k] == own[..k];
  }

  // ------------------------------------------------------------ the goroutines' own steps

  /** The adapter calls of a Schedule call, and its commit. */
  function ScheduleCalls(a: nat, roles: nat, spawns: nat -> Option<AgentId>, watches: nat -> bool)
    : (calls: seq<Step>)
    ensures |calls| == 2 * roles + 1
  {
    seq(roles, k requires k >= 0 => Spawn(a, spawns(k))) + seq(roles, k requires k >= 0 => Watch(a, watches(k)))
    + [Commit(a)]
  }

  /** Its clean-up. */
  function Rejections(a: nat, n: nat, terminates: nat -> bool): seq<Step> {
    seq(n, k requires k >= 0 => Reject(a, terminates(k)))
  }

  function Terminations(c: nat, n: nat, terminates: nat -> bool): seq<Step> {
    seq(n, k requires k >= 0 => Terminate(c, terminates(k)))
  }

  function Receives(id: string, n: nat): seq<Step> {
    seq(n, _ => Fan(id, FanIn.Receive))
  }

  // ----------------------------------------------------------- what a watch goroutine is sure of

  /** Every agent's event is in the channel or has been counted. */
  predicate AllArrived(fan: FanIn.State) {
    |fan.received| + |fan.buffer| >= |fan.streams|
  }

  /** What no step takes back. */
  predicate Onward(f: FanIn.State, f': FanIn.State) {
    && |f'.streams| == |f.streams|
    && |f.received| <= |f'.received|
    && |f.received| + |f.buffer| <= |f'.received| + |f'.buffer|
    && (f.returned ==> f'.returned)
  }

  lemma MoveIsOnward(f: FanIn.State, move: FanIn.Step)
    ensures Onward(f, FanIn.Next(f, move))
  {
  }

  lemma StepIsOnward(s: Sys, step: Step, id: string)
    requires id in s.jobs && id in s.world.watchers
    ensures id in Next(s, step).jobs && id in Next(s, step).world.watchers
    ensures Onward(s.world.watchers[id].fan, Next(s, step).world.watchers[id].fan)
  {
    RecordedOnce(s, step, id);
    if step.Fan? {
      MoveIsOnward(s.world.watchers[id].fan, step.move);
    }
    hide Transition, FanIn.Next, FanIn.Start;
  }

  /** Once all events have arrived every receive counts one, until they are all counted. */
  lemma ReceiveCounts(s: Sys, id: string)
    requires Inv(s) && id in s.jobs && id in s.world.watchers && AllArrived(s.world.watchers[id].fan)
    ensures id in Next(s, Fan(id, FanIn.Receive)).world.watchers
    ensures var f, f' := s.world.watchers[id].fan, Next(s, Fan(id, FanIn.Receive)).world.watchers[id].fan;
            |f'.received| >= |f.streams| || |f'.received| == |f.received| + 1
  {
    hide AttemptsOk, RecordsOk, JobsOk, CancelsOk, Exec;
    JobIsOk(s, id);
    var f := s.world.watchers[id].fan;
    FanIn.CountsFit(multiset(f.received));
    assert |multiset(f.received)| == |f.received|;
  }

  function Count(steps: seq<Step>, step: Step): nat { multiset(steps)[step] }

  lemma {:induction false} ArrivedGetsCounted(reuse: bool, steps: seq<Step>, more: seq<Step>, id: string)
    requires id in Run(reuse, steps).jobs && id in Run(reuse, steps).world.watchers
    ensures id in Run(reuse, steps + more).jobs && id in Run(reuse, steps + more).world.watchers
    ensures var f, f' := Run(reuse, steps).world.watchers[id].fan, Run(reuse, steps + more).world.watchers[id].fan;
            && Onward(f, f')
            && (AllArrived(f) ==> || |f'.received| >= |f.streams|
                                  || |f'.received| >= |f.received| + Count(more, Fan(id, FanIn.Receive)))
    decreases |more|
  {
    if more == [] {
      assert steps + more == steps;
    } else {
      var front, last := more[..|more| - 1], more[|more| - 1];
      ArrivedGetsCounted(reuse, steps, front, id);
      assert (steps + more)[..|steps + more| - 1] == steps + front;
      assert more == front + [last];
      var s := Run(reuse, steps + front);
      assert Run(reuse, steps + more) == Next(s, last);
      StepIsOnward(s, last, id);
      if last == Fan(id, FanIn.Receive) && AllArrived(s.world.watchers[id].fan) {
        RunInv(reuse, steps + front);
        ReceiveCounts(s, id);
      }
      hide Run, Next;
    }
  }

  lemma CountAppend(p: seq<Step>, q: seq<Step>, step: Step)
    ensures Count(p + q, step) == Count(p, step) + Count(q, step)
  {
  }

  lemma TurnCount(front: seq<Step>, turn: seq<Step>, last: Step, step: Step)
    ensures Count(front + turn + [last], step) == Count(front, step) + Count(turn, step) + Count([last], step)
  {
    hide Count;
    CountAppend(front + turn, [last], step);
    CountAppend(front, turn, step);
  }

  lemma {:induction false} OwnCount(me: Caller, others: nat -> seq<Step>, own: seq<Step>, step: Step)
    requires Owns(me, step)
    ensures Count(Interleaved(me, others, own), step) == Count(own, step)
    decreases |own|
  {
    hide Foreign, Owns, Count;
    if own == [] {
      CountAppend([], [], step);
    } else {
      var n := |own| - 1;
      OwnCount(me, others, own[..n], step);
      ForeignHasNone(me, others(n), step);
      TurnCount(Interleaved(me, others, own[..n]), Foreign(me, others(n)), own[n], step);
      CountAppend(own[..n], [own[n]], step);
      assert own[..n] + [own[n]] == own;
    }
  }

  lemma {:induction false} ForeignHasNone(me: Caller, steps: seq<Step>, step: Step)
    requires Owns(me, step)
    ensures Count(Foreign(me, steps), step) == 0
    decreases |steps|
  {
    if steps != [] {
      ForeignHasNone(me, steps[..|steps| - 1], step);
    }
  }

  lemma {:induction false} ReceivesCount(id: string, n: nat)
    ensures Count(Receives(id, n), Fan(id, FanIn.Receive)) == n
  {
    if n > 0 {
      ReceivesCount(id, n - 1);
      assert Receives(id, n) == Receives(id, n - 1) + [Fan(id, FanIn.Receive)];
    }
  }

  /** The run of a watch goroutine after its first n receives. */
  function WatchRun(reuse: bool, start: seq<Step>, id: string, others: nat -> seq<Step>, n: nat): Sys {
    Run(reuse, start + Interleaved(Watching(id), others, Receives(id, n)))
  }

  /** What n rounds are more than m. */
  lemma MoreRounds(start: seq<Step>, id: string, others: nat -> seq<Step>, m: nat, n: nat) returns (rest: seq<Step>)
    requires m <= n
    ensures start + Interleaved(Watching(id), others, Receives(id, n)) ==
              start + Interleaved(Watching(id), others, Receives(id, m)) + rest
    ensures Count(rest, Fan(id, FanIn.Receive)) == n - m
  {
    var me, step := Watching(id), Fan(id, FanIn.Receive);
    assert Receives(id, n)[..m] == Receives(id, m);
    assert Owns(me, step);
    hide Owns, Interleaved;
    InterleavedPrefix(me, others, Receives(id, n), m);
    var p, q := Interleaved(me, others, Receives(id, m)), Interleaved(me, others, Receives(id, n));
    rest := q[|p|..];
    assert q == p + rest && start + q == start + p + rest;
    OwnCount(me, others, Receives(id, m), step);
    OwnCount(me, others, Receives(id, n), step);
    ReceivesCount(id, m);
    ReceivesCount(id, n);
    hide Count, Receives;
    CountAppend(p, rest, step);
  }

  lemma WatchRunGoesOn(reuse: bool, start: seq<Step>, id: string, others: nat -> seq<Step>, m: nat, n: nat)
    requires m <= n && id in Run(reuse, start).jobs && id in Run(reuse, start).world.watchers
    ensures id in WatchRun(reuse, start, id, others, m).jobs && id in WatchRun(reuse, start, id, others, n).jobs
    ensures id in WatchRun(reuse, start, id, others, m).world.watchers
            && id in WatchRun(reuse, start, id, others, n).world.watchers
    ensures var f := WatchRun(reuse, start, id, others, m).world.watchers[id].fan;
            var f' := WatchRun(reuse, start, id, others, n).world.watchers[id].fan;
            && Onward(f, f')
            && (AllArrived(f) ==> |f'.received| >= |f.streams| || |f'.received| >= |f.received| + (n - m))
  {
    var p := Interleaved(Watching(id), others, Receives(id, m));
    var rest := MoreRounds(start, id, others, m, n);
    hide Run, Interleaved, Onward, AllArrived, Count, Receives, Owns;
    ArrivedGetsCounted(reuse, start, p, id);
    ArrivedGetsCounted(reuse, start + p, rest, id);
  }

  lemma NextReceive(start: seq<Step>, id: string, others: nat -> seq<Step>, n: nat)
    ensures start + Interleaved(Watching(id), others, Receives(id, n + 1)) ==
              start + Interleaved(Watching(id), others, Receives(id, n)) + Foreign(Watching(id), others(n))
              + [Fan(id, FanIn.Receive)]
  {
    assert Receives(id, n + 1)[..n] == Receives(id, n);
  }

  /** If at some point every agent's event has arrived, as many further receives as there are events in the channel
      complete the count, whatever others do, and nobody ever finds the channel closed before. */
  lemma ArrivedIsFinished(reuse: bool, start: seq<Step>, id: string, others: nat -> seq<Step>, m: nat, n: nat)
    requires id in Run(reuse, start).jobs && id in Run(reuse, start).world.watchers
    requires var w := WatchRun(reuse, start, id, others, m).world;
             id in w.watchers && AllArrived(w.watchers[id].fan) && m + |w.watchers[id].fan.buffer| <= n
    ensures id in WatchRun(reuse, start, id, others, n).world.watchers
    ensures WatchRun(reuse, start, id, others, n).world.watchers[id].fan.Finished()
    ensures forall k: nat | k <= n ::
              && id in WatchRun(reuse, start, id, others, k).world.watchers
              && !WatchRun(reuse, start, id, others, k).world.watchers[id].fan.returned
  {
    WatchRunGoesOn(reuse, start, id, others, m, n);
    RunInv(reuse, start + Interleaved(Watching(id), others, Receives(id, n)));
    var s := WatchRun(reuse, start, id, others, n);
    JobIsOk(s, id);
    FanIn.AllCountedIsFinished(s.world.watchers[id].fan, s.jobs[id].stopped);
    forall k: nat | k <= n
      ensures id in WatchRun(reuse, start, id, others, k).world.watchers
      ensures !WatchRun(reuse, start, id, others, k).world.watchers[id].fan.returned
    {
      WatchRunGoesOn(reuse, start, id, others, k, n);
    }
  }
}
