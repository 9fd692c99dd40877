/** The phase table that both job lifecycles refine (core/scheduler/statemachine.go, core/agent/types.go). */
module Lifecycle {

  datatype Option<+T> = None | Some(value: T)

  /** A Go phase is a string: the five constants, the empty string, and anything else. */
  datatype Phase = Unset | Pending | Running | Succeeded | Failed | Terminating | Other(name: string)
  {
    predicate IsTerminal() {
      this == Succeeded || this == Failed
    }
  }

  datatype Event = Spawned | AllComplete | AgentFailed | TTLExpired | Cancelled

  const TRANSITIONS: map<(Phase, Event), Phase> :=
    map[(Pending, Spawned) := Running,
        (Running, AllComplete) := Succeeded,
        (Running, AgentFailed) := Failed,
        (Running, Cancelled) := Terminating,
        (Succeeded, TTLExpired) := Terminating,
        (Failed, TTLExpired) := Terminating,
        (Succeeded, Cancelled) := Terminating,
        (Failed, Cancelled) := Terminating]

  /** None is the Go error: there is no such transition. */
  function Transition(current: Phase, event: Event): (next: Option<Phase>)
  {
    if (current, event) in TRANSITIONS then Some(TRANSITIONS[(current, event)]) else None
  }

  /** An empty phase is read as Pending by both lifecycles. */
  function Normal(p: Phase): Phase {
    if p == Unset then Pending else p
  }

  /** One edge of the table. */
  predicate Edge(p: Phase, q: Phase) {
    || Transition(p, Spawned) == Some(q)
    || Transition(p, AllComplete) == Some(q)
    || Transition(p, AgentFailed) == Some(q)
    || Transition(p, TTLExpired) == Some(q)
    || Transition(p, Cancelled) == Some(q)
  }

  ghost predicate IsPath(h: seq<Phase>) {
    forall k :: 0 <= k < |h| - 1 ==> Edge(h[k], h[k + 1])
  }

  function Rank(p: Phase): nat {
    match p
    case Running => 1
    case Succeeded => 2
    case Failed => 2
    case Terminating => 3
    case _ => 0
  }

  /** The edges of the table, one by one. */
  lemma EdgeIff(p: Phase, q: Phase)
    ensures Edge(p, q) <==>
              || (p == Pending && q == Running)
              || (p == Running && q in {Succeeded, Failed, Terminating})
              || (p in {Succeeded, Failed} && q == Terminating)
  {
  }

  /** What each event can do, and from where. */
  lemma EventIff(p: Phase, q: Phase)
    ensures Transition(p, Spawned) == Some(q) <==> p == Pending && q == Running
    ensures Transition(p, AllComplete) == Some(q) <==> p == Running && q == Succeeded
    ensures Transition(p, AgentFailed) == Some(q) <==> p == Running && q == Failed
    ensures Transition(p, TTLExpired) == Some(q) <==> p in {Succeeded, Failed} && q == Terminating
    ensures Transition(p, Cancelled) == Some(q) <==> p in {Running, Succeeded, Failed} && q == Terminating
  {
  }

  /** The table is acyclic: along a path the rank strictly rises, so no phase is ever entered twice. */
  lemma {:induction false} PathRises(h: seq<Phase>, i: nat, k: nat)
    requires IsPath(h) && i < k < |h|
    ensures Rank(h[i]) + (k - i) <= Rank(h[k])
    ensures h[i] != h[k]
  {
    assert Edge(h[k - 1], h[k]);
    EdgeIff(h[k - 1], h[k]);
    if i < k - 1 {
      PathRises(h, i, k - 1);
    }
  }

  /** What a path from Pending can look like, in full. */
  lemma PathShape(h: seq<Phase>)
    requires IsPath(h) && h != [] && h[0] == Pending
    ensures |h| <= 4
    ensures 1 < |h| ==> h[1] == Running
    ensures 2 < |h| ==> h[2].IsTerminal() || h[2] == Terminating
    ensures 3 < |h| ==> h[2].IsTerminal() && h[3] == Terminating
  {
    if 1 < |h| { EdgeIff(h[0], h[1]); }
    if 2 < |h| { EdgeIff(h[1], h[2]); }
    if 3 < |h| { EdgeIff(h[2], h[3]); }
    if |h| > 4 {
      PathRises(h, 0, 4);
    }
  }

  /** Terminating has no way out. */
  lemma TerminatingIsFinal(h: seq<Phase>, k: nat)
    requires IsPath(h) && k < |h| && h[k] == Terminating
    ensures k == |h| - 1
  {
    if k < |h| - 1 {
      EdgeIff(h[k], h[k + 1]);
      assert false;
    }
  }

  /** Appending a table edge keeps a path. */
  lemma PathExtends(h: seq<Phase>, q: Phase)
    requires IsPath(h) && h != [] && Edge(h[|h| - 1], q)
    ensures IsPath(h + [q])
  {
    var g := h + [q];
    forall k | 0 <= k < |g| - 1
      ensures Edge(g[k], g[k + 1])
    {
      if k < |h| - 1 {
        assert Edge(h[k], h[k + 1]);
      }
    }
  }
}
