/**
 The fan-in of `watchJob` (core/scheduler/scheduler.go): N forwarder goroutines copy N agent streams into one
 channel of capacity 2N, a closer goroutine closes it once all forwarders are done, and the consumer counts
 terminal events. Every channel operation is one step, so a step sequence is one merge order and one schedule.
 */
module FanIn {
  import opened AgentStreams

  /** One agent stream and its forwarder: events emitted so far, how many the forwarder has taken off the
      stream, and how many it has put on the results channel. */
  datatype Stream = Stream(emitted: seq<EventType>, closed: bool, taken: nat, sent: nat, exited: bool)
  {
    function Unsent(): seq<EventType> {
      if sent <= |emitted| then emitted[sent..] else []
    }
  }

  datatype State = State(
    limit: nat,              // the most events one stream may carry
    streams: seq<Stream>,
    buffer: seq<EventType>,  // the results channel
    resultsClosed: bool,
    received: seq<EventType>,
    returned: bool)          // watchJob gave up because results was closed
  {
    function Completed(): nat { multiset(received)[EventType.Completed] }

    function Failures(): nat { multiset(received)[EventType.Failed] }

    /** The exit condition of the counting loop. */
    predicate Finished() { Completed() + Failures() >= |streams| }

    predicate AnyFailed() { Failures() > 0 }
  }

  datatype Step =
    | AgentDoes(i: nat, ch: seq<EventType>, close: bool)
    | Take(i: nat)
    | Send(i: nat)
    | Exit(i: nat)
    | CloseResults
    | Receive

  function Start(total: nat, limit: nat): State {
    State(limit, seq(total, _ => Stream([], false, 0, 0, false)), [], false, [], false)
  }

  /** A step that is not enabled leaves the state alone. */
  function Next(s: State, step: Step): State {
    match step
    case AgentDoes(i, ch, close) =>
      if i < |s.streams| && !s.streams[i].closed && s.streams[i].emitted <= ch && |ch| <= s.limit then
        s.(streams := s.streams[i := s.streams[i].(emitted := ch, closed := close)])
      else s
    case Take(i) =>
      if i < |s.streams| && s.streams[i].taken == s.streams[i].sent < |s.streams[i].emitted| then
        s.(streams := s.streams[i := s.streams[i].(taken := s.streams[i].taken + 1)])
      else s
    case Send(i) =>
      if i < |s.streams| && s.streams[i].sent < s.streams[i].taken <= |s.streams[i].emitted|
          && |s.buffer| < 2 * |s.streams| then
        s.(streams := s.streams[i := s.streams[i].(sent := s.streams[i].sent + 1)],
           buffer := s.buffer + [s.streams[i].emitted[s.streams[i].sent]])
      else s
    case Exit(i) =>
      if i < |s.streams| && s.streams[i].closed && s.streams[i].sent == |s.streams[i].emitted| then
        s.(streams := s.streams[i := s.streams[i].(exited := true)])
      else s
    case CloseResults =>
      if forall t | t in s.streams :: t.exited then s.(resultsClosed := true) else s
    case Receive =>
      if s.returned || s.Finished() then s
      else if s.buffer != [] then s.(received := s.received + [s.buffer[0]], buffer := s.buffer[1..])
      else if s.resultsClosed then s.(returned := true)
      else s
  }

  // ------------------------------------------------------------- the invariant

  /** All events of a family of sequences, with multiplicity. */
  ghost function Pool(parts: seq<seq<EventType>>): multiset<EventType> {
    if parts == [] then multiset{} else multiset(parts[0]) + Pool(parts[1..])
  }

  ghost function Emitted(s: State): seq<seq<EventType>> {
    seq(|s.streams|, i requires 0 <= i < |s.streams| => s.streams[i].emitted)
  }

  ghost function Unsent(s: State): seq<seq<EventType>> {
    seq(|s.streams|, i requires 0 <= i < |s.streams| => s.streams[i].Unsent())
  }

  ghost predicate GoodStream(t: Stream, limit: nat) {
    && t.sent <= t.taken <= t.sent + 1
    && t.taken <= |t.emitted| <= limit
    && (t.exited ==> t.closed && t.sent == |t.emitted|)
  }

  /** What was emitted has been received, is in the channel, or is still to be sent. */
  ghost predicate Conserved(received: seq<EventType>, buffer: seq<EventType>, unsent: multiset<EventType>,
                            emitted: multiset<EventType>) {
    multiset(received) + multiset(buffer) + unsent == emitted
  }

  ghost predicate Inv(s: State) {
    && (forall t | t in s.streams :: GoodStream(t, s.limit))
    && Conserved(s.received, s.buffer, Pool(Unsent(s)), Pool(Emitted(s)))
    && (s.resultsClosed ==> forall t | t in s.streams :: t.exited)
    && (s.returned ==> s.resultsClosed && s.buffer == [] && !s.Finished())
  }

  lemma {:induction false} PoolUpdate(parts: seq<seq<EventType>>, i: nat, x: seq<EventType>)
    requires i < |parts|
    ensures Pool(parts[i := x]) + multiset(parts[i]) == Pool(parts) + multiset(x)
  {
    var next := parts[i := x];
    if i == 0 {
      assert next[1..] == parts[1..];
    } else {
      assert next[1..] == parts[1..][i - 1 := x];
      PoolUpdate(parts[1..], i - 1, x);
      assert Pool(next) + multiset(parts[i]) == multiset(parts[0]) + (Pool(next[1..]) + multiset(parts[1..][i - 1]));
    }
  }

  lemma {:induction false} PoolSize(parts: seq<seq<EventType>>, k: nat)
    requires forall p | p in parts :: |p| <= k
    ensures |Pool(parts)| <= k * |parts|
    ensures (exists p :: p in parts && |p| < k) ==> |Pool(parts)| < k * |parts|
  {
    if parts != [] {
      assert forall p | p in parts[1..] :: p in parts;
      assert k * |parts| == k + k * |parts[1..]|;
      PoolSize(parts[1..], k);
      assert forall p | p in parts :: p == parts[0] || p in parts[1..];
    }
  }

  lemma {:induction false} PoolMember(parts: seq<seq<EventType>>, e: EventType)
    ensures e in Pool(parts) <==> exists i :: 0 <= i < |parts| && e in parts[i]
  {
    if parts != [] {
      PoolMember(parts[1..], e);
      if i :| 0 <= i < |parts| && e in parts[i] {
        if i > 0 {
          assert parts[i] == parts[1..][i - 1];
        }
      }
      if k :| 0 <= k < |parts[1..]| && e in parts[1..][k] {
        assert parts[1..][k] == parts[k + 1];
      }
    }
  }

  lemma {:induction false} PoolEmpty(parts: seq<seq<EventType>>)
    requires forall p | p in parts :: p == []
    ensures Pool(parts) == multiset{}
  {
    if parts != [] {
      assert parts[0] in parts;
      assert forall p | p in parts[1..] :: p in parts;
      PoolEmpty(parts[1..]);
    }
  }

  lemma StartInv(total: nat, limit: nat)
    ensures Inv(Start(total, limit))
  {
    PoolEmpty(Emitted(Start(total, limit)));
    PoolEmpty(Unsent(Start(total, limit)));
  }

  /** Replacing one stream moves both pools by that stream's difference. */
  lemma StreamUpdate(s: State, s': State, i: nat, t: Stream)
    requires i < |s.streams| && s'.streams == s.streams[i := t]
    ensures Pool(Emitted(s')) + multiset(s.streams[i].emitted) == Pool(Emitted(s)) + multiset(t.emitted)
    ensures Pool(Unsent(s')) + multiset(s.streams[i].Unsent()) == Pool(Unsent(s)) + multiset(t.Unsent())
    ensures forall u | u in s'.streams :: u == t || u in s.streams
  {
    assert Emitted(s') == Emitted(s)[i := t.emitted];
    assert Unsent(s') == Unsent(s)[i := t.Unsent()];
    PoolUpdate(Emitted(s), i, t.emitted);
    PoolUpdate(Unsent(s), i, t.Unsent());
  }

  lemma Appended(t: Stream, t': Stream)
    requires t.emitted <= t'.emitted && t.sent == t'.sent <= |t.emitted|
    ensures var more := multiset(t'.emitted[|t.emitted|..]);
            multiset(t'.emitted) == multiset(t.emitted) + more && multiset(t'.Unsent()) == multiset(t.Unsent()) + more
  {
    var more := t'.emitted[|t.emitted|..];
    assert t'.emitted == t.emitted + more;
    assert t'.Unsent() == t.Unsent() + more;
  }

  lemma AgentInv(s: State, i: nat, ch: seq<EventType>, close: bool)
    requires Inv(s) && i < |s.streams| && !s.streams[i].closed && s.streams[i].emitted <= ch && |ch| <= s.limit
    ensures Inv(Next(s, AgentDoes(i, ch, close)))
  {
    var s' := Next(s, AgentDoes(i, ch, close));
    var t, t' := s.streams[i], s'.streams[i];
    assert t in s.streams;
    StreamUpdate(s, s', i, t');
    var more := ch[|t.emitted|..];
    Appended(t, t');
    hide Emitted, Unsent, Pool, Next;
    Balance(multiset(s.received) + multiset(s.buffer), Pool(Unsent(s)), Pool(Unsent(s')), Pool(Emitted(s)),
        Pool(Emitted(s')),
            multiset(t.Unsent()), multiset(t.emitted), multiset(more));
  }

  lemma Cancel(a: multiset<EventType>, b: multiset<EventType>, c: multiset<EventType>)
    requires a + c == b + c
    ensures a == b
  {
    forall x
      ensures a[x] == b[x]
    {
      assert (a + c)[x] == (b + c)[x];
    }
  }

  lemma Balance(fixed: multiset<EventType>, u: multiset<EventType>, u': multiset<EventType>,
                e: multiset<EventType>, e': multiset<EventType>,
                tu: multiset<EventType>, te: multiset<EventType>, more: multiset<EventType>)
    requires fixed + u == e
    requires u' + tu == u + (tu + more) && e' + te == e + (te + more)
    ensures fixed + u' == e'
  {
    assert u + (tu + more) == (u + more) + tu;
    Cancel(u', u + more, tu);
    assert e + (te + more) == (e + more) + te;
    Cancel(e', e + more, te);
    assert fixed + (u + more) == (fixed + u) + more;
  }

  lemma SendInv(s: State, i: nat)
    requires Inv(s) && i < |s.streams| && s.streams[i].sent < s.streams[i].taken <= |s.streams[i].emitted|
    ensures Inv(s.(streams := s.streams[i := s.streams[i].(sent := s.streams[i].sent + 1)],
                   buffer := s.buffer + [s.streams[i].emitted[s.streams[i].sent]]))
  {
    var t := s.streams[i];
    assert GoodStream(t, s.limit) by {
      assert t in s.streams;
    }
    var t', e := t.(sent := t.sent + 1), t.emitted[t.sent];
    var s' := s.(streams := s.streams[i := t'], buffer := s.buffer + [e]);
    SendConserves(s, i, t', e, s');
    StreamUpdate(s, s', i, t');
  }

  lemma SendConserves(s: State, i: nat, t': Stream, e: EventType, s': State)
    requires i < |s.streams| && GoodStream(s.streams[i], s.limit) && s.streams[i].sent < s.streams[i].taken
    requires t' == s.streams[i].(sent := s.streams[i].sent + 1) && e == s.streams[i].emitted[s.streams[i].sent]
    requires s' == s.(streams := s.streams[i := t'], buffer := s.buffer + [e])
    ensures multiset(s'.received) + multiset(s'.buffer) + Pool(Unsent(s')) ==
              multiset(s.received) + multiset(s.buffer) + Pool(Unsent(s))
    ensures Emitted(s') == Emitted(s)
  {
    StreamUpdate(s, s', i, t');
    assert Emitted(s') == Emitted(s);
    FirstUnsent(s.streams[i], t', e, s.buffer);
    hide Emitted, Unsent, Pool, GoodStream, Stream.Unsent;
    MoveOne(multiset(s.received), multiset(s.buffer), Pool(Unsent(s)), Pool(Unsent(s')), multiset(t'.Unsent()), e);
  }

  lemma FirstUnsent(t: Stream, t': Stream, e: EventType, buffer: seq<EventType>)
    requires t.sent < |t.emitted| && t' == t.(sent := t.sent + 1) && e == t.emitted[t.sent]
    ensures multiset(t.Unsent()) == multiset{e} + multiset(t'.Unsent())
    ensures multiset(buffer + [e]) == multiset(buffer) + multiset{e}
  {
    assert t.Unsent() == [e] + t'.Unsent();
  }

  lemma MoveOne(r: multiset<EventType>, b: multiset<EventType>, u: multiset<EventType>, u': multiset<EventType>,
                rest: multiset<EventType>, e: EventType)
    requires u' + (multiset{e} + rest) == u + rest
    ensures r + (b + multiset{e}) + u' == r + b + u
  {
    assert u' + (multiset{e} + rest) == (u' + multiset{e}) + rest;
    Cancel(u' + multiset{e}, u, rest);
  }

  /** Taking an event or leaving the loop does not move any event between the pools. */
  lemma LocalInv(s: State, i: nat, t: Stream)
    requires Inv(s) && i < |s.streams|
    requires t.emitted == s.streams[i].emitted && t.sent == s.streams[i].sent
    requires GoodStream(t, s.limit) && (s.streams[i].exited ==> t.exited)
    ensures Inv(s.(streams := s.streams[i := t]))
  {
    var s' := s.(streams := s.streams[i := t]);
    SamePools(s, s', i, t);
    hide Emitted, Unsent, Pool, Conserved;
    assert s.streams[i] in s.streams;
  }

  lemma SamePools(s: State, s': State, i: nat, t: Stream)
    requires i < |s.streams| && s'.streams == s.streams[i := t]
    requires t.emitted == s.streams[i].emitted && t.sent == s.streams[i].sent
    ensures Emitted(s') == Emitted(s) && Unsent(s') == Unsent(s)
    ensures forall u | u in s'.streams :: u == t || u in s.streams
  {
  }

  lemma FirstMoves(received: seq<EventType>, buffer: seq<EventType>, unsent: multiset<EventType>,
                   emitted: multiset<EventType>)
    requires buffer != [] && Conserved(received, buffer, unsent, emitted)
    ensures Conserved(received + [buffer[0]], buffer[1..], unsent, emitted)
  {
    assert buffer == [buffer[0]] + buffer[1..];
    assert multiset(received + [buffer[0]]) + multiset(buffer[1..]) == multiset(received) + multiset(buffer);
  }

  lemma SameStreams(s: State, s': State)
    requires s'.streams == s.streams
    ensures Emitted(s') == Emitted(s) && Unsent(s') == Unsent(s)
    ensures s'.received == s.received ==> s'.Finished() == s.Finished()
  {
  }

  lemma ReceiveInv(s: State)
    requires Inv(s)
    ensures Inv(Next(s, Receive))
  {
    SameStreams(s, Next(s, Receive));
    if s.buffer != [] {
      FirstMoves(s.received, s.buffer, Pool(Unsent(s)), Pool(Emitted(s)));
    }
    hide Emitted, Unsent, Pool, GoodStream, Conserved;
  }

  lemma CloseInv(s: State)
    requires Inv(s)
    ensures Inv(Next(s, CloseResults))
  {
    SameStreams(s, Next(s, CloseResults));
    hide Emitted, Unsent, Pool, GoodStream, Conserved, State.Finished;
  }

  lemma AgentStep(s: State, i: nat, ch: seq<EventType>, close: bool)
    requires Inv(s)
    ensures Inv(Next(s, AgentDoes(i, ch, close)))
  {
    if Next(s, AgentDoes(i, ch, close)) != s {
      hide Inv;
      AgentInv(s, i, ch, close);
    }
  }

  lemma SendStep(s: State, i: nat)
    requires Inv(s)
    ensures Inv(Next(s, Send(i)))
  {
    if Next(s, Send(i)) != s {
      hide Inv;
      SendInv(s, i);
    }
  }

  lemma LocalStep(s: State, step: Step, i: nat)
    requires Inv(s) && step in {Take(i), Exit(i)}
    ensures Inv(Next(s, step))
  {
    if Next(s, step) != s {
      StreamsGood(s);
      hide Inv;
      LocalInv(s, i, Next(s, step).streams[i]);
    }
  }

  lemma StreamsGood(s: State)
    requires Inv(s)
    ensures forall i | 0 <= i < |s.streams| :: GoodStream(s.streams[i], s.limit)
  {
    forall i | 0 <= i < |s.streams|
      ensures GoodStream(s.streams[i], s.limit)
    {
      assert s.streams[i] in s.streams;
    }
  }

  /** No step loses, duplicates or invents an event. */
  lemma StepInv(s: State, step: Step)
    requires Inv(s)
    ensures Inv(Next(s, step))
  {
    hide Inv, Next;
    match step
    case AgentDoes(i, ch, close) =>
      AgentStep(s, i, ch, close);
    case Take(i) =>
      LocalStep(s, step, i);
    case Send(i) =>
      SendStep(s, i);
    case Exit(i) =>
      LocalStep(s, step, i);
    case CloseResults =>
      CloseInv(s);
    case Receive =>
      ReceiveInv(s);
  }

  // ------------------------------------------------------------------ theorems

  lemma EmittedSize(s: State, n: nat)
    requires forall t | t in s.streams :: |t.emitted| <= n
    ensures |Pool(Emitted(s))| <= n * |s.streams|
    ensures (exists t :: t in s.streams && |t.emitted| < n) ==> |Pool(Emitted(s))| < n * |s.streams|
  {
    forall p | p in Emitted(s)
      ensures |p| <= n
    {
      var k :| 0 <= k < |s.streams| && Emitted(s)[k] == p;
      assert s.streams[k] in s.streams;
    }
    PoolSize(Emitted(s), n);
    if t :| t in s.streams && |t.emitted| < n {
      var k :| 0 <= k < |s.streams| && s.streams[k] == t;
      assert Emitted(s)[k] in Emitted(s);
    }
  }

  /** With at most two events a stream, a forwarder that holds an event always finds room in the channel,
      whatever the consumer does. */
  lemma NeverBlocks(s: State, i: nat)
    requires Inv(s) && s.limit <= 2
    requires i < |s.streams| && s.streams[i].sent < s.streams[i].taken
    ensures |s.buffer| < 2 * |s.streams|
    ensures Next(s, Send(i)).streams[i].sent == s.streams[i].taken
  {
    assert s.streams[i] in s.streams;
    var held := s.streams[i].emitted[s.streams[i].sent];
    assert held in Unsent(s)[i];
    PoolMember(Unsent(s), held);
    EmittedSize(s, 2);
    hide Emitted, Unsent, Pool, GoodStream;
    assert |multiset(s.buffer)| == |s.buffer|;
    var all := multiset(s.received) + multiset(s.buffer) + Pool(Unsent(s));
    assert |all| == |s.received| + |s.buffer| + |Pool(Unsent(s))|;
    assert |Pool(Unsent(s))| > 0;
  }

  /** Work the forwarders have left. */
  ghost function StreamWork(t: Stream): int {
    2 * |t.emitted| - t.taken - t.sent + (if t.exited then 0 else 1)
  }

  ghost function Work(ts: seq<Stream>): int {
    if ts == [] then 0 else StreamWork(ts[0]) + Work(ts[1..])
  }

  lemma {:induction false} WorkUpdate(ts: seq<Stream>, i: nat, t: Stream)
    requires i < |ts|
    ensures Work(ts[i := t]) == Work(ts) - StreamWork(ts[i]) + StreamWork(t)
  {
    if i == 0 {
      assert ts[0 := t][1..] == ts[1..];
    } else {
      assert ts[i := t][1..] == ts[1..][i - 1 := t];
      WorkUpdate(ts[1..], i - 1, t);
    }
  }

  lemma {:induction false} WorkNonNegative(ts: seq<Stream>, limit: nat)
    requires forall t | t in ts :: GoodStream(t, limit)
    ensures Work(ts) >= 0
  {
    if ts != [] {
      assert ts[0] in ts;
      assert forall t | t in ts[1..] :: t in ts;
      WorkNonNegative(ts[1..], limit);
    }
  }

  /** The forwarder's own next move on stream i. */
  function ForwarderMove(t: Stream, i: nat): Step {
    if t.sent < t.taken then Send(i) else if t.taken < |t.emitted| then Take(i) else Exit(i)
  }

  /** Every move of a forwarder leaves strictly less work. */
  lemma MoveLessens(s: State, move: Step)
    requires Inv(s) && (move.Take? || move.Send? || move.Exit?) && Next(s, move) != s
    ensures 0 <= Work(Next(s, move).streams) < Work(s.streams)
  {
    var s' := Next(s, move);
    WorkUpdate(s.streams, move.i, s'.streams[move.i]);
    StepInv(s, move);
    WorkNonNegative(s'.streams, s'.limit);
  }

  /** Once the agents have closed their streams, the forwarders finish and close `results` on their own: while
      `results` is open one of them can move, and every move leaves strictly less work. The consumer is never
      needed, so nothing leaks after watchJob has stopped reading. */
  lemma ForwardersFinish(s: State) returns (move: Step)
    requires Inv(s) && s.limit <= 2 && !s.resultsClosed
    requires forall t | t in s.streams :: t.closed
    ensures move == CloseResults || exists i :: move == Take(i) || move == Send(i) || move == Exit(i)
    ensures move == CloseResults ==> Next(s, move).resultsClosed
    ensures Next(s, move) != s && Next(s, move).received == s.received
    ensures forall m: Step | (m.Take? || m.Send? || m.Exit?) && Next(s, m) != s ::
              0 <= Work(Next(s, m).streams) < Work(s.streams)
  {
    forall m: Step | (m.Take? || m.Send? || m.Exit?) && Next(s, m) != s
      ensures 0 <= Work(Next(s, m).streams) < Work(s.streams)
    {
      MoveLessens(s, m);
    }
    if i :| 0 <= i < |s.streams| && !s.streams[i].exited {
      var t := s.streams[i];
      assert t in s.streams;
      move := ForwarderMove(t, i);
      if t.sent < t.taken {
        NeverBlocks(s, i);
      }
    } else {
      assert forall t | t in s.streams :: t.exited;
      move := CloseResults;
    }
  }

  /** Every stream keeps the adapters' contract. */
  ghost predicate AllKeepContract(s: State, cancelled: bool) {
    forall t | t in s.streams :: Contract(t.emitted, t.closed, cancelled)
  }

  /** Under the contract, the counting loop reaches its phase write only when every agent has reported, and the
      verdict is Failed exactly when some agent failed, in whatever order the events were merged. */
  lemma VerdictIsRight(s: State, cancelled: bool)
    requires Inv(s) && AllKeepContract(s, cancelled) && s.Finished()
    ensures forall t | t in s.streams :: |t.emitted| == 1
    ensures s.AnyFailed() <==> exists t :: t in s.streams && t.emitted == [Failed]
  {
    AllReceived(s);
    FailuresAreReceived(s);
  }

  lemma AllReceived(s: State)
    requires Inv(s) && s.Finished() && forall t | t in s.streams :: |t.emitted| <= 1
    ensures forall t | t in s.streams :: |t.emitted| == 1
    ensures multiset(s.received) == Pool(Emitted(s))
  {
    EmittedSize(s, 1);
    CountsFit(multiset(s.received));
    hide Emitted, Unsent, Pool, GoodStream;
    var rest := multiset(s.buffer) + Pool(Unsent(s));
    assert Pool(Emitted(s)) == multiset(s.received) + rest;
    assert |Pool(Emitted(s))| == |s.received| + |rest|;
    assert |rest| == 0;
  }

  lemma FailuresAreReceived(s: State)
    requires multiset(s.received) == Pool(Emitted(s)) && forall t | t in s.streams :: |t.emitted| == 1
    ensures s.AnyFailed() <==> exists t :: t in s.streams && t.emitted == [Failed]
  {
    PoolMember(Emitted(s), Failed);
    if s.AnyFailed() {
      var i :| 0 <= i < |s.streams| && Failed in Emitted(s)[i];
      assert s.streams[i] in s.streams && s.streams[i].emitted == [Failed];
    }
    if t :| t in s.streams && t.emitted == [Failed] {
      var i :| 0 <= i < |s.streams| && s.streams[i] == t;
      assert Failed in Emitted(s)[i];
    }
  }

  lemma CountsFit(m: multiset<EventType>)
    ensures m[EventType.Completed] + m[EventType.Failed] <= |m|
  {
    var done := multiset{}[EventType.Completed := m[EventType.Completed]];
    var bad := multiset{}[EventType.Failed := m[EventType.Failed]];
    assert done + bad <= m;
    assert m == done + bad + (m - (done + bad));
  }

  /** When as many events have been counted as there are streams, the count is complete. */
  lemma AllCountedIsFinished(s: State, cancelled: bool)
    requires Inv(s) && AllKeepContract(s, cancelled) && |s.received| >= |s.streams|
    ensures s.Finished()
  {
    forall e | e in s.received
      ensures e.IsTerminal()
    {
      assert e in multiset(s.received);
      PoolMember(Emitted(s), e);
      var i :| 0 <= i < |s.streams| && e in Emitted(s)[i];
      assert s.streams[i] in s.streams;
    }
    AllTerminalCount(s.received);
  }

  lemma {:induction false} AllTerminalCount(r: seq<EventType>)
    requires forall e | e in r :: e.IsTerminal()
    ensures multiset(r)[EventType.Completed] + multiset(r)[EventType.Failed] == |r|
  {
    if r != [] {
      var last := |r| - 1;
      assert r[last] in r;
      assert forall e | e in r[..last] :: e in r;
      AllTerminalCount(r[..last]);
      assert r == r[..last] + [r[last]];
    }
  }

  lemma NothingUnsent(s: State)
    requires forall t | t in s.streams :: GoodStream(t, s.limit) && t.exited
    ensures Pool(Unsent(s)) == multiset{}
  {
    forall p | p in Unsent(s)
      ensures p == []
    {
      var k :| 0 <= k < |s.streams| && Unsent(s)[k] == p;
      assert s.streams[k] in s.streams;
    }
    PoolEmpty(Unsent(s));
  }

  /** watchJob returns without writing only when some agent stream was closed in silence, which the contract
      allows only after a cancel. */
  lemma ReturnsOnlyOnSilence(s: State, cancelled: bool)
    requires Inv(s) && AllKeepContract(s, cancelled) && s.returned
    ensures exists t :: t in s.streams && t.closed && t.emitted == []
    ensures cancelled
  {
    var n := |s.streams|;
    if forall t | t in s.streams :: t.emitted != [] {
      NothingUnsent(s);
      assert multiset(s.received) == Pool(Emitted(s));
      forall e | e in s.received
        ensures e.IsTerminal()
      {
        assert e in multiset(s.received);
        PoolMember(Emitted(s), e);
        var i :| 0 <= i < n && e in Emitted(s)[i];
        assert s.streams[i] in s.streams;
      }
      AllTerminalCount(s.received);
      PoolAtLeast(Emitted(s));
      assert false;
    }
    var t :| t in s.streams && t.emitted == [];
    assert t.exited && t.closed;
  }

  lemma {:induction false} PoolAtLeast(parts: seq<seq<EventType>>)
    requires forall p | p in parts :: p != []
    ensures |Pool(parts)| >= |parts|
  {
    if parts != [] {
      assert parts[0] in parts;
      assert forall p | p in parts[1..] :: p in parts;
      PoolAtLeast(parts[1..]);
    }
  }

  /** s' is nearer to the end than s: less forwarding work, or `results` newly closed, or fewer events to count. */
  ghost predicate Nearer(s': State, s: State) {
    && 0 <= Work(s'.streams)
    && (|| Work(s'.streams) < Work(s.streams)
        || (s'.streams == s.streams && s'.buffer == s.buffer && s'.resultsClosed && !s.resultsClosed)
        || (s'.streams == s.streams && s'.resultsClosed == s.resultsClosed && |s'.buffer| < |s.buffer|))
  }

  /** The other direction: when all agents have reported and their streams are closed, the count is never given
      up, and as long as it is not complete some goroutine can move nearer to the end. */
  lemma AllReportedGetsCounted(s: State, cancelled: bool) returns (move: Step)
    requires Inv(s) && AllKeepContract(s, cancelled) && s.limit <= 2 && !s.Finished()
    requires forall t | t in s.streams :: t.closed && t.emitted != []
    ensures !move.AgentDoes?
    ensures !s.returned && !Next(s, move).returned
    ensures Nearer(Next(s, move), s)
  {
    if s.returned {
      ReturnsOnlyOnSilence(s, cancelled);
    }
    WorkNonNegative(s.streams, s.limit);
    if !s.resultsClosed {
      move := ForwardersFinish(s);
    } else {
      move := Receive;
      StepInv(s, move);
      if s.buffer == [] {
        ReturnsOnlyOnSilence(Next(s, move), cancelled);
      }
    }
  }

  /** And no step of anyone takes it away from the end, so the count is reached whatever the scheduling. */
  lemma EveryStepNears(s: State, cancelled: bool, step: Step)
    requires Inv(s) && AllKeepContract(s, cancelled)
    requires forall t | t in s.streams :: t.closed && t.emitted != []
    ensures Next(s, step) == s || Nearer(Next(s, step), s)
  {
    assert forall i | 0 <= i < |s.streams| :: s.streams[i] in s.streams;
    if Next(s, step) != s {
      WorkNonNegative(s.streams, s.limit);
      match step
      case Take(_) => MoveLessens(s, step);
      case Send(_) => MoveLessens(s, step);
      case Exit(_) => MoveLessens(s, step);
      case AgentDoes(_, _, _) =>
      case CloseResults =>
      case Receive =>
        if s.buffer == [] {
          StepInv(s, step);
          ReturnsOnlyOnSilence(Next(s, step), cancelled);
        }
    }
  }
}
