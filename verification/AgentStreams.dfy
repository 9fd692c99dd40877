/**
 The polling loops behind `WatchAgent` of the two adapters (platform/k8s/adapter.go, platform/cf/adapter.go),
 run against an arbitrary sequence of poll answers, and the contract that `watchJob` silently relies on.
 */
module AgentStreams {

  datatype EventType = Started | Completed | Failed
  {
    predicate IsTerminal() {
      this == Completed || this == Failed
    }
  }

  /** What one agent stream may look like at any moment: at most one event, a terminal one, and never
      closed in silence unless the watch context was cancelled. */
  predicate Contract(sent: seq<EventType>, closed: bool, cancelled: bool) {
    && |sent| <= 1
    && (forall e | e in sent :: e.IsTerminal())
    && (closed && sent == [] ==> cancelled)
  }

  // ---------------------------------------------------------------- Kubernetes

  datatype PodPhase = PodPending | PodRunning | PodSucceeded | PodFailed | PodUnknown

  datatype PodAnswer = Found(phase: PodPhase) | NotFound | GetError

  /** One round of the Kubernetes loop: the answer of Get, whether the context was already cancelled when
      ctx.Err() was asked, whether it was cancelled by the time of the select that follows, and which ready
      branch that select took. */
  datatype PodPoll = PodPoll(answer: PodAnswer, errSeen: bool, cancelled: bool, pickDone: bool)
  {
    /** A select takes the ctx.Done() branch only when the context is cancelled. */
    predicate Leaves() { cancelled && pickDone }
  }

  /** A round that ends the loop: the pod is gone or has finished, or the context is cancelled and seen to be. */
  predicate PodRoundEnds(p: PodPoll) {
    || p.answer in {NotFound, Found(PodSucceeded), Found(PodFailed)}
    || (p.answer == GetError && p.errSeen)
    || (p.cancelled && p.pickDone)
  }

  /** The first round that ends the loop got one of these answers, and its event was sent. */
  ghost predicate PodEndsWith(polls: seq<PodPoll>, answers: set<PodAnswer>) {
    exists i :: 0 <= i < |polls| && PodRoundEnds(polls[i]) && (forall k | 0 <= k < i :: !PodRoundEnds(polls[k]))
      && polls[i].answer in answers && !(polls[i].cancelled && polls[i].pickDone)
  }

  /** Runs the loop for as many rounds as there are answers; `closed` is false when it is still polling. */
  method K8sWatchAgent(polls: seq<PodPoll>) returns (ch: seq<EventType>, closed: bool)
    requires forall p | p in polls :: p.errSeen ==> p.cancelled
    ensures Contract(ch, closed, exists p :: p in polls && p.cancelled)
    ensures closed <==> exists i :: 0 <= i < |polls| && PodRoundEnds(polls[i])
    ensures ch == [Completed] <==> PodEndsWith(polls, {Found(PodSucceeded)})
    ensures ch == [Failed] <==> PodEndsWith(polls, {NotFound, Found(PodFailed)})
    ensures ch != [] ==> closed
  {
    ch, closed := [], false;
    var round := 0;
    while round < |polls| && !closed
      invariant 0 <= round <= |polls|
      invariant !closed ==> ch == [] && forall k :: 0 <= k < round ==> !PodRoundEnds(polls[k])
      invariant closed ==>
                  && round > 0 && PodRoundEnds(polls[round - 1])
                  && (forall k :: 0 <= k < round - 1 ==> !PodRoundEnds(polls[k]))
                  && var last := polls[round - 1];
                  ch == if (last.cancelled && last.pickDone) || last.answer == GetError then []
                        else if last.answer == Found(PodSucceeded) then [Completed] else [Failed]
    {
      var poll := polls[round];
      assert poll in polls;
      round := round + 1;
      match poll.answer
      case NotFound =>
        if !poll.Leaves() {
          ch := ch + [Failed];
        }
        closed := true;
      case GetError =>
        if poll.errSeen {
          closed := true;
        } else if poll.Leaves() {
          closed := true;
        }
      case Found(phase) =>
        if phase == PodSucceeded {
          if !poll.Leaves() {
            ch := ch + [Completed];
          }
          closed := true;
        } else if phase == PodFailed {
          if !poll.Leaves() {
            ch := ch + [Failed];
          }
          closed := true;
        } else if poll.Leaves() {
          closed := true;
        }
    }
  }

  // ------------------------------------------------------------- Cloud Foundry

  datatype TaskState = TaskPending | TaskRunning | TaskSucceeded | TaskFailed | TaskCanceling

  datatype TaskAnswer = Task(state: TaskState) | ContextCanceled | TaskError

  /** One round of the Cloud Foundry loop. */
  datatype TaskPoll = TaskPoll(answer: TaskAnswer, cancelled: bool, pickDone: bool)
  {
    predicate Leaves() { cancelled && pickDone }
  }

  /** A round that ends the loop: GetTask fails, the task has ended, or the context is cancelled and the select that
      follows sees it. */
  predicate TaskRoundEnds(p: TaskPoll) {
    || p.answer in {ContextCanceled, TaskError, Task(TaskSucceeded), Task(TaskFailed), Task(TaskCanceling)}
    || (p.cancelled && p.pickDone)
  }

  /** The first round that ends the loop got one of these answers. Here a send is unconditional. */
  ghost predicate TaskEndsWith(polls: seq<TaskPoll>, answers: set<TaskAnswer>) {
    exists i :: 0 <= i < |polls| && TaskRoundEnds(polls[i]) && (forall k | 0 <= k < i :: !TaskRoundEnds(polls[k]))
      && polls[i].answer in answers
  }

  /** GetTask reports context.Canceled only for a context that is cancelled. */
  method CfWatchAgent(polls: seq<TaskPoll>) returns (ch: seq<EventType>, closed: bool)
    requires forall p | p in polls :: p.answer == ContextCanceled ==> p.cancelled
    ensures Contract(ch, closed, exists p :: p in polls && p.cancelled)
    ensures closed <==> exists i :: 0 <= i < |polls| && TaskRoundEnds(polls[i])
    ensures ch == [Completed] <==> TaskEndsWith(polls, {Task(TaskSucceeded)})
    ensures ch == [Failed] <==> TaskEndsWith(polls, {TaskError, Task(TaskFailed), Task(TaskCanceling)})
    ensures ch != [] ==> closed
  {
    ch, closed := [], false;
    var round := 0;
    while round < |polls| && !closed
      invariant 0 <= round <= |polls|
      invariant !closed ==> ch == [] && forall k :: 0 <= k < round ==> !TaskRoundEnds(polls[k])
      invariant closed ==>
                  && round > 0 && TaskRoundEnds(polls[round - 1])
                  && (forall k :: 0 <= k < round - 1 ==> !TaskRoundEnds(polls[k]))
                  && ch == match polls[round - 1].answer
                           case Task(TaskSucceeded) => [Completed]
                           case Task(TaskFailed) => [Failed]
                           case Task(TaskCanceling) => [Failed]
                           case TaskError => [Failed]
                           case _ => []
    {
      var poll := polls[round];
      assert poll in polls;
      round := round + 1;
      match poll.answer
      case ContextCanceled =>
        closed := true;
      case TaskError =>
        ch := ch + [Failed];
        closed := true;
      case Task(state) =>
        if state == TaskSucceeded {
          ch := ch + [Completed];
          closed := true;
        } else if state == TaskFailed || state == TaskCanceling {
          ch := ch + [Failed];
          closed := true;
        } else if poll.Leaves() {
          closed := true;
        }
    }
  }
}
