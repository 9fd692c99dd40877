/**
 The concurrent in-memory scheduler (core/scheduler/scheduler.go) as a transition system. A step is one
 lock-delimited section, one adapter call, or one channel operation; any number of `Schedule` and `Cancel`
 calls may be in flight. A step that is not enabled leaves the state alone, so a run is just any sequence of steps.
 */
module SchedulerModel {
  import opened Lifecycle
  import opened AgentStreams
  import FanIn

  type AgentId = string

  /** The caller's job; `roles` is the number of entries in Spec.Agents. */
  datatype Job = Job(id: string, tenant: string, roles: nat, phase: Phase)

  /** An entry of the jobs map. `maker` names the Schedule call that made it; `stopped` is its cancelled watch context.
      */
  datatype Record = Record(job: Job, agents: seq<AgentId>, maker: nat, stopped: bool)

  datatype Reason = Duplicate | IllegalPhase

  datatype SchedulePc = Open | Recorded | Rejecting(next: nat, reason: Reason) | Abandoned

  /** A Schedule call: the agents it has spawned, how many of them it watches, and where it stands. */
  datatype Attempt = Attempt(job: Job, agents: seq<AgentId>, watched: nat, at: SchedulePc)

  /** TerminateFailed tells at which agent. */
  datatype CancelPc = Stopping(next: nat) | Done | Refused | TerminateFailed(next: nat) | NoSuchJob | Vanished

  datatype CancelCall = CancelCall(id: string, agents: seq<AgentId>, at: CancelPc)

  /** The i-th agent of the a-th Schedule call. */
  datatype Place = Place(a: nat, i: nat)

  datatype Watcher = Watcher(fan: FanIn.State, wrote: bool)

  /** Everything outside the jobs map: calls in flight, watch goroutines, the platform's agents, and the
      phases each record has had. */
  datatype World = World(
    reuse: bool,                       // may the platform hand out the name of an agent that is gone again?
    attempts: seq<Attempt>,
    cancels: seq<CancelCall>,
    watchers: map<string, Watcher>,
    spawned: set<AgentId>,
    holder: map<AgentId, Place>,       // the place that spawned the agent of this name last
    sent: set<AgentId>,                // agents passed to TerminateAgent since they were last spawned
    gone: set<AgentId>,                // agents that TerminateAgent, or somebody outside, has removed since
    lost: set<Place>,                  // the places whose agents somebody outside has removed
    history: map<string, seq<Phase>>)

  datatype Sys = Sys(jobs: map<string, Record>, world: World)

  datatype Step =
    | CallSchedule(job: Job)
    | Spawn(a: nat, answer: Option<AgentId>)
    | Watch(a: nat, ok: bool)
    | Commit(a: nat)
    | Reject(a: nat, ok: bool)
    | CallCancel(id: string)
    | Terminate(c: nat, ok: bool)
    | CommitCancel(c: nat)
    | Fan(id: string, move: FanIn.Step)
    | WriteVerdict(id: string)
    | AgentLost(id: AgentId)

  function Init(reuse: bool): Sys {
    Sys(map[], World(reuse, [], [], map[], {}, map[], {}, {}, {}, map[]))
  }

  predicate IsAvailable(w: World, id: AgentId) {
    id !in w.spawned || (w.reuse && id in w.gone)
  }

  function SetPhase(r: Record, p: Phase): Record {
    r.(job := r.job.(phase := p))
  }

  function DoSpawn(w: World, a: nat, answer: Option<AgentId>): World {
    if a < |w.attempts| && w.attempts[a].at == Open && |w.attempts[a].agents| < w.attempts[a].job.roles then
      if answer.Some? && IsAvailable(w, answer.value) then
        w.(attempts := w.attempts[a := w.attempts[a].(agents := w.attempts[a].agents + [answer.value])],
           spawned := w.spawned + {answer.value},
           holder := w.holder[answer.value := Place(a, |w.attempts[a].agents|)],
           sent := w.sent - {answer.value},
           gone := w.gone - {answer.value})
      else
        w.(attempts := w.attempts[a := w.attempts[a].(at := Abandoned)])
    else w
  }

  function DoWatch(w: World, a: nat, ok: bool): World {
    if a < |w.attempts| && w.attempts[a].at == Open && |w.attempts[a].agents| == w.attempts[a].job.roles
       && w.attempts[a].watched < w.attempts[a].job.roles then
      w.(attempts := w.attempts[a := if ok then w.attempts[a].(watched := w.attempts[a].watched + 1)
                                     else w.attempts[a].(at := Abandoned)])
    else w
  }

  predicate ReadyToCommit(w: World, a: nat) {
    && a < |w.attempts| && w.attempts[a].at == Open
    && |w.attempts[a].agents| == w.attempts[a].job.roles == w.attempts[a].watched
  }

  /** The section under the lock, lines 71-108. */
  function DoCommit(s: Sys, a: nat): Sys {
    if !ReadyToCommit(s.world, a) then s else
    var t := s.world.attempts[a];
    var first := Normal(t.job.phase);
    if t.job.id in s.jobs then
      s.(world := s.world.(attempts := s.world.attempts[a := t.(at := Rejecting(0, Duplicate))]))
    else match Transition(first, Spawned)
      case None =>
        s.(world := s.world.(attempts := s.world.attempts[a := t.(at := Rejecting(0, IllegalPhase))]))
      case Some(next) =>
        Sys(s.jobs[t.job.id := Record(t.job.(phase := next), t.agents, a, false)],
            s.world.(attempts := s.world.attempts[a := t.(at := Recorded)],
                     watchers := s.world.watchers[t.job.id := Watcher(FanIn.Start(|t.agents|, 1), false)],
                     history := s.world.history[t.job.id := [first, next]]))
  }

  function DoReject(w: World, a: nat, ok: bool): World {
    if a < |w.attempts| && w.attempts[a].at.Rejecting? && w.attempts[a].at.next < |w.attempts[a].agents| then
      var t := w.attempts[a];
      var id := t.agents[t.at.next];
      w.(attempts := w.attempts[a := t.(at := Rejecting(t.at.next + 1, t.at.reason))],
         sent := w.sent + {id},
         gone := if ok then w.gone + {id} else w.gone)
    else w
  }

  /** The first section of Cancel under the lock, lines 115-124. */
  function DoCallCancel(s: Sys, id: string): World {
    s.world.(cancels := s.world.cancels + [
      if id in s.jobs then CancelCall(id, s.jobs[id].agents, Stopping(0)) else CancelCall(id, [], NoSuchJob)])
  }

  function DoTerminate(w: World, c: nat, ok: bool): World {
    if c < |w.cancels| && w.cancels[c].at.Stopping? && w.cancels[c].at.next < |w.cancels[c].agents| then
      var t := w.cancels[c];
      var id := t.agents[t.at.next];
      if ok then
        w.(cancels := w.cancels[c := t.(at := Stopping(t.at.next + 1))], sent := w.sent + {id},
            gone := w.gone + {id})
      else
        w.(cancels := w.cancels[c := t.(at := TerminateFailed(t.at.next))], sent := w.sent + {id})
    else w
  }

  predicate ReadyToCancel(w: World, c: nat) {
    c < |w.cancels| && w.cancels[c].at == Stopping(|w.cancels[c].agents|)
  }

  function Remember(w: World, id: string, p: Phase): map<string, seq<Phase>> {
    w.history[id := (if id in w.history then w.history[id] else []) + [p]]
  }

  /** The second section of Cancel under the lock, lines 134-149. */
  function DoCommitCancel(s: Sys, c: nat): Sys {
    if !ReadyToCancel(s.world, c) then s else
    var t := s.world.cancels[c];
    if t.id !in s.jobs then
      s.(world := s.world.(cancels := s.world.cancels[c := t.(at := Vanished)]))
    else
      var rec := s.jobs[t.id].(stopped := true);
      match Transition(rec.job.phase, Cancelled)
      case None =>
        Sys(s.jobs[t.id := rec], s.world.(cancels := s.world.cancels[c := t.(at := Refused)]))
      case Some(next) =>
        Sys(s.jobs[t.id := SetPhase(rec, next)],
            s.world.(cancels := s.world.cancels[c := t.(at := Done)], history := Remember(s.world, t.id, next)))
  }

  /** One channel operation of a job's watch goroutines; agents keep to the adapters' contract. */
  function DoFan(s: Sys, id: string, move: FanIn.Step): World {
    if id in s.world.watchers && id in s.jobs && !s.world.watchers[id].wrote
       && (move.AgentDoes? ==> Contract(move.ch, move.close, s.jobs[id].stopped)) then
      var w := s.world.watchers[id];
      s.world.(watchers := s.world.watchers[id := w.(fan := FanIn.Next(w.fan, move))])
    else s.world
  }

  predicate ReadyToWrite(w: World, id: string) {
    id in w.watchers && w.watchers[id].fan.Finished() && !w.watchers[id].wrote
  }

  /** The last section of watchJob under the lock, lines 208-221: it assigns the phase, it does not ask Transition. */
  function DoWriteVerdict(s: Sys, id: string): Sys {
    if !ReadyToWrite(s.world, id) then s else
    var w := s.world.watchers[id];
    var world := s.world.(watchers := s.world.watchers[id := w.(wrote := true)]);
    if id !in s.jobs then s.(world := world) else
    var rec := s.jobs[id];
    if rec.job.phase != Terminating && !rec.job.phase.IsTerminal() then
      var p := if w.fan.AnyFailed() then Phase.Failed else Phase.Succeeded;
      Sys(s.jobs[id := SetPhase(rec, p)], world.(history := Remember(world, id, p)))
    else s.(world := world)
  }

  /** Somebody outside removes an agent that is there, say a pod. */
  function DoLose(w: World, id: AgentId): World {
    if id in w.holder && id !in w.gone then w.(gone := w.gone + {id}, lost := w.lost + {w.holder[id]}) else w
  }

  function Next(s: Sys, step: Step): Sys {
    match step
    case CallSchedule(job) => s.(world := s.world.(attempts := s.world.attempts + [Attempt(job, [], 0, Open)]))
    case Spawn(a, answer) => s.(world := DoSpawn(s.world, a, answer))
    case Watch(a, ok) => s.(world := DoWatch(s.world, a, ok))
    case Commit(a) => DoCommit(s, a)
    case Reject(a, ok) => s.(world := DoReject(s.world, a, ok))
    case CallCancel(id) => s.(world := DoCallCancel(s, id))
    case Terminate(c, ok) => s.(world := DoTerminate(s.world, c, ok))
    case CommitCancel(c) => DoCommitCancel(s, c)
    case Fan(id, move) => s.(world := DoFan(s, id, move))
    case WriteVerdict(id) => DoWriteVerdict(s, id)
    case AgentLost(id) => s.(world := DoLose(s.world, id))
  }

  function Exec(s: Sys, steps: seq<Step>): Sys
    decreases |steps|
  {
    if steps == [] then s else Next(Exec(s, steps[..|steps| - 1]), steps[|steps| - 1])
  }

  // ------------------------------------------------- invariants, any platform

  ghost predicate AttemptsOk(attempts: seq<Attempt>, spawned: set<AgentId>) {
    forall a :: 0 <= a < |attempts| ==> AttemptOk(attempts[a], spawned)
  }

  ghost predicate AttemptOk(t: Attempt, spawned: set<AgentId>) {
    && t.watched <= |t.agents| <= t.job.roles
    && (forall id | id in t.agents :: id in spawned)
    && (t.at.Rejecting? ==> t.at.next <= |t.agents|)
    && (t.at.Recorded? || t.at.Rejecting? ==> t.watched == |t.agents| == t.job.roles)
  }

  /** Records and successful Schedule calls correspond one to one. */
  ghost predicate RecordsOk(jobs: map<string, Record>, attempts: seq<Attempt>) {
    && (forall j | j in jobs :: RecordOk(j, jobs[j], attempts))
    && (forall a :: 0 <= a < |attempts| && attempts[a].at == Recorded ==>
          attempts[a].job.id in jobs && jobs[attempts[a].job.id].maker == a)
  }

  ghost predicate RecordOk(j: string, r: Record, attempts: seq<Attempt>) {
    && r.job.id == j && r.maker < |attempts|
    && attempts[r.maker].at == Recorded
    && attempts[r.maker].job.id == j
    && attempts[r.maker].agents == r.agents
  }

  ghost predicate HistoryOk(h: seq<Phase>, now: Phase) {
    && |h| >= 2 && h[0] == Pending && h[|h| - 1] == now
    && IsPath(h)
  }

  /** A watch goroutine group works for exactly the recorded agents, and a written verdict is the right one. */
  ghost predicate WatcherOk(w: Watcher, rec: Record, h: seq<Phase>) {
    && w.fan.limit == 1 && |w.fan.streams| == |rec.agents|
    && FanIn.Inv(w.fan)
    && FanIn.AllKeepContract(w.fan, rec.stopped)
    && (w.wrote ==> w.fan.Finished() && rec.job.phase != Running)
    && (Phase.Succeeded in h ==> w.wrote && !w.fan.AnyFailed())
    && (Phase.Failed in h ==> w.wrote && w.fan.AnyFailed())
  }

  ghost predicate JobOk(rec: Record, w: Watcher, h: seq<Phase>) {
    && HistoryOk(h, rec.job.phase)
    && (rec.stopped <==> rec.job.phase == Terminating)
    && WatcherOk(w, rec, h)
  }

  ghost predicate JobsOk(jobs: map<string, Record>, watchers: map<string, Watcher>, history: map<string, seq<Phase>>) {
    && history.Keys == jobs.Keys
    && watchers.Keys == jobs.Keys
    && (forall j | j in jobs :: JobOk(jobs[j], watchers[j], history[j]))
  }

  ghost predicate CancelsOk(jobs: map<string, Record>, cancels: seq<CancelCall>) {
    && (forall c :: 0 <= c < |cancels| ==> CancelOk(jobs, cancels[c]))
    && (forall c, d :: 0 <= c < d < |cancels| && cancels[c].at == Done && cancels[d].at == Done
          ==> cancels[c].id != cancels[d].id)
    && (forall j | j in jobs && jobs[j].job.phase == Terminating ::
          exists c :: 0 <= c < |cancels| && cancels[c].at == Done && cancels[c].id == j)
  }

  ghost predicate CancelOk(jobs: map<string, Record>, t: CancelCall) {
    && t.at != Vanished
    && (t.at != NoSuchJob ==> t.id in jobs && t.agents == jobs[t.id].agents)
    && (t.at.Stopping? ==> t.at.next <= |t.agents|)
    && (t.at.TerminateFailed? ==> t.at.next < |t.agents|)
    && (t.at == Done ==> jobs[t.id].job.phase == Terminating)
  }

  ghost predicate Inv(s: Sys) {
    && AttemptsOk(s.world.attempts, s.world.spawned)
    && RecordsOk(s.jobs, s.world.attempts)
    && JobsOk(s.jobs, s.world.watchers, s.world.history)
    && CancelsOk(s.jobs, s.world.cancels)
  }

  /** Some Cancel call found the job. */
  ghost predicate CancelSeen(cancels: seq<CancelCall>, j: string) {
    exists c :: 0 <= c < |cancels| && cancels[c].id == j && cancels[c].at != NoSuchJob
  }
}
