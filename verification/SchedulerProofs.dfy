/** Every step of the scheduler keeps its invariants, on any platform. */
module SchedulerProofs {
  import opened Lifecycle
  import opened AgentStreams
  import opened SchedulerModel
  import FanIn

  // ------------------------------------------------------- one part at a time

  lemma AttemptsUpdate(attempts: seq<Attempt>, spawned: set<AgentId>, a: nat, t: Attempt, spawned': set<AgentId>)
    requires AttemptsOk(attempts, spawned) && a < |attempts|
    requires spawned <= spawned' && AttemptOk(t, spawned')
    ensures AttemptsOk(attempts[a := t], spawned')
  {
    var attempts' := attempts[a := t];
    forall b | 0 <= b < |attempts'|
      ensures AttemptOk(attempts'[b], spawned')
    {
      assert AttemptOk(attempts[b], spawned);
    }
  }

  lemma RecordsAttempt(jobs: map<string, Record>, attempts: seq<Attempt>, a: nat, t: Attempt)
    requires RecordsOk(jobs, attempts) && a < |attempts| && attempts[a].at != Recorded && t.at != Recorded
    ensures RecordsOk(jobs, attempts[a := t])
  {
    forall j | j in jobs
      ensures RecordOk(j, jobs[j], attempts[a := t])
    {
      assert RecordOk(j, jobs[j], attempts);
    }
  }

  lemma RecordsPhase(jobs: map<string, Record>, attempts: seq<Attempt>, id: string, r: Record)
    requires RecordsOk(jobs, attempts) && id in jobs
    requires r.agents == jobs[id].agents && r.maker == jobs[id].maker && r.job.id == jobs[id].job.id
    ensures RecordsOk(jobs[id := r], attempts)
  {
    forall j | j in jobs
      ensures RecordOk(j, jobs[id := r][j], attempts)
    {
      assert RecordOk(j, jobs[j], attempts);
    }
  }

  lemma JobsUpdate(jobs: map<string, Record>, watchers: map<string, Watcher>, history: map<string, seq<Phase>>,
                   id: string, r: Record, w: Watcher, h: seq<Phase>)
    requires JobsOk(jobs, watchers, history) && JobOk(r, w, h)
    ensures JobsOk(jobs[id := r], watchers[id := w], history[id := h])
  {
    hide JobOk;
  }

  lemma CancelsPhase(jobs: map<string, Record>, cancels: seq<CancelCall>, id: string, r: Record)
    requires CancelsOk(jobs, cancels) && id in jobs && r.agents == jobs[id].agents
    requires jobs[id].job.phase == Terminating <==> r.job.phase == Terminating
    ensures CancelsOk(jobs[id := r], cancels)
  {
    forall c | 0 <= c < |cancels|
      ensures CancelOk(jobs[id := r], cancels[c])
    {
      assert CancelOk(jobs, cancels[c]);
    }
  }

  lemma CancelsUpdate(jobs: map<string, Record>, cancels: seq<CancelCall>, c: nat, t: CancelCall)
    requires CancelsOk(jobs, cancels) && c < |cancels| && CancelOk(jobs, t)
    requires cancels[c].at != Done && t.at != Done
    ensures CancelsOk(jobs, cancels[c := t])
  {
    var cancels' := cancels[c := t];
    forall d | 0 <= d < |cancels'|
      ensures CancelOk(jobs, cancels'[d])
    {
      assert CancelOk(jobs, cancels[d]);
    }
    forall j | j in jobs && jobs[j].job.phase == Terminating
      ensures exists d :: 0 <= d < |cancels'| && cancels'[d].at == Done && cancels'[d].id == j
    {
      var d :| 0 <= d < |cancels| && cancels[d].at == Done && cancels[d].id == j;
      assert cancels'[d] == cancels[d];
    }
  }

  /** The successful end of a Cancel call: it is the first for its job. */
  lemma CancelsDone(jobs: map<string, Record>, cancels: seq<CancelCall>, c: nat, r: Record)
    requires CancelsOk(jobs, cancels) && c < |cancels| && cancels[c].at.Stopping?
    requires cancels[c].id in jobs && jobs[cancels[c].id].job.phase != Terminating
    requires r.job.phase == Terminating && r.agents == jobs[cancels[c].id].agents
    ensures CancelsOk(jobs[cancels[c].id := r], cancels[c := cancels[c].(at := Done)])
  {
    var jobs', cancels' := jobs[cancels[c].id := r], cancels[c := cancels[c].(at := Done)];
    forall d | 0 <= d < |cancels'|
      ensures CancelOk(jobs', cancels'[d])
    {
      assert CancelOk(jobs, cancels[d]);
    }
    assert forall d :: 0 <= d < |cancels| && cancels[d].at == Done ==> CancelOk(jobs, cancels[d]);
    forall j | j in jobs' && jobs'[j].job.phase == Terminating
      ensures exists d :: 0 <= d < |cancels'| && cancels'[d].at == Done && cancels'[d].id == j
    {
      if j == cancels[c].id {
        assert cancels'[c].at == Done;
      } else {
        var d :| 0 <= d < |cancels| && cancels[d].at == Done && cancels[d].id == j;
        assert d != c;
        assert cancels'[d] == cancels[d];
      }
    }
  }

  lemma CancelsAppend(jobs: map<string, Record>, cancels: seq<CancelCall>, t: CancelCall)
    requires CancelsOk(jobs, cancels) && CancelOk(jobs, t) && t.at != Done
    ensures CancelsOk(jobs, cancels + [t])
  {
    var cancels' := cancels + [t];
    forall j | j in jobs && jobs[j].job.phase == Terminating
      ensures exists d :: 0 <= d < |cancels'| && cancels'[d].at == Done && cancels'[d].id == j
    {
      var d :| 0 <= d < |cancels| && cancels[d].at == Done && cancels[d].id == j;
      assert cancels'[d] == cancels[d];
    }
  }

  // ------------------------------------------------------- one step at a time

  lemma ScheduleIoInv(s: Sys, step: Step)
    requires Inv(s) && (step.Spawn? || step.Watch? || step.Reject?)
    ensures Inv(Next(s, step))
  {
    hide RecordsOk, JobsOk, CancelsOk;
    var s' := Next(s, step);
    if s' != s {
      var t' := s'.world.attempts[step.a];
      assert AttemptOk(s.world.attempts[step.a], s.world.spawned);
      AttemptsUpdate(s.world.attempts, s.world.spawned, step.a, t', s'.world.spawned);
      RecordsAttempt(s.jobs, s.world.attempts, step.a, t');
    }
  }

  lemma CallScheduleInv(s: Sys, job: Job)
    requires Inv(s)
    ensures Inv(Next(s, CallSchedule(job)))
  {
    hide JobsOk, CancelsOk;
    var s' := Next(s, CallSchedule(job));
    forall j | j in s.jobs
      ensures RecordOk(j, s.jobs[j], s'.world.attempts)
    {
      assert RecordOk(j, s.jobs[j], s.world.attempts);
    }
  }

  /** A new record starts on the path Pending, Running, with nothing reported yet. */
  lemma StartRecord(first: Phase, t: Attempt, a: nat)
    requires Transition(first, Spawned) != None
    ensures var next := Transition(first, Spawned).value;
            && first == Pending && next == Running
            && JobOk(Record(t.job.(phase := next), t.agents, a, false), Watcher(FanIn.Start(|t.agents|, 1), false),
                 [first, next])
  {
    var next := Transition(first, Spawned).value;
    assert Edge(first, next);
    EdgeIff(first, next);
    FanIn.StartInv(|t.agents|, 1);
  }

  lemma CommitInv(s: Sys, a: nat)
    requires Inv(s)
    ensures Inv(Next(s, Commit(a)))
  {
    hide RecordsOk, JobsOk, CancelsOk, JobOk, Transition, FanIn.Start;
    if !ReadyToCommit(s.world, a) {
      return;
    }
    var s' := Next(s, Commit(a));
    var t, t' := s.world.attempts[a], s'.world.attempts[a];
    assert AttemptOk(t, s.world.spawned);
    AttemptsUpdate(s.world.attempts, s.world.spawned, a, t', s'.world.spawned);
    if t.job.id in s.jobs || Transition(Normal(t.job.phase), Spawned) == None {
      RecordsAttempt(s.jobs, s.world.attempts, a, t');
    } else {
      var first := Normal(t.job.phase);
      StartRecord(first, t, a);
      var rec := Record(t.job.(phase := Running), t.agents, a, false);
      JobsUpdate(s.jobs, s.world.watchers, s.world.history, t.job.id, rec, Watcher(FanIn.Start(|t.agents|, 1), false),
          [first, Running]);
      RecordsCommit(s.jobs, s.world.attempts, a, t', rec);
      CancelsGrow(s.jobs, s.world.cancels, t.job.id, rec);
    }
  }

  lemma RecordsCommit(jobs: map<string, Record>, attempts: seq<Attempt>, a: nat, t: Attempt, rec: Record)
    requires RecordsOk(jobs, attempts) && a < |attempts| && attempts[a].at != Recorded
    requires t == attempts[a].(at := Recorded) && t.job.id !in jobs
    requires rec.job.id == t.job.id && rec.maker == a && rec.agents == t.agents
    ensures RecordsOk(jobs[t.job.id := rec], attempts[a := t])
  {
    forall j | j in jobs
      ensures RecordOk(j, jobs[j], attempts[a := t])
    {
      assert RecordOk(j, jobs[j], attempts);
    }
  }

  lemma CancelsGrow(jobs: map<string, Record>, cancels: seq<CancelCall>, id: string, rec: Record)
    requires CancelsOk(jobs, cancels) && id !in jobs && rec.job.phase != Terminating
    ensures CancelsOk(jobs[id := rec], cancels)
  {
    forall c | 0 <= c < |cancels|
      ensures CancelOk(jobs[id := rec], cancels[c])
    {
      assert CancelOk(jobs, cancels[c]);
    }
  }

  lemma CancelIoInv(s: Sys, step: Step)
    requires Inv(s) && (step.CallCancel? || step.Terminate?)
    ensures Inv(Next(s, step))
  {
    hide RecordsOk, JobsOk, AttemptsOk, CancelsOk;
    var s' := Next(s, step);
    if step.CallCancel? {
      CancelsAppend(s.jobs, s.world.cancels, s'.world.cancels[|s.world.cancels|]);
    } else if s' != s {
      CancelCallOk(s, step.c);
      CancelsUpdate(s.jobs, s.world.cancels, step.c, s'.world.cancels[step.c]);
    }
  }

  lemma CancelCallOk(s: Sys, c: nat)
    requires CancelsOk(s.jobs, s.world.cancels) && c < |s.world.cancels|
    ensures CancelOk(s.jobs, s.world.cancels[c])
  {
  }

  lemma JobIsOk(s: Sys, id: string)
    requires JobsOk(s.jobs, s.world.watchers, s.world.history) && id in s.jobs
    ensures id in s.world.watchers && id in s.world.history
    ensures JobOk(s.jobs[id], s.world.watchers[id], s.world.history[id])
  {
  }

  /** A recorded job can be cancelled exactly when it is not being terminated already. */
  lemma CancelEdge(h: seq<Phase>, p: Phase)
    requires HistoryOk(h, p)
    ensures p in {Running, Phase.Succeeded, Phase.Failed, Terminating}
    ensures p != Terminating ==> Transition(p, Cancelled) == Some(Terminating)
    ensures p == Terminating ==> Transition(p, Cancelled) == None
  {
    PathShape(h);
  }

  lemma CancelledJobOk(r: Record, w: Watcher, h: seq<Phase>)
    requires JobOk(r, w, h) && r.job.phase != Terminating
    ensures JobOk(SetPhase(r.(stopped := true), Terminating), w, h + [Terminating])
  {
    CancelEdge(h, r.job.phase);
    assert Edge(r.job.phase, Terminating);
    PathExtends(h, Terminating);
    assert FanIn.AllKeepContract(w.fan, true);
  }

  lemma CommitCancelInv(s: Sys, c: nat)
    requires Inv(s)
    ensures Inv(Next(s, CommitCancel(c)))
  {
    hide AttemptsOk, RecordsOk, JobsOk, CancelsOk, WatcherOk, HistoryOk, Transition;
    if !ReadyToCancel(s.world, c) {
      return;
    }
    var t := s.world.cancels[c];
    CancelCallOk(s, c);
    var rec := s.jobs[t.id];
    JobIsOk(s, t.id);
    var w, h := s.world.watchers[t.id], s.world.history[t.id];
    CancelEdge(h, rec.job.phase);
    if rec.job.phase == Terminating {
      assert rec.(stopped := true) == rec;
      assert s.jobs[t.id := rec] == s.jobs;
      CancelsUpdate(s.jobs, s.world.cancels, c, t.(at := Refused));
    } else {
      var rec' := SetPhase(rec.(stopped := true), Terminating);
      CancelledJobOk(rec, w, h);
      JobsUpdate(s.jobs, s.world.watchers, s.world.history, t.id, rec', w, h + [Terminating]);
      assert s.world.watchers[t.id := w] == s.world.watchers;
      RecordsPhase(s.jobs, s.world.attempts, t.id, rec');
      CancelsDone(s.jobs, s.world.cancels, c, rec');
    }
  }

  lemma FanJobOk(r: Record, w: Watcher, h: seq<Phase>, move: FanIn.Step)
    requires JobOk(r, w, h) && !w.wrote && (move.AgentDoes? ==> Contract(move.ch, move.close, r.stopped))
    ensures JobOk(r, w.(fan := FanIn.Next(w.fan, move)), h)
  {
    hide FanIn.Inv, IsPath;
    var fan := FanIn.Next(w.fan, move);
    FanIn.StepInv(w.fan, move);
    FanContract(w.fan, move, r.stopped);
  }

  lemma FanContract(f: FanIn.State, move: FanIn.Step, cancelled: bool)
    requires FanIn.AllKeepContract(f, cancelled) && (move.AgentDoes? ==> Contract(move.ch, move.close, cancelled))
    ensures FanIn.AllKeepContract(FanIn.Next(f, move), cancelled)
    ensures FanIn.Next(f, move).limit == f.limit && |FanIn.Next(f, move).streams| == |f.streams|
  {
    var f' := FanIn.Next(f, move);
    forall t | t in f'.streams
      ensures Contract(t.emitted, t.closed, cancelled)
    {
      var k :| 0 <= k < |f'.streams| && f'.streams[k] == t;
      assert f.streams[k] in f.streams;
    }
  }

  lemma FanInv(s: Sys, id: string, move: FanIn.Step)
    requires Inv(s)
    ensures Inv(Next(s, Fan(id, move)))
  {
    hide AttemptsOk, RecordsOk, JobsOk, CancelsOk, JobOk, FanIn.Next, Contract;
    var s' := Next(s, Fan(id, move));
    if s' != s {
      JobIsOk(s, id);
      var w := s.world.watchers[id];
      FanJobOk(s.jobs[id], w, s.world.history[id], move);
      JobsUpdate(s.jobs, s.world.watchers, s.world.history, id, s.jobs[id], w.(fan := FanIn.Next(w.fan, move)),
          s.world.history[id]);
      assert s.jobs[id := s.jobs[id]] == s.jobs;
      assert s.world.history[id := s.world.history[id]] == s.world.history;
    }
  }

  function Verdict(w: Watcher): Phase {
    if w.fan.AnyFailed() then Phase.Failed else Phase.Succeeded
  }

  lemma WrittenJobOk(r: Record, w: Watcher, h: seq<Phase>)
    requires JobOk(r, w, h) && w.fan.Finished() && !w.wrote
    ensures r.job.phase == Running || r.job.phase == Terminating
    ensures r.job.phase == Running ==> JobOk(SetPhase(r, Verdict(w)), w.(wrote := true), h + [Verdict(w)])
    ensures r.job.phase == Terminating ==> JobOk(r, w.(wrote := true), h)
  {
    PathShape(h);
    if r.job.phase == Running {
      EdgeIff(Running, Verdict(w));
      PathExtends(h, Verdict(w));
    }
  }

  lemma WriteVerdictInv(s: Sys, id: string)
    requires Inv(s)
    ensures Inv(Next(s, WriteVerdict(id)))
  {
    hide AttemptsOk, RecordsOk, JobsOk, CancelsOk, JobOk;
    if !ReadyToWrite(s.world, id) {
      return;
    }
    assert id in s.jobs && id in s.world.history by {
      WatchersAreRecorded(s, id);
    }
    JobIsOk(s, id);
    var r, w, h := s.jobs[id], s.world.watchers[id], s.world.history[id];
    WrittenJobOk(r, w, h);
    if r.job.phase == Running {
      var r' := SetPhase(r, Verdict(w));
      JobsUpdate(s.jobs, s.world.watchers, s.world.history, id, r', w.(wrote := true), h + [Verdict(w)]);
      RecordsPhase(s.jobs, s.world.attempts, id, r');
      CancelsPhase(s.jobs, s.world.cancels, id, r');
    } else {
      JobsUpdate(s.jobs, s.world.watchers, s.world.history, id, r, w.(wrote := true), h);
      assert s.jobs[id := r] == s.jobs;
      assert s.world.history[id := h] == s.world.history;
    }
  }

  lemma WatchersAreRecorded(s: Sys, id: string)
    requires JobsOk(s.jobs, s.world.watchers, s.world.history) && id in s.world.watchers
    ensures id in s.jobs && id in s.world.history
  {
  }

  lemma StepInv(s: Sys, step: Step)
    requires Inv(s)
    ensures Inv(Next(s, step))
  {
    hide Inv, Next;
    match step
    case CallSchedule(job) => CallScheduleInv(s, job);
    case Spawn(_, _) => ScheduleIoInv(s, step);
    case Watch(_, _) => ScheduleIoInv(s, step);
    case Commit(a) => CommitInv(s, a);
    case Reject(_, _) => ScheduleIoInv(s, step);
    case CallCancel(_) => CancelIoInv(s, step);
    case Terminate(_, _) => CancelIoInv(s, step);
    case CommitCancel(c) => CommitCancelInv(s, c);
    case Fan(id, move) => FanInv(s, id, move);
    case WriteVerdict(id) => WriteVerdictInv(s, id);
    case AgentLost(id) => LostInv(s, id);
  }

  lemma LostInv(s: Sys, id: AgentId)
    requires Inv(s)
    ensures Inv(Next(s, AgentLost(id)))
  {
    hide AttemptsOk, RecordsOk, JobsOk, CancelsOk;
  }

  lemma InitInv(reuse: bool)
    ensures Inv(Init(reuse))
  {
  }

  lemma {:induction false} ExecInv(s: Sys, steps: seq<Step>)
    requires Inv(s)
    ensures Inv(Exec(s, steps))
    decreases |steps|
  {
    if steps != [] {
      ExecInv(s, steps[..|steps| - 1]);
      StepInv(Exec(s, steps[..|steps| - 1]), steps[|steps| - 1]);
    }
  }
}
