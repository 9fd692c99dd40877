/**
 The AgentJobReconciler (platform/k8s/reconcilers/agentjob_reconciler.go) over an API store of jobs, pods and tenants,
 with the metrics gauges (platform/k8s/metrics/metrics.go), at the granularity of single API calls. Reconciles of one
 job are serialised, those of different jobs interleave; every call may fail without effect, which ends the reconcile.
 A job's versions are numbered by its history, and a status update is accepted only on the newest one.
 */
module JobModel {
  import opened Lifecycle
  import opened AgentStreams
  import opened PodNames

  const SECOND := 1_000_000_000

  datatype Spec = Spec(tenant: string, roles: seq<Role>, ttl: int)

  /** Times are nanoseconds. */
  datatype Status = Status(phase: Phase, active: int, startedAt: Option<int>, completedAt: Option<int>)

  datatype Key = Key(ns: string, name: string)

  /** A pod and its muto.io/job label. */
  datatype Pod = Pod(job: string, phase: PodPhase)
  {
    predicate Finished() { phase == PodSucceeded || phase == PodFailed }
  }

  /** Where the reconcile of a job stands: the version it read and what it does next. */
  datatype Progress =
    | Idle
    | GetTenant(v: nat)
    | Creating(v: nat, k: nat)             // the k-th planned pod; past the plan, the status update
    | CountStart(n: int)                   // metrics.JobStarted
    | ListRunning(v: nat)
    | Completing(v: nat, verdict: Phase)   // the status update
    | CountFinish(verdict: Phase, n: int)  // metrics.JobFinished
    | Expiring(v: nat)                     // the status update
    | ListDoomed(v: nat)
    | Deleting(v: nat, rest: set<Key>)     // pods still to delete; then the job

  datatype Job = Job(name: string, ns: string, spec: Spec, history: seq<Status>, gone: bool, run: Progress,
                     starts: nat, finishes: nat)  // how often the metrics calls were made
  {
    function Last(): Status
      requires history != []
    {
      history[|history| - 1]
    }

    function Plan(): seq<string> { PodNames.Plan(name, spec.roles) }

    predicate Wants(key: Key) { Wanted(ns, Plan(), key) }
  }

  /** A pod key of the plan. */
  predicate Wanted(ns: string, plan: seq<string>, key: Key) { key.ns == ns && key.name in plan }

  datatype Metrics = Metrics(agentsRunning: map<string, int>, queueDepth: map<string, int>,
                             jobsTotal: map<(string, Phase), int>)

  function Read<K>(m: map<K, int>, k: K): int { if k in m then m[k] else 0 }

  function Add<K>(m: map<K, int>, k: K, n: int): map<K, int> { m[k := Read(m, k) + n] }

  /** staleReads: a reconcile may start from any earlier version. staleLists: a List may answer anything.
      vanish: pods may be removed from outside. userDeletes: users may delete jobs. */
  datatype Config = Config(staleReads: bool, staleLists: bool, vanish: bool, userDeletes: bool)

  datatype World = World(cfg: Config, jobs: seq<Job>, pods: map<Key, Pod>, tenants: set<string>, now: int,
                         metrics: Metrics)

  datatype Step =
    | Begin(j: nat, v: nat)
    | Proceed(j: nat, ok: bool, listed: map<Key, Pod>, key: Key)
    | CreateJob(name: string, ns: string, spec: Spec, phase: Phase)
    | SetTenant(tenant: string, exists_: bool)
    | PodMoves(key: Key, becomes: PodPhase)
    | PodVanishes(key: Key)
    | UserDeletes(j: nat)
    | Tick(d: nat)

  function Init(cfg: Config): World {
    World(cfg, [], map[], {}, 0, Metrics(map[], map[], map[]))
  }

  /** int32(n) of a Go int. */
  function Int32(n: int): (r: int)
    ensures -0x8000_0000 <= r < 0x8000_0000 && (n - r) % 0x1_0000_0000 == 0
  {
    var m := n % 0x1_0000_0000;
    if m < 0x8000_0000 then m else m - 0x1_0000_0000
  }

  /** metav1.Time is stored with whole seconds. */
  function Stamp(now: int): int { now - now % SECOND }

  function Labelled(pods: map<Key, Pod>, ns: string, job: string): map<Key, Pod> {
    map key | key in pods && key.ns == ns && pods[key].job == job :: pods[key]
  }

  predicate AllDone(listed: map<Key, Pod>) {
    forall key | key in listed :: listed[key].Finished()
  }

  predicate AnyFailed(listed: map<Key, Pod>) {
    exists key | key in listed :: listed[key].phase == PodFailed
  }

  /** Lines 131-142: has the TTL of a finished job passed? */
  predicate Expired(spec: Spec, st: Status, now: int) {
    spec.ttl > 0 && st.completedAt.Some? && now - st.completedAt.value >= spec.ttl * SECOND
  }

  /** Lines 35-45: what a reconcile of version v starts with. */
  function FirstMove(job: Job, v: nat, now: int): Progress
    requires v < |job.history|
  {
    var st := job.history[v];
    match st.phase
    case Unset => GetTenant(v)
    case Pending => GetTenant(v)
    case Running => ListRunning(v)
    case Succeeded => if Expired(job.spec, st, now) then Expiring(v) else Idle
    case Failed => if Expired(job.spec, st, now) then Expiring(v) else Idle
    case Terminating => ListDoomed(v)
    case Other(_) => Idle
  }

  /** Is a status update on version v accepted? */
  predicate Accepts(job: Job, v: nat) {
    !job.gone && v < |job.history| && v == |job.history| - 1
  }

  function Save(job: Job, st: Status, next: Progress): Job {
    job.(history := job.history + [st], run := next)
  }

  /** What a List of the job's pods answers. */
  function ListAnswer(w: World, job: Job, listed: map<Key, Pod>): map<Key, Pod> {
    if w.cfg.staleLists then listed else Labelled(w.pods, job.ns, job.name)
  }

  /** What a call of job's reconcile does to the job and the pods; `ok` says that the call does not fail. */
  function Call(w: World, job: Job, ok: bool, listed: map<Key, Pod>, key: Key): (Job, map<Key, Pod>) {
    var list := ListAnswer(w, job, listed);
    if !ok && !job.run.CountStart? && !job.run.CountFinish? then (job.(run := Idle), w.pods)
    else match job.run
      case Idle => (job, w.pods)
      case GetTenant(v) => (job.(run := if job.spec.tenant in w.tenants then Creating(v, 0) else Idle), w.pods)
      case Creating(v, k) =>
        if k < |job.Plan()| then
          var pod := Key(job.ns, job.Plan()[k]);
          (job.(run := Creating(v, k + 1)), if pod in w.pods then w.pods else w.pods[pod := Pod(job.name, PodPending)])
        else if Accepts(job, v) then
          var n := Int32(Total(job.spec.roles));
          (Save(job, job.history[v].(phase := Running, active := n, startedAt := Some(Stamp(w.now))), CountStart(n)),
              w.pods)
        else (job.(run := Idle), w.pods)
      case CountStart(n) => (job.(run := Idle, starts := job.starts + 1), w.pods)
      case ListRunning(v) =>
        (job.(run := if list == map[] || !AllDone(list) then Idle
                     else Completing(v, if AnyFailed(list) then Phase.Failed else Phase.Succeeded)), w.pods)
      case Completing(v, verdict) =>
        if Accepts(job, v) then
          (Save(job, job.history[v].(phase := verdict, active := 0, completedAt := Some(Stamp(w.now))),
                CountFinish(verdict, job.history[v].active)), w.pods)
        else (job.(run := Idle), w.pods)
      case CountFinish(_, _) => (job.(run := Idle, finishes := job.finishes + 1), w.pods)
      case Expiring(v) =>
        if Accepts(job, v) then (Save(job, job.history[v].(phase := Terminating), Idle), w.pods)
        else (job.(run := Idle), w.pods)
      case ListDoomed(v) => (job.(run := Deleting(v, list.Keys)), w.pods)
      case Deleting(v, rest) =>
        if rest == {} then (job.(run := Idle, gone := true), w.pods)
        else if key in rest then (job.(run := Deleting(v, rest - {key})), w.pods - {key})
        else (job, w.pods)
  }

  /** The metrics calls, lines 77 and 126. */
  function Count(m: Metrics, job: Job): Metrics {
    match job.run
    case CountStart(n) =>
      m.(agentsRunning := Add(m.agentsRunning, job.spec.tenant, n), queueDepth := Add(m.queueDepth, job.spec.tenant, 1))
    case CountFinish(verdict, n) =>
      Metrics(Add(m.agentsRunning, job.spec.tenant, -n), Add(m.queueDepth, job.spec.tenant, -1),
              Add(m.jobsTotal, (job.spec.tenant, verdict), 1))
    case _ => m
  }

  function DoBegin(w: World, j: nat, v: nat): World {
    if j < |w.jobs| && w.jobs[j].run == Idle && v < |w.jobs[j].history|
       && (!w.cfg.staleReads ==> v == |w.jobs[j].history| - 1 && !w.jobs[j].gone) then
      w.(jobs := w.jobs[j := w.jobs[j].(run := FirstMove(w.jobs[j], v, w.now))])
    else w
  }

  function DoProceed(w: World, j: nat, ok: bool, listed: map<Key, Pod>, key: Key): World {
    if j < |w.jobs| then
      var r := Call(w, w.jobs[j], ok, listed, key);
      w.(jobs := w.jobs[j := r.0], pods := r.1, metrics := Count(w.metrics, w.jobs[j]))
    else w
  }

  function DoCreate(w: World, name: string, ns: string, spec: Spec, phase: Phase): World {
    if phase in {Unset, Pending} && (forall job | job in w.jobs :: job.ns != ns || job.name != name) then
      w.(jobs := w.jobs + [Job(name, ns, spec, [Status(phase, 0, None, None)], false, Idle, 0, 0)])
    else w
  }

  function Next(w: World, step: Step): World {
    match step
    case Begin(j, v) => DoBegin(w, j, v)
    case Proceed(j, ok, listed, key) => DoProceed(w, j, ok, listed, key)
    case CreateJob(name, ns, spec, phase) => DoCreate(w, name, ns, spec, phase)
    case SetTenant(t, e) => w.(tenants := if e then w.tenants + {t} else w.tenants - {t})
    case PodMoves(key, becomes) =>
      if key in w.pods && !w.pods[key].Finished() then w.(pods := w.pods[key := w.pods[key].(phase := becomes)]) else w
    case PodVanishes(key) => if w.cfg.vanish then w.(pods := w.pods - {key}) else w
    case UserDeletes(j) =>
      if w.cfg.userDeletes && j < |w.jobs| then w.(jobs := w.jobs[j := w.jobs[j].(gone := true)]) else w
    case Tick(d) => w.(now := w.now + d)
  }

  function Exec(w: World, steps: seq<Step>): World
    decreases |steps|
  {
    if steps == [] then w else Next(Exec(w, steps[..|steps| - 1]), steps[|steps| - 1])
  }

  function Run(cfg: Config, steps: seq<Step>): World {
    Exec(Init(cfg), steps)
  }
}
