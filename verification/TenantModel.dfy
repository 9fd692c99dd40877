/**
 The TenantReconciler (platform/k8s/reconcilers/tenant_reconciler.go) for one Tenant key, at the granularity of single
 API calls. The user, other controllers and API failures may come between any two calls. Reconciles of a key are
 serialised; the read that starts one may come from a stale cache.
 */
module TenantModel {
  import opened Lifecycle

  const FINALIZER := "muto.io/tenant-cleanup"

  /** A Tenant object. A dedicated gateway is wanted when the bus type is a2a and dedicated. */
  datatype Tenant = Tenant(ns: string, gateway: bool, finalizers: set<string>, deleting: bool, ready: bool)

  datatype Kind = Namespace | Secret | Deployment | Service

  /** The API calls of one reconcile, after the initial Get. */
  datatype Call =
    | AddFinalizer
    | Get(kind: Kind)
    | Create(kind: Kind)
    | SetReady
    | Delete(kind: Kind)
    | DropFinalizer

  /** Between calls a reconcile holds the version it works on and knows its next call. */
  datatype Progress = Idle | At(v: nat, call: Call)

  datatype Answer = Ok | NotFound | AlreadyExists | Conflict | Failure

  /** monotone: the cache never goes back to an older version. tamper: others may delete what was provisioned.
      image: the gateway image variable is set. */
  datatype Config = Config(monotone: bool, tamper: bool, image: bool)

  datatype State = State(
    cfg: Config,
    history: seq<Option<Tenant>>,  // every committed version of the key, the current one last
    seen: nat,                     // the version the last reconcile started from
    namespaces: set<string>,
    secrets: map<string, string>,  // gateway token by namespace
    deployments: set<string>,
    services: set<string>,
    run: Progress)
  {
    function Last(): Option<Tenant> { if history == [] then None else history[|history| - 1] }

    function View(v: nat): Tenant {
      if v < |history| && history[v].Some? then history[v].value else Tenant("", false, {}, false, false)
    }

    predicate Has(kind: Kind, ns: string) {
      match kind
      case Namespace => ns in namespaces
      case Secret => ns in secrets
      case Deployment => ns in deployments
      case Service => ns in services
    }
  }

  datatype Step =
    | Begin(v: nat)
    | Proceed(ok: bool, token: string)
    | UserCreates(tenant: Tenant)
    | UserDeletes
    | OthersUpdate(finalizers: set<string>)
    | Tamper(kind: Kind, ns: string)

  function Init(cfg: Config): State {
    State(cfg, [None], 0, {}, map[], {}, {}, Idle)
  }

  /** What the API server answers to the pending call. */
  function AnswerOf(s: State, ok: bool): Answer
    requires s.run.At?
  {
    var ns := s.View(s.run.v).ns;
    if !ok then Failure
    else match s.run.call
      case Get(kind) => if s.Has(kind, ns) then Ok else if ns == "" then Failure else NotFound
      case Create(kind) =>
        if s.Has(kind, ns) then AlreadyExists
        else if kind == Namespace || ns in s.namespaces then Ok else NotFound
      case Delete(kind) => if s.Has(kind, ns) then Ok else NotFound
      case _ => if s.run.v == |s.history| - 1 && s.Last().Some? then Ok else Conflict
  }

  /** A deleting object without finalizers is gone. */
  function Stored(t: Tenant): Option<Tenant> {
    if t.deleting && t.finalizers == {} then None else Some(t)
  }

  function Commit(s: State, t: Tenant): State {
    s.(history := s.history + [Stored(t)])
  }

  function Remove(s: State, kind: Kind, ns: string): State {
    match kind
    case Namespace => s.(namespaces := s.namespaces - {ns}, secrets := s.secrets - {ns},
                         deployments := s.deployments - {ns}, services := s.services - {ns})
    case Secret => s.(secrets := s.secrets - {ns})
    case Deployment => s.(deployments := s.deployments - {ns})
    case Service => s.(services := s.services - {ns})
  }

  /** The effect of a call the server answered with Ok. */
  function Effect(s: State, token: string): State
    requires s.run.At?
  {
    var t := s.View(s.run.v);
    match s.run.call
    case AddFinalizer => Commit(s, t.(finalizers := t.finalizers + {FINALIZER}))
    case DropFinalizer => Commit(s, t.(finalizers := t.finalizers - {FINALIZER}))
    case SetReady => Commit(s, t.(ready := true))
    case Get(_) => s
    case Delete(kind) => Remove(s, kind, t.ns)
    case Create(Namespace) => s.(namespaces := s.namespaces + {t.ns})
    case Create(Secret) => s.(secrets := s.secrets[t.ns := token])
    case Create(Deployment) => s.(deployments := s.deployments + {t.ns})
    case Create(Service) => s.(services := s.services + {t.ns})
  }

  /** The call after a resource of this kind is known to exist. */
  function After(kind: Kind, gateway: bool): Call {
    match kind
    case Namespace => if gateway then Get(Secret) else SetReady
    case Secret => Get(Deployment)
    case Deployment => Get(Service)
    case Service => SetReady
  }

  /** The reconciler's control flow: its next call given the answer to this one, None if it returns. */
  function Control(call: Call, gateway: bool, image: bool, answer: Answer): Option<Call> {
    match call
    case AddFinalizer => if answer == Ok then Some(Get(Namespace)) else None
    case Get(kind) =>
      if answer == Ok then Some(After(kind, gateway))
      else if answer == NotFound && (kind == Deployment ==> image) then Some(Create(kind))
      else None
    case Create(kind) => if answer == Ok then Some(After(kind, gateway)) else None
    case SetReady => None
    case Delete(kind) =>
      if answer != Ok && answer != NotFound then None
      else (match kind
            case Deployment => Some(Delete(Service))
            case Service => Some(Delete(Secret))
            case _ => Some(DropFinalizer))
    case DropFinalizer => None
  }

  /** Lines 45-62 and 90-98: where a reconcile goes after reading t. */
  function FirstCall(t: Option<Tenant>): Option<Call> {
    if t == None then None
    else if t.value.deleting then
      if FINALIZER !in t.value.finalizers then None
      else if t.value.ns == "" then Some(DropFinalizer)
      else Some(Delete(Deployment))
    else if FINALIZER !in t.value.finalizers then Some(AddFinalizer)
    else Some(Get(Namespace))
  }

  function DoBegin(s: State, v: nat): State {
    if s.run == Idle && v < |s.history| && (s.cfg.monotone ==> s.seen <= v) then
      var call := FirstCall(s.history[v]);
      s.(seen := v, run := if call.Some? then At(v, call.value) else Idle)
    else s
  }

  function DoProceed(s: State, ok: bool, token: string): State {
    if s.run == Idle then s else
    var answer := AnswerOf(s, ok);
    var s' := if answer == Ok then Effect(s, token) else s;
    var v := if s.run.call == AddFinalizer then |s.history| else s.run.v;
    var next := Control(s.run.call, s.View(s.run.v).gateway, s.cfg.image, answer);
    s'.(run := if next.Some? then At(v, next.value) else Idle)
  }

  function DoUser(s: State, step: Step): State {
    match step
    case UserCreates(t) =>
      if s.Last() == None then s.(history := s.history + [Some(t.(deleting := false, ready := false))]) else s
    case UserDeletes =>
      if s.Last() != None then Commit(s, s.Last().value.(deleting := true)) else s
    case OthersUpdate(f) =>
      if s.Last() != None then
        var t := s.Last().value;
        Commit(s, t.(finalizers := (f - {FINALIZER}) + (t.finalizers * {FINALIZER})))
      else s
    case Tamper(kind, ns) => if s.cfg.tamper then Remove(s, kind, ns) else s
    case _ => s
  }

  function Next(s: State, step: Step): State {
    match step
    case Begin(v) => DoBegin(s, v)
    case Proceed(ok, token) => DoProceed(s, ok, token)
    case _ => DoUser(s, step)
  }

  function Exec(s: State, steps: seq<Step>): State
    decreases |steps|
  {
    if steps == [] then s else Next(Exec(s, steps[..|steps| - 1]), steps[|steps| - 1])
  }

  // ------------------------------------------------------------- the invariant

  /** The current Tenant object is alive or being finalized under our finalizer, and wants a gateway in ns if
      `gateway`. */
  ghost predicate Guarded(last: Option<Tenant>, ns: string, gateway: bool) {
    last.Some? && FINALIZER in last.value.finalizers && last.value.ns == ns && last.value.gateway == gateway
  }

  /** Some gateway resource exists in the namespace. */
  ghost predicate Resource(secrets: map<string, string>, deployments: set<string>, services: set<string>, ns: string) {
    ns in secrets || ns in deployments || ns in services
  }

  /** No gateway resource without its Tenant and finalizer. */
  ghost predicate Safe(secrets: map<string, string>, deployments: set<string>, services: set<string>,
                       last: Option<Tenant>) {
    forall ns | Resource(secrets, deployments, services, ns) :: Guarded(last, ns, true) && ns != ""
  }

  /** A version a reconcile may still start from and that is live under our finalizer belongs to the current object. */
  ghost predicate LiveVersions(history: seq<Option<Tenant>>, seen: nat) {
    forall v :: seen <= v < |history| && history[v].Some? && !history[v].value.deleting
        && FINALIZER in history[v].value.finalizers
      ==> Guarded(history[|history| - 1], history[v].value.ns, history[v].value.gateway)
  }

  predicate Building(call: Call) {
    call.Get? || call.Create? || call.SetReady?
  }

  /** What has been deleted by the time of this call. */
  ghost predicate Cleaned(s: State, call: Call, ns: string) {
    match call
    case Delete(Service) => ns !in s.deployments
    case Delete(Secret) => ns !in s.deployments && ns !in s.services
    case DropFinalizer => !Resource(s.secrets, s.deployments, s.services, ns)
    case _ => true
  }

  ghost predicate RunOk(s: State) {
    s.run.At? ==>
      var v, call := s.run.v, s.run.call;
      && v < |s.history| && s.history[v].Some?
      && s.seen <= v <= s.seen + 1
      && s.history[s.seen].Some? && s.history[s.seen].value.deleting == s.history[v].value.deleting
      && var t := s.history[v].value;
      && (Building(call) ==> !t.deleting && FINALIZER in t.finalizers && Guarded(s.Last(), t.ns, t.gateway))
      && (call == AddFinalizer ==> !t.deleting && v == s.seen)
      && (call.Delete? || call == DropFinalizer ==> t.deleting && v == s.seen && Cleaned(s, call, t.ns))
      && (Building(call) && call != Get(Namespace) && call != Create(Namespace) ==> t.ns != "")
      && (call in {Get(Secret), Create(Secret), Get(Deployment), Create(Deployment), Get(Service), Create(Service)} ==>
           t.gateway)
      && (call == Create(Namespace) ==> t.ns != "")
      && call != Delete(Namespace)
  }

  ghost predicate Inv(s: State) {
    && s.cfg.monotone
    && s.history != [] && s.seen < |s.history|
    && "" !in s.namespaces
    && LiveVersions(s.history, s.seen)
    && RunOk(s)
    && Safe(s.secrets, s.deployments, s.services, s.Last())
  }
}
