/**
 `TenantReconciler` itself (platform/k8s/reconcilers/tenant_reconciler.go), run against an API server that fails calls
 and lets the user and other controllers act before every one of them, as a script says.
 */
module TenantReconciler {
  import opened Lifecycle
  import opened TenantModel
  import opened TenantTheorems

  /** Before one API call: what others do, whether the call fails, and the token a new Secret would get. */
  datatype Turn = Turn(others: seq<Step>, ok: bool, token: string)

  /** The steps of a script that the reconciler does not take itself. */
  function Elsewhere(steps: seq<Step>): seq<Step>
    decreases |steps|
  {
    if steps == [] then []
    else
      var last := steps[|steps| - 1];
      Elsewhere(steps[..|steps| - 1]) + (if last.Begin? || last.Proceed? then [] else [last])
  }

  /** No call in these turns fails. */
  ghost predicate AllOk(script: nat -> Turn, from: nat, to: nat) {
    forall k | from <= k < to :: script(k).ok
  }

  /** The state the last step of the trace met. */
  function LastState(cfg: Config, trace: seq<Step>): State {
    Run(cfg, if trace == [] then [] else trace[..|trace| - 1])
  }

  /** The pending call is one the API server, or the reconciler, cannot go on from: an update of a version that is no
      longer the newest; a Get of a Deployment that would have to be made without an image, or in no namespace; a Create
      of what is there already, or in a namespace that is not. */
  ghost predicate Refused(s: State) {
    && s.run.At?
    && var ns := s.View(s.run.v).ns;
    match s.run.call
    case Get(kind) => !s.Has(kind, ns) && (ns == "" || (kind == Deployment && !s.cfg.image))
    case Create(kind) => s.Has(kind, ns) || (kind != Namespace && ns !in s.namespaces)
    case Delete(_) => false
    case _ => s.run.v != |s.history| - 1 || s.Last() == None
  }

  /** Step k of the trace is this call of the reconciler. */
  ghost predicate CallsAt(cfg: Config, trace: seq<Step>, k: nat, call: Call)
    requires k < |trace|
  {
    trace[k].Proceed? && Run(cfg, trace[..k]).run.At? && Run(cfg, trace[..k]).run.call == call
  }

  /** The three deletes, in this order, between two points of the trace. */
  ghost predicate DeletedInOrder(cfg: Config, from: seq<Step>, trace: seq<Step>) {
    exists a, b, c ::
      && |from| <= a < b < c < |trace|
      && CallsAt(cfg, trace, a, Delete(Deployment)) && CallsAt(cfg, trace, b, Delete(Service))
      && CallsAt(cfg, trace, c, Delete(Secret))
  }

  lemma CallsOn(cfg: Config, trace: seq<Step>, trace': seq<Step>, k: nat, call: Call)
    requires k < |trace| && trace <= trace' && CallsAt(cfg, trace, k, call)
    ensures CallsAt(cfg, trace', k, call)
  {
    assert trace'[..k] == trace[..k];
  }

  /** Which calls of a reconcile have failed by now: none but the last of one that reports an error, and that one at the
      server, or because it was refused. */
  ghost predicate Reported(script: nat -> Turn, cfg: Config, trace: seq<Step>, from: nat, to: nat, err: bool) {
    if !err then from <= to && AllOk(script, from, to)
    else from < to && AllOk(script, from, to - 1) && (script(to - 1).ok ==> Refused(LastState(cfg, trace)))
  }

  lemma NothingReported(script: nat -> Turn, cfg: Config, trace: seq<Step>, from: nat)
    ensures Reported(script, cfg, trace, from, from, false)
  {
  }

  lemma ReportedOn(script: nat -> Turn, cfg: Config, trace: seq<Step>, from: nat, mid: nat, trace': seq<Step>, to: nat,
                   err: bool)
    requires Reported(script, cfg, trace, from, mid, false) && Reported(script, cfg, trace', mid, to, err)
    ensures Reported(script, cfg, trace', from, to, err)
  {
    hide Refused, LastState;
  }

  class Cluster {
    var st: State
    var clock: nat
    const cfg: Config
    const script: nat -> Turn
    ghost var trace: seq<Step>
    ghost var failed: bool  // the last call of the reconcile under way ended it with an error

    ghost predicate Valid()
      reads this
    {
      cfg.monotone && st == Run(cfg, trace) && st.cfg == cfg
    }

    constructor (cfg: Config, script: nat -> Turn)
      requires cfg.monotone
      ensures Valid() && st.run == Idle && trace == []
    {
      this.cfg := cfg;
      this.script := script;
      st := Init(cfg);
      clock := 0;
      trace, failed := [], false;
    }

    method Do(step: Step)
      requires Valid()
      modifies this`st, this`trace
      ensures Valid() && trace == old(trace) + [step] && st == Next(old(st), step)
    {
      ConfigKept(st, step);
      hide Next;
      trace := trace + [step];
      st := Next(st, step);
      assert trace[..|trace| - 1] == old(trace);
    }

    /** Everyone but the reconciler acts. */
    method Others()
      requires Valid()
      modifies this`st, this`trace
      ensures Valid() && trace == old(trace) + Elsewhere(script(clock).others)
      ensures old(st).history <= st.history && st.run == old(st).run && st.seen == old(st).seen
    {
      hide Run, Exec;
      var steps := script(clock).others;
      for k := 0 to |steps|
        invariant Valid() && trace == old(trace) + Elsewhere(steps[..k])
        invariant old(st).history <= st.history && st.run == old(st).run && st.seen == old(st).seen
      {
        assert steps[..k + 1][..k] == steps[..k];
        if !steps[k].Begin? && !steps[k].Proceed? {
          Do(steps[k]);
        }
      }
      assert steps[..|steps|] == steps;
    }

    /** The Get that starts a reconcile, from a cache that never goes back. */
    method Read(v: nat) returns (t: Option<Tenant>)
      requires Valid() && st.run == Idle && st.seen <= v < |st.history|
      modifies this`st, this`trace, this`failed
      ensures Valid() && trace == old(trace) + [Begin(v)] && !failed && st.history == old(st).history
              && t == st.history[v]
      ensures st.run == if FirstCall(t).Some? then At(v, FirstCall(t).value) else Idle
    {
      t := st.history[v];
      Do(Begin(v));
      failed := false;
    }

    /** One API call of the running reconcile. */
    method Request(call: Call) returns (answer: Answer)
      requires Valid() && st.run.At? && st.run.call == call
      modifies this
      ensures Valid() && old(st).history <= st.history && clock == old(clock) + 1
      ensures old(st).run.v < |old(st).history|
      ensures var turn := script(old(clock));
              trace == old(trace) + Elsewhere(turn.others) + [Proceed(turn.ok, turn.token)]
      ensures var s := LastState(cfg, trace);
              s.run == old(st).run && s.View(s.run.v) == old(st).View(old(st).run.v)
                  && answer == AnswerOf(s, script(old(clock)).ok)
      ensures Reported(script, cfg, trace, old(clock), clock, failed)
      ensures CallsAt(cfg, trace, |trace| - 1, call)
      ensures var t := old(st).View(old(st).run.v);
              var next := Control(call, t.gateway, cfg.image, answer);
              var v := if call == AddFinalizer then |st.history| - 1 else old(st).run.v;
              && (failed <==> next == None && answer != Ok)
              && (next.Some? ==> st.run == At(v, next.value))
              && (next == None ==> st.run == Idle)
              && (call == AddFinalizer && answer == Ok ==> st.View(v) == t.(finalizers := t.finalizers + {FINALIZER}))
              && (call == SetReady && answer == Ok ==> st.Last() == Some(t.(ready := true)))
              && (call == DropFinalizer && answer == Ok ==>
                   st.Last() == Stored(t.(finalizers := t.finalizers - {FINALIZER})))
              && ((call.Get? || call.Create?) && answer == Ok ==> st.Has(call.kind, t.ns))
              && (call.Delete? && answer in {Ok, NotFound} ==> !st.Has(call.kind, t.ns))
    {
      hide Run, Exec, Inv, Next, Elsewhere;
      RunInv(cfg, trace);
      RunKnows(st);
      Others();
      RunInv(cfg, trace);
      RunKnows(st);
      var turn := script(clock);
      clock := clock + 1;
      answer := AnswerOf(st, turn.ok);
      ghost var before := trace;
      failed := answer != Ok && Control(call, st.View(st.run.v).gateway, cfg.image, answer) == None;
      assert st.View(st.run.v) == old(st).View(old(st).run.v);
      CallDoes(st, turn.ok, turn.token);
      Do(Proceed(turn.ok, turn.token));
      assert trace[..|trace| - 1] == before;
    }
  }

  lemma RunKnows(s: State)
    requires Inv(s) && s.run.At?
    ensures s.run.v < |s.history|
  {
    hide LiveVersions, Safe;
  }

  /** What one API call of the running reconcile does, by its answer. */
  lemma CallDoes(s: State, ok: bool, token: string)
    requires Inv(s) && s.run.At?
    ensures var s', answer, call := Next(s, Proceed(ok, token)), AnswerOf(s, ok), s.run.call;
            var t := s.View(s.run.v);
            var next := Control(call, t.gateway, s.cfg.image, answer);
            var v := if call == AddFinalizer then |s'.history| - 1 else s.run.v;
            && s.history <= s'.history
            && (next.Some? ==> s'.run == At(v, next.value))
            && (next == None ==> s'.run == Idle)
            && (call == AddFinalizer && answer == Ok ==> s'.View(v) == t.(finalizers := t.finalizers + {FINALIZER}))
            && (call == SetReady && answer == Ok ==> s'.Last() == Some(t.(ready := true)))
            && (call == DropFinalizer && answer == Ok ==>
                  s'.Last() == Stored(t.(finalizers := t.finalizers - {FINALIZER})))
            && ((call.Get? || call.Create?) && answer == Ok ==> s'.Has(call.kind, t.ns))
            && (call.Delete? && answer in {Ok, NotFound} ==> !s'.Has(call.kind, t.ns))
  {
    hide LiveVersions, Safe;
  }

  /** After k steps of the trace the resource is there. */
  ghost predicate ThereAt(cfg: Config, trace: seq<Step>, k: nat, kind: Kind, ns: string)
    requires k <= |trace|
  {
    Run(cfg, trace[..k]).Has(kind, ns)
  }

  /** Secret, Deployment and Service have been there, in this order, between two points of the trace. */
  ghost predicate AllThere(cfg: Config, from: seq<Step>, trace: seq<Step>, ns: string) {
    exists a, b, c ::
      && |from| <= a <= b <= c <= |trace|
      && ThereAt(cfg, trace, a, Secret, ns) && ThereAt(cfg, trace, b, Deployment, ns)
      && ThereAt(cfg, trace, c, Service, ns)
  }

  lemma ThereOn(cfg: Config, trace: seq<Step>, trace': seq<Step>, k: nat, kind: Kind, ns: string)
    requires k <= |trace| && trace <= trace' && ThereAt(cfg, trace, k, kind, ns)
    ensures ThereAt(cfg, trace', k, kind, ns)
  {
    assert trace'[..k] == trace[..k];
  }

  lemma ThereNow(api: Cluster, kind: Kind, ns: string)
    requires api.Valid() && api.st.Has(kind, ns)
    ensures ThereAt(api.cfg, api.trace, |api.trace|, kind, ns)
  {
    assert api.trace[..|api.trace|] == api.trace;
  }

  /** Our Get of the Deployment found it. */
  ghost predicate FoundBefore(cfg: Config, from: seq<Step>, trace: seq<Step>, v: nat, ns: string) {
    exists k :: |from| <= k < |trace| && FoundAt(cfg, trace, k, v, ns)
  }

  ghost predicate FoundAt(cfg: Config, trace: seq<Step>, k: nat, v: nat, ns: string)
    requires k < |trace|
  {
    var s := Run(cfg, trace[..k]);
    trace[k].Proceed? && s.run == At(v, Get(Deployment)) && ns in s.deployments
  }

  class TenantReconciler {
    const api: Cluster

    constructor (api: Cluster)
      ensures this.api == api
    {
      this.api := api;
    }

    /** One reconcile. Whatever happens it leaves no call pending. If it reports no error, a Tenant it read alive is
        now stored with the finalizer and Ready, and one it read as being deleted has lost our finalizer. */
    method Reconcile(v: nat) returns (err: bool)
      requires api.Valid() && api.st.run == Idle && api.st.seen <= v < |api.st.history|
      modifies api
      ensures api.Valid() && old(api.trace) + [Begin(v)] <= api.trace && api.st.run == Idle && err == api.failed
      ensures Reported(api.script, api.cfg, api.trace, old(api.clock), api.clock, err)
      ensures var t := old(api.st).history[v];
              && (t == None || (t.value.deleting && FINALIZER !in t.value.finalizers) ==>
                    !err && api.clock == old(api.clock) && api.trace == old(api.trace) + [Begin(v)])
              && (!err && t.Some? && !t.value.deleting ==>
                    api.st.Last() == Some(t.value.(finalizers := t.value.finalizers + {FINALIZER}, ready := true)))
              && (!err && t.Some? && t.value.deleting && FINALIZER in t.value.finalizers ==>
                    && api.st.Last() == Stored(t.value.(finalizers := t.value.finalizers - {FINALIZER}))
                    && !Resource(api.st.secrets, api.st.deployments, api.st.services, t.value.ns))
    {
      hide Run, LiveVersions, Elsewhere, LastState, Refused, CallsAt, Reported;
      ghost var from := api.clock;
      NothingReported(api.script, api.cfg, api.trace + [Begin(v)], from);
      var read := api.Read(v);
      if read == None {
        return false;
      }
      var tenant := read.value;
      if tenant.deleting {
        err := FinalizeTenant(v, tenant);
        return;
      }
      ghost var read0 := tenant;
      if FINALIZER !in tenant.finalizers {
        ghost var t1, m1 := api.trace, api.clock;
        var answer := api.Request(AddFinalizer);
        ReportedOn(api.script, api.cfg, t1, from, m1, api.trace, api.clock, api.failed);
        if answer != Ok {
          return true;
        }
        tenant := tenant.(finalizers := tenant.finalizers + {FINALIZER});
      }
      assert tenant == read0.(finalizers := read0.finalizers + {FINALIZER});
      ghost var w := api.st.run.v;
      ghost var t2, m2 := api.trace, api.clock;
      err := EnsureNamespace(w, tenant);
      ReportedOn(api.script, api.cfg, t2, from, m2, api.trace, api.clock, api.failed);
      if err {
        return;
      }
      if tenant.gateway {
        ghost var t3, m3 := api.trace, api.clock;
        err := ReconcileA2AGateway(w, tenant);
        ReportedOn(api.script, api.cfg, t3, from, m3, api.trace, api.clock, api.failed);
        if err {
          return;
        }
      }
      ghost var t4, m4 := api.trace, api.clock;
      var answer := api.Request(SetReady);
      ReportedOn(api.script, api.cfg, t4, from, m4, api.trace, api.clock, api.failed);
      err := answer != Ok;
    }

    method FinalizeTenant(v: nat, tenant: Tenant) returns (err: bool)
      requires api.Valid() && !api.failed && v < |api.st.history| && api.st.history[v] == Some(tenant)
               && tenant.deleting
      requires api.st.run == if FirstCall(Some(tenant)).Some? then At(v, FirstCall(Some(tenant)).value) else Idle
      modifies api
      ensures api.Valid() && err == api.failed && old(api.trace) <= api.trace && old(api.st).history <= api.st.history
      ensures Reported(api.script, api.cfg, api.trace, old(api.clock), api.clock, err)
              && api.st.run == Idle
      ensures FINALIZER !in tenant.finalizers ==> api.trace == old(api.trace) && api.clock == old(api.clock) && !err
      ensures !err && FINALIZER in tenant.finalizers ==>
                && api.st.Last() == Stored(tenant.(finalizers := tenant.finalizers - {FINALIZER}))
                && !Resource(api.st.secrets, api.st.deployments, api.st.services, tenant.ns)
    {
      hide Run, LiveVersions, Elsewhere, LastState, Refused, CallsAt, Reported;
      ghost var from := api.clock;
      NothingReported(api.script, api.cfg, api.trace, from);
      if FINALIZER !in tenant.finalizers {
        return false;
      }
      err := DeleteA2AGatewayResources(v, tenant);
      if err {
        return;
      }
      ghost var t1, m1 := api.trace, api.clock;
      var answer := api.Request(DropFinalizer);
      ReportedOn(api.script, api.cfg, t1, from, m1, api.trace, api.clock, api.failed);
      if answer != Ok {
        return true;
      }
      err := false;
      FinalizerSafety(api.cfg, api.trace, tenant.ns);
    }

    method DeleteA2AGatewayResources(ghost v: nat, tenant: Tenant) returns (err: bool)
      requires api.Valid() && !api.failed && v < |api.st.history| && api.st.history[v] == Some(tenant)
      requires api.st.run == At(v, if tenant.ns == "" then DropFinalizer else Delete(Deployment))
      modifies api
      ensures api.Valid() && err == api.failed && old(api.trace) <= api.trace && old(api.st).history <= api.st.history
      ensures Reported(api.script, api.cfg, api.trace, old(api.clock), api.clock, err)
      ensures api.st.run == if err then Idle else At(v, DropFinalizer)
      ensures tenant.ns == "" ==> !err && api.trace == old(api.trace) && api.clock == old(api.clock)
      ensures tenant.ns != "" && !err ==> DeletedInOrder(api.cfg, old(api.trace), api.trace)
    {
      hide Run, Elsewhere, LastState, Refused, CallsAt, Reported;
      ghost var from := api.clock;
      NothingReported(api.script, api.cfg, api.trace, from);
      if tenant.ns == "" {
        return false;
      }
      err := DeleteOne(v, tenant, Deployment);
      if err {
        return;
      }
      ghost var a, m1 := api.trace, api.clock;
      err := DeleteOne(v, tenant, Service);
      ReportedOn(api.script, api.cfg, a, from, m1, api.trace, api.clock, api.failed);
      if err {
        return;
      }
      ghost var b, m2 := api.trace, api.clock;
      err := DeleteOne(v, tenant, Secret);
      ReportedOn(api.script, api.cfg, b, from, m2, api.trace, api.clock, api.failed);
      CallsOn(api.cfg, a, api.trace, |a| - 1, Delete(Deployment));
      CallsOn(api.cfg, b, api.trace, |b| - 1, Delete(Service));
    }

    /** Of one of them; NotFound is not an error. */
    method DeleteOne(ghost v: nat, ghost tenant: Tenant, kind: Kind) returns (err: bool)
      requires api.Valid() && !api.failed && v < |api.st.history| && api.st.history[v] == Some(tenant)
      requires api.st.run == At(v, Delete(kind)) && kind != Namespace
      modifies api
      ensures api.Valid() && err == api.failed && old(api.trace) < api.trace && old(api.st).history <= api.st.history
      ensures Reported(api.script, api.cfg, api.trace, old(api.clock), api.clock, err)
      ensures CallsAt(api.cfg, api.trace, |api.trace| - 1, Delete(kind))
      ensures api.st.run == if err then Idle else
                              At(v, match kind case Deployment => Delete(Service) case Service => Delete(Secret)
                                    case _ => DropFinalizer)
      ensures !err ==> !api.st.Has(kind, tenant.ns)
    {
      hide Run, Elsewhere, LastState, Refused, CallsAt, Reported;
      var answer := api.Request(Delete(kind));
      err := answer != Ok && answer != NotFound;
    }

    method ReconcileA2AGateway(ghost v: nat, tenant: Tenant) returns (err: bool)
      requires api.Valid() && !api.failed && v < |api.st.history| && api.st.history[v] == Some(tenant) && tenant.gateway
      requires api.st.run == At(v, Get(Secret))
      modifies api
      ensures api.Valid() && err == api.failed && old(api.trace) <= api.trace && old(api.st).history <= api.st.history
      ensures Reported(api.script, api.cfg, api.trace, old(api.clock), api.clock, err)
      ensures api.st.run == if err then Idle else At(v, SetReady)
      ensures !err ==> AllThere(api.cfg, old(api.trace), api.trace, tenant.ns)
      ensures !err && !api.cfg.tamper ==> Provisioned(api.st, tenant)
    {
      hide Run, ThereAt, Elsewhere, LastState, Refused, CallsAt, Reported;
      ghost var from := api.clock;
      err := EnsureA2ASecret(v, tenant);
      if err {
        return;
      }
      ghost var a := api.trace;
      ThereNow(api, Secret, tenant.ns);
      ghost var t1, m1 := api.trace, api.clock;
      err := EnsureA2ADeployment(v, tenant);
      ReportedOn(api.script, api.cfg, t1, from, m1, api.trace, api.clock, api.failed);
      if err {
        return;
      }
      ghost var b := api.trace;
      ThereNow(api, Deployment, tenant.ns);
      ghost var t2, m2 := api.trace, api.clock;
      err := EnsureA2AService(v, tenant);
      ReportedOn(api.script, api.cfg, t2, from, m2, api.trace, api.clock, api.failed);
      if err {
        return;
      }
      ThereNow(api, Service, tenant.ns);
      ThereOn(api.cfg, a, api.trace, |a|, Secret, tenant.ns);
      ThereOn(api.cfg, b, api.trace, |b|, Deployment, tenant.ns);
      if !api.cfg.tamper {
        ReadyMeansProvisioned(api.cfg, api.trace);
      }
    }

    method EnsureA2ASecret(ghost v: nat, ghost tenant: Tenant) returns (err: bool)
      requires api.Valid() && !api.failed && v < |api.st.history| && api.st.history[v] == Some(tenant)
      requires api.st.run == At(v, Get(Secret))
      modifies api
      ensures api.Valid() && err == api.failed && old(api.trace) <= api.trace && old(api.st).history <= api.st.history
      ensures Reported(api.script, api.cfg, api.trace, old(api.clock), api.clock, err)
      ensures api.st.run == if err then Idle else At(v, Get(Deployment))
      ensures !err ==> tenant.ns in api.st.secrets
    {
      hide Run, Elsewhere, LastState, Refused, CallsAt, Reported;
      ghost var from := api.clock;
      var answer := api.Request(Get(Secret));
      if answer == Ok {
        return false;
      }
      if answer != NotFound {
        return true;
      }
      ghost var t1, m1 := api.trace, api.clock;
      answer := api.Request(Create(Secret));
      ReportedOn(api.script, api.cfg, t1, from, m1, api.trace, api.clock, api.failed);
      err := answer != Ok;
    }

    method EnsureA2ADeployment(ghost v: nat, ghost tenant: Tenant) returns (err: bool)
      requires api.Valid() && !api.failed && v < |api.st.history| && api.st.history[v] == Some(tenant)
      requires api.st.run == At(v, Get(Deployment))
      modifies api
      ensures api.Valid() && err == api.failed && old(api.trace) <= api.trace && old(api.st).history <= api.st.history
      ensures Reported(api.script, api.cfg, api.trace, old(api.clock), api.clock, err)
      ensures api.st.run == if err then Idle else At(v, Get(Service))
      ensures !err ==> tenant.ns in api.st.deployments
      ensures !err && !api.cfg.image ==> FoundBefore(api.cfg, old(api.trace), api.trace, v, tenant.ns)
    {
      hide Run, Elsewhere, Refused, CallsAt, Reported;
      ghost var from := api.clock;
      var answer := api.Request(Get(Deployment));
      if answer == Ok {
        assert FoundAt(api.cfg, api.trace, |api.trace| - 1, v, tenant.ns);
        return false;
      }
      if answer != NotFound {
        return true;
      }
      if !api.cfg.image {
        return true;
      }
      ghost var t1, m1 := api.trace, api.clock;
      answer := api.Request(Create(Deployment));
      ReportedOn(api.script, api.cfg, t1, from, m1, api.trace, api.clock, api.failed);
      err := answer != Ok;
    }

    method EnsureA2AService(ghost v: nat, ghost tenant: Tenant) returns (err: bool)
      requires api.Valid() && !api.failed && v < |api.st.history| && api.st.history[v] == Some(tenant)
      requires api.st.run == At(v, Get(Service))
      modifies api
      ensures api.Valid() && err == api.failed && old(api.trace) <= api.trace && old(api.st).history <= api.st.history
      ensures Reported(api.script, api.cfg, api.trace, old(api.clock), api.clock, err)
      ensures api.st.run == if err then Idle else At(v, SetReady)
      ensures !err ==> tenant.ns in api.st.services
    {
      hide Run, Elsewhere, LastState, Refused, CallsAt, Reported;
      ghost var from := api.clock;
      var answer := api.Request(Get(Service));
      if answer == Ok {
        return false;
      }
      if answer != NotFound {
        return true;
      }
      ghost var t1, m1 := api.trace, api.clock;
      answer := api.Request(Create(Service));
      ReportedOn(api.script, api.cfg, t1, from, m1, api.trace, api.clock, api.failed);
      err := answer != Ok;
    }

    method EnsureNamespace(ghost v: nat, ghost tenant: Tenant) returns (err: bool)
      requires api.Valid() && !api.failed && v < |api.st.history| && api.st.history[v] == Some(tenant)
      requires api.st.run == At(v, Get(Namespace))
      modifies api
      ensures api.Valid() && err == api.failed && old(api.trace) <= api.trace && old(api.st).history <= api.st.history
      ensures Reported(api.script, api.cfg, api.trace, old(api.clock), api.clock, err)
      ensures api.st.run == if err then Idle else At(v, After(Namespace, tenant.gateway))
      ensures !err ==> tenant.ns in api.st.namespaces
    {
      hide Run, Elsewhere, LastState, Refused, CallsAt, Reported;
      ghost var from := api.clock;
      var answer := api.Request(Get(Namespace));
      if answer == Ok {
        return false;
      }
      if answer != NotFound {
        return true;
      }
      ghost var t1, m1 := api.trace, api.clock;
      answer := api.Request(Create(Namespace));
      ReportedOn(api.script, api.cfg, t1, from, m1, api.trace, api.clock, api.failed);
      err := answer != Ok;
    }
  }
}
