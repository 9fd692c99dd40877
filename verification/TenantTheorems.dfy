/** What holds in every run of the TenantReconciler, with failures, crashes and user actions anywhere. */
module TenantTheorems {
  import opened Lifecycle
  import opened TenantModel

  lemma BeginInv(s: State, v: nat)
    requires Inv(s)
    ensures Inv(Next(s, Begin(v)))
  {
  }

  /** Appending a version that keeps the guard of the current object. */
  lemma VersionsAppend(history: seq<Option<Tenant>>, seen: nat, next: Option<Tenant>)
    requires history != [] && seen < |history| && LiveVersions(history, seen)
    requires forall ns, g :: Guarded(history[|history| - 1], ns, g) ==> Guarded(next, ns, g)
    ensures LiveVersions(history + [next], seen)
  {
    var h := history + [next];
    forall v | seen <= v < |h| && h[v].Some? && !h[v].value.deleting && FINALIZER in h[v].value.finalizers
      ensures Guarded(h[|h| - 1], h[v].value.ns, h[v].value.gateway)
    {
      if v < |history| {
        assert h[v] == history[v];
      }
    }
  }

  lemma UserInv(s: State, step: Step)
    requires Inv(s) && !step.Begin? && !step.Proceed?
    ensures Inv(Next(s, step))
  {
    hide LiveVersions;
    var s' := Next(s, step);
    if step.Tamper? {
      assert forall ns | Resource(s'.secrets, s'.deployments, s'.services, ns) ::
          Resource(s.secrets, s.deployments, s.services, ns);
      return;
    }
    if s' != s {
      var last, next := s.Last(), s'.Last();
      assert s'.history == s.history + [next];
      assert forall ns, g :: Guarded(last, ns, g) ==> Guarded(next, ns, g);
      VersionsAppend(s.history, s.seen, next);
      assert forall v: nat | v < |s.history| :: s'.history[v] == s.history[v];
    }
  }

  lemma ProceedInv(s: State, ok: bool, token: string)
    requires Inv(s) && s.run.At?
    ensures Inv(Next(s, Proceed(ok, token)))
  {
    var s' := Next(s, Proceed(ok, token));
    var answer := AnswerOf(s, ok);
    if s.run.call in {AddFinalizer, SetReady, DropFinalizer} {
      if answer == Ok {
        UpdateInv(s, s');
      }
    } else {
      ResourceCallInv(s, ok, token);
    }
  }

  lemma ResourceCallInv(s: State, ok: bool, token: string)
    requires Inv(s) && s.run.At? && s.run.call !in {AddFinalizer, SetReady, DropFinalizer}
    ensures Inv(Next(s, Proceed(ok, token)))
  {
    hide LiveVersions;
    var s' := Next(s, Proceed(ok, token));
    var t := s.View(s.run.v);
    forall ns | Resource(s'.secrets, s'.deployments, s'.services, ns)
      ensures Guarded(s'.Last(), ns, true) && ns != ""
    {
      if !Resource(s.secrets, s.deployments, s.services, ns) {
        assert s.run.call.Create? && ns == t.ns;
      }
    }
  }

  lemma UpdateInv(s: State, s': State)
    requires Inv(s) && s.run.At? && s.run.call in {AddFinalizer, SetReady, DropFinalizer}
    requires AnswerOf(s, true) == Ok && exists token :: s' == DoProceed(s, true, token)
    ensures Inv(s')
  {
    var last, next := s.Last(), s'.Last();
    assert s'.history == s.history + [next];
    if s.run.call == DropFinalizer {
      // the version that lost our finalizer was the one this reconcile read, and it was already deleting
      assert s.run.v == s.seen == |s.history| - 1;
      assert LiveVersions(s'.history, s.seen);
    } else {
      assert forall ns, g :: Guarded(last, ns, g) ==> Guarded(next, ns, g);
      VersionsAppend(s.history, s.seen, next);
    }
  }

  lemma StepInv(s: State, step: Step)
    requires Inv(s)
    ensures Inv(Next(s, step))
  {
    hide Inv;
    match step
    case Begin(v) => BeginInv(s, v);
    case Proceed(ok, token) => if s.run.At? { ProceedInv(s, ok, token); }
    case _ => UserInv(s, step);
  }

  lemma {:induction false} ExecInv(s: State, steps: seq<Step>)
    requires Inv(s)
    ensures Inv(Exec(s, steps))
    decreases |steps|
  {
    if steps != [] {
      ExecInv(s, steps[..|steps| - 1]);
      StepInv(Exec(s, steps[..|steps| - 1]), steps[|steps| - 1]);
    }
  }

  // ------------------------------------------------------------ the theorems

  function Run(cfg: Config, steps: seq<Step>): State {
    Exec(Init(cfg), steps)
  }

  lemma RunInv(cfg: Config, steps: seq<Step>)
    requires cfg.monotone
    ensures Inv(Run(cfg, steps))
  {
    ExecInv(Init(cfg), steps);
  }

  /** Finalizer safety: in every state of every run, between any two API calls, a gateway Secret, Deployment or Service
      exists only in the namespace of a Tenant that still exists and still carries the finalizer. So once the Tenant is
      gone, or has lost the finalizer, no gateway resource is left. */
  lemma FinalizerSafety(cfg: Config, steps: seq<Step>, ns: string)
    requires cfg.monotone
    ensures var s := Run(cfg, steps);
            && (ns in s.secrets || ns in s.deployments || ns in s.services ==>
                  s.Last().Some? && FINALIZER in s.Last().value.finalizers && s.Last().value.ns == ns
                      && s.Last().value.gateway)
            && (s.Last() == None || FINALIZER !in s.Last().value.finalizers ==>
                  s.secrets == map[] && s.deployments == {} && s.services == {})
  {
    RunInv(cfg, steps);
    var s := Run(cfg, steps);
    assert Resource(s.secrets, s.deployments, s.services, ns) ==> Guarded(s.Last(), ns, true);
    assert forall n :: n in s.secrets || n in s.deployments || n in s.services ==>
        Resource(s.secrets, s.deployments, s.services, n);
  }

  /** A Tenant is made, deleted, and finalized. */
  lemma FinalizedOnce(cfg: Config, t: Tenant, token: string) returns (steps: seq<Step>, s: State)
    requires t.ns != "" && t.finalizers == {FINALIZER} && !t.deleting && !t.ready
    ensures s == Run(cfg, steps)
    ensures s == Init(cfg).(history := [None, Some(t), Some(t.(deleting := true)), None], seen := 2)
  {
    hide Exec;
    var s0, ok := Init(cfg), Proceed(true, token);
    var h := [None, Some(t), Some(t.(deleting := true))];
    s := s0;
    RunOfNothing(s0);
    steps, s := Go(s0, [], UserCreates(t));
    steps, s := Go(s0, steps, UserDeletes);
    assert s == s0.(history := h);
    steps, s := Go(s0, steps, Begin(2));
    assert s == s0.(history := h, seen := 2, run := At(2, Delete(Deployment)));
    steps, s := Go(s0, steps, ok);
    steps, s := Go(s0, steps, ok);
    assert s == s0.(history := h, seen := 2, run := At(2, Delete(Secret)));
    steps, s := Go(s0, steps, ok);
    assert s == s0.(history := h, seen := 2, run := At(2, DropFinalizer));
    steps, s := Go(s0, steps, ok);
    assert s == s0.(history := h + [None], seen := 2);
  }

  /** The reads may be stale, but must not go back: a reconcile that starts from a version older than one a previous
      reconcile has seen recreates the Secret of a Tenant that is gone. */
  lemma GoingBackBreaksSafety(cfg: Config, ns: string, token: string) returns (steps: seq<Step>)
    requires !cfg.monotone && ns != ""
    ensures var s := Run(cfg, steps);
            s.Last() == None && ns in s.secrets
  {
    var s0, ok := Init(cfg), Proceed(true, token);
    var t := Tenant(ns, true, {FINALIZER}, false, false);
    var s;
    steps, s := FinalizedOnce(cfg, t, token);
    StartsOver(s, token);
    hide Exec, Next;
    steps, s := Go(s0, steps, Begin(1));
    steps, s := Go(s0, steps, ok);
    steps, s := Go(s0, steps, ok);
    StartsSecret(s, token);
    steps, s := Go(s0, steps, ok);
    steps, s := Go(s0, steps, ok);
  }

  /** From an old live version of a Tenant that is gone: the namespace is made ... */
  lemma StartsOver(s: State, token: string)
    requires !s.cfg.monotone && s.run == Idle && |s.history| == 4 && s.namespaces == {}
    requires s.history[1].Some?
    requires var t := s.history[1].value;
             !t.deleting && FINALIZER in t.finalizers && t.ns != "" && t.gateway
    ensures var ok, t := Proceed(true, token), s.history[1].value;
            Next(Next(Next(s, Begin(1)), ok), ok) == s.(seen := 1, namespaces := {t.ns}, run := At(1, Get(Secret)))
  {
    assert Next(s, Begin(1)) == s.(seen := 1, run := At(1, Get(Namespace)));
  }

  /** ... and its Secret. */
  lemma StartsSecret(s: State, token: string)
    requires s.run == At(1, Get(Secret)) && |s.history| == 4 && s.history[1].Some?
    requires s.secrets == map[] && s.namespaces == {s.history[1].value.ns} && s.history[1].value.ns != ""
    ensures var ok, t := Proceed(true, token), s.history[1].value;
            var s' := Next(Next(s, ok), ok);
            s'.history == s.history && t.ns in s'.secrets
  {
    assert Next(s, Proceed(true, token)) == s.(run := At(1, Create(Secret)));
  }

  ghost predicate AlwaysSafe(cfg: Config) {
    forall steps :: SafeState(Run(cfg, steps))
  }

  /** Gateway resources exist only for a Tenant that exists and carries the finalizer. */
  ghost predicate SafeState(s: State) {
    Safe(s.secrets, s.deployments, s.services, s.Last())
  }

  /** So every run is safe if and only if the cache does not go back, whether or not others tamper and the image is
      set. */
  lemma SafeIffMonotone(cfg: Config)
    ensures AlwaysSafe(cfg) <==> cfg.monotone
  {
    if cfg.monotone {
      forall steps
        ensures SafeState(Run(cfg, steps))
      {
        RunInv(cfg, steps);
      }
    } else {
      var steps := GoingBackBreaksSafety(cfg, "n", "");
      var s := Run(cfg, steps);
      hide Run;
      assert Resource(s.secrets, s.deployments, s.services, "n");
      assert !SafeState(s);
    }
  }

  lemma RunOfNothing(s: State)
    ensures Exec(s, []) == s
  {
  }

  /** Extends a concrete run by one step. */
  lemma Go(s0: State, steps: seq<Step>, step: Step) returns (longer: seq<Step>, s: State)
    ensures longer == steps + [step] && s == Exec(s0, longer) == Next(Exec(s0, steps), step)
  {
    longer := steps + [step];
    s := Exec(s0, longer);
    assert longer[..|longer| - 1] == steps;
  }

  // What provisioning means.

  ghost predicate Provisioned(s: State, t: Tenant) {
    && t.ns in s.namespaces
    && (t.gateway ==> t.ns in s.secrets && t.ns in s.deployments && t.ns in s.services)
  }

  /** What is known to exist by the time of this call, when nobody tampers. */
  ghost predicate Reached(s: State, call: Call, t: Tenant) {
    match call
    case Get(Secret) => t.ns in s.namespaces
    case Create(Secret) => t.ns in s.namespaces
    case Get(Deployment) => t.ns in s.namespaces && t.ns in s.secrets
    case Create(Deployment) => t.ns in s.namespaces && t.ns in s.secrets
    case Get(Service) => t.ns in s.namespaces && t.ns in s.secrets && t.ns in s.deployments
    case Create(Service) => t.ns in s.namespaces && t.ns in s.secrets && t.ns in s.deployments
    case SetReady => Provisioned(s, t)
    case _ => true
  }

  ghost predicate LiveReady(last: Option<Tenant>) {
    last.Some? && last.value.ready && !last.value.deleting
  }

  ghost predicate ReadyInv(s: State) {
    && !s.cfg.tamper
    && (LiveReady(s.Last()) ==> Provisioned(s, s.Last().value))
    && (s.run.At? ==> Reached(s, s.run.call, s.View(s.run.v)))
    && (s.run.At? && (s.run.call.Delete? || s.run.call == DropFinalizer) ==> !LiveReady(s.Last()))
    && (forall v :: s.seen <= v < |s.history| && s.history[v].Some? && s.history[v].value.deleting ==>
         !LiveReady(s.Last()))
  }

  lemma ReadyProceed(s: State, ok: bool, token: string)
    requires Inv(s) && ReadyInv(s) && s.run.At?
    ensures ReadyInv(Next(s, Proceed(ok, token)))
  {
    hide LiveVersions, Safe;
    if s.run.call == SetReady && AnswerOf(s, ok) == Ok {
      ReadyIsSet(s, ok, token);
      hide Next;
    }
  }

  lemma ReadyIsSet(s: State, ok: bool, token: string)
    requires Inv(s) && ReadyInv(s) && s.run.At? && s.run.call == SetReady && AnswerOf(s, ok) == Ok
    ensures ReadyInv(Next(s, Proceed(ok, token)))
  {
    hide LiveVersions, Safe;
    var s' := Next(s, Proceed(ok, token));
    assert s'.history == s.history + [Some(s.View(s.run.v).(ready := true))];
    assert forall v: nat | s.seen <= v < |s.history| && s.history[v].Some? :: !s.history[v].value.deleting;
  }

  lemma ReadyStep(s: State, step: Step)
    requires Inv(s) && ReadyInv(s)
    ensures ReadyInv(Next(s, step))
  {
    hide LiveVersions, Safe;
    if step.Proceed? {
      if s.run.At? {
        ReadyProceed(s, step.ok, step.token);
      }
    } else if !step.Begin? && !step.Tamper? {
      hide RunOk;
      var s' := Next(s, step);
      if s' != s {
        assert s'.history == s.history + [s'.Last()];
      }
    }
  }

  /** Ready is honest: unless someone deletes what was provisioned, a Tenant that is Ready and not being deleted has its
      namespace and, if it wants a gateway, all three gateway resources. */
  lemma {:induction false} ReadyMeansProvisioned(cfg: Config, steps: seq<Step>)
    requires cfg.monotone && !cfg.tamper
    ensures ReadyInv(Run(cfg, steps))
    ensures var s := Run(cfg, steps);
            LiveReady(s.Last()) ==>
              && s.Last().value.ns in s.namespaces
              && (s.Last().value.gateway ==>
                   s.Last().value.ns in s.secrets && s.Last().value.ns in s.deployments
                       && s.Last().value.ns in s.services)
    decreases |steps|
  {
    if steps != [] {
      var front := steps[..|steps| - 1];
      ReadyMeansProvisioned(cfg, front);
      RunInv(cfg, front);
      ReadyStep(Run(cfg, front), steps[|steps| - 1]);
    }
  }

  /** Where a reconcile stands, whatever the cache does: it works on a version that is there, and deletes only for a
      version that was being deleted. */
  ghost predicate ViewOk(s: State) {
    s.run.At? ==>
      && s.run.v < |s.history| && s.history[s.run.v].Some? && s.run.call != Delete(Namespace)
      && (s.run.call == AddFinalizer ==> !s.View(s.run.v).deleting)
      && (s.run.call.Delete? ==> s.View(s.run.v).deleting)
  }

  lemma ViewProceeds(s: State, ok: bool, token: string)
    requires ViewOk(s)
    ensures ViewOk(Next(s, Proceed(ok, token)))
  {
    if s.run.At? && s.run.call == AddFinalizer && AnswerOf(s, ok) == Ok {
      var t := s.View(s.run.v);
      assert Stored(t.(finalizers := t.finalizers + {FINALIZER})) == Some(t.(finalizers := t.finalizers + {FINALIZER}));
    }
  }

  lemma ViewStep(s: State, step: Step)
    requires ViewOk(s)
    ensures ViewOk(Next(s, step))
  {
    if step.Proceed? {
      ViewProceeds(s, step.ok, step.token);
    }
  }

  lemma {:induction false} ViewExec(cfg: Config, steps: seq<Step>)
    ensures ViewOk(Run(cfg, steps))
    decreases |steps|
  {
    if steps != [] {
      ViewExec(cfg, steps[..|steps| - 1]);
      hide Next, ViewOk;
      ViewStep(Run(cfg, steps[..|steps| - 1]), steps[|steps| - 1]);
    }
  }

  /** An existing token is never rewritten, and the reconciler deletes it only while it finalizes a deleted Tenant. */
  lemma TokenIsKept(cfg: Config, steps: seq<Step>, step: Step, ns: string)
    requires ns in Run(cfg, steps).secrets
    ensures var s, s' := Run(cfg, steps), Next(Run(cfg, steps), step);
            && (ns in s'.secrets ==> s'.secrets[ns] == s.secrets[ns])
            && (ns !in s'.secrets ==>
                  || step.Tamper?
                  || (step.Proceed? && s.run.At? && s.run.call == Delete(Secret) && s.View(s.run.v).deleting
                       && s.View(s.run.v).ns == ns))
  {
    ViewExec(cfg, steps);
    hide Run;
  }

  // Convergence.

  /** One reconcile from the current version in which every call succeeds and nobody interferes. */
  function CleanRun(s: State, token: string): State
    requires s.history != []
  {
    Drive(Next(s, Begin(|s.history| - 1)), token, 10)
  }

  /** The next n calls, all answered. */
  function Drive(s: State, token: string, n: nat): State
    decreases n
  {
    if n == 0 then s else Drive(Next(s, Proceed(true, token)), token, n - 1)
  }

  /** Making sure that one gateway resource exists takes one call, or two if it is missing. */
  lemma DriveOne(s: State, token: string, n: nat, kind: Kind) returns (s': State, m: nat)
    requires s.history != [] && s.run == At(|s.history| - 1, Get(kind)) && kind != Namespace && n >= 2
    requires s.View(s.run.v).ns != "" && s.View(s.run.v).ns in s.namespaces
    requires kind == Deployment ==> s.cfg.image || s.View(s.run.v).ns in s.deployments
    ensures Drive(s, token, n) == Drive(s', token, m) && n - 2 <= m < n
    ensures var t := s.View(s.run.v);
            s' == s.(run := At(s.run.v, After(kind, t.gateway)),
                      secrets := if kind == Secret && t.ns !in s.secrets then s.secrets[t.ns := token] else s.secrets,
                      deployments := if kind == Deployment then s.deployments + {t.ns} else s.deployments,
                      services := if kind == Service then s.services + {t.ns} else s.services)
  {
    s', m := Next(s, Proceed(true, token)), n - 1;
    if !s.Has(kind, s.View(s.run.v).ns) {
      assert s' == s.(run := At(s.run.v, Create(kind)));
      s', m := Next(s', Proceed(true, token)), n - 2;
    }
  }

  lemma DriveReady(s: State, token: string, n: nat)
    requires s.history != [] && s.run == At(|s.history| - 1, SetReady) && s.Last().Some? && n >= 1
    ensures Drive(s, token, n).run == Idle
    ensures Drive(s, token, n) == s.(run := Idle, history := s.history + [Stored(s.Last().value.(ready := true))])
  {
    DriveIdle(Next(s, Proceed(true, token)), token, n - 1);
  }

  lemma {:induction false} DriveIdle(s: State, token: string, n: nat)
    requires s.run == Idle
    ensures Drive(s, token, n) == s
  {
    if n > 0 {
      DriveIdle(s, token, n - 1);
    }
  }

  /** A Deployment that has to be made needs an image. */
  predicate Buildable(s: State, t: Tenant) {
    t.gateway ==> s.cfg.image || t.ns in s.deployments
  }

  /** Nothing but what the Tenant wants is added, and an earlier token is kept. */
  ghost predicate Added(s: State, t: Tenant, token: string, s': State) {
    && s'.namespaces == s.namespaces + {t.ns}
    && s'.secrets == (if t.gateway && t.ns !in s.secrets then s.secrets[t.ns := token] else s.secrets)
    && s'.deployments == (if t.gateway then s.deployments + {t.ns} else s.deployments)
    && s'.services == (if t.gateway then s.services + {t.ns} else s.services)
  }

  /** From the Get of the Secret on: three resources, at most two calls each, then Ready; or no further than the
      Deployment. */
  lemma DriveResources(s: State, token: string, n: nat)
    requires s.history != [] && s.run == At(|s.history| - 1, Get(Secret)) && n >= 7
    requires s.Last().Some? && !s.Last().value.deleting && s.Last().value.ns != "" && s.Last().value.ns in s.namespaces
    requires s.Last().value.gateway
    ensures var t, s' := s.Last().value, Drive(s, token, n);
            && s'.run == Idle
            && (Buildable(s, t) ==> s'.Last() == Some(t.(ready := true)) && Added(s, t, token, s'))
            && (!Buildable(s, t) ==> s'.history == s.history)
  {
    hide Drive, DoProceed;
    var t, v := s.View(s.run.v), s.run.v;
    var s1, n1 := DriveOne(s, token, n, Secret);
    if Buildable(s, t) {
      var s2, n2 := DriveOne(s1, token, n1, Deployment);
      var s3, n3 := DriveOne(s2, token, n2, Service);
      DriveReady(s3, token, n3);
    } else {
      NoImage(s1, token, n1);
    }
  }

  lemma NoImage(s: State, token: string, n: nat)
    requires s.history != [] && s.run == At(|s.history| - 1, Get(Deployment)) && n >= 1
    requires !s.cfg.image && s.View(s.run.v).ns !in s.deployments
    ensures Drive(s, token, n) == s.(run := Idle)
  {
    DriveIdle(Next(s, Proceed(true, token)), token, n - 1);
  }

  lemma DriveAfterNamespace(s: State, token: string, n: nat)
    requires s.history != [] && s.Last().Some? && s.Last().value.ns != "" && s.Last().value.ns in s.namespaces
    requires s.run == At(|s.history| - 1, After(Namespace, s.Last().value.gateway))
    requires !s.Last().value.deleting && n >= 7
    ensures var t, s' := s.Last().value, Drive(s, token, n);
            && s'.run == Idle
            && (Buildable(s, t) ==> s'.Last() == Some(t.(ready := true)) && Added(s, t, token, s'))
            && (!Buildable(s, t) ==> s'.history == s.history)
  {
    hide Drive, DoProceed;
    if s.Last().value.gateway {
      DriveResources(s, token, n);
    } else {
      DriveReady(s, token, n);
    }
  }

  lemma DriveNamespace(s: State, token: string, n: nat)
    requires s.history != [] && s.run == At(|s.history| - 1, Get(Namespace)) && n >= 9
    requires s.Last().Some? && s.Last().value.ns != "" && !s.Last().value.deleting
    ensures var t, s' := s.Last().value, Drive(s, token, n);
            && s'.run == Idle
            && (Buildable(s, t) ==> s'.Last() == Some(t.(ready := true)) && Added(s, t, token, s'))
            && (!Buildable(s, t) ==> s'.history == s.history)
  {
    var t := s.Last().value;
    var s1, m := Next(s, Proceed(true, token)), n - 1;
    if t.ns !in s.namespaces {
      s1, m := Next(s1, Proceed(true, token)), n - 2;
    }
    assert s1 == s.(namespaces := s.namespaces + {t.ns}, run := At(|s.history| - 1, After(Namespace, t.gateway)));
    assert Drive(s, token, n) == Drive(s1, token, m);
    hide Drive, Next;
    DriveAfterNamespace(s1, token, m);
  }

  lemma FinalizerFirst(s: State, token: string)
    requires s.history != [] && s.run == At(|s.history| - 1, AddFinalizer) && s.Last().Some? && !s.Last().value.deleting
    ensures var t, s' := s.Last().value, Next(s, Proceed(true, token));
            && s' == s.(history := s.history + [Some(t.(finalizers := t.finalizers + {FINALIZER}))],
                 run := At(|s.history|, Get(Namespace)))
            && Drive(s, token, 10) == Drive(s', token, 9)
  {
  }

  /** A state in which a reconcile of the current version can begin. */
  predicate CanBegin(s: State) {
    s.history != [] && s.run == Idle && (s.cfg.monotone ==> s.seen <= |s.history| - 1)
  }

  lemma BeginsLive(s: State)
    requires CanBegin(s) && s.Last().Some? && !s.Last().value.deleting
    ensures var v, call := |s.history| - 1, if FINALIZER in s.Last().value.finalizers then Get(Namespace)
            else AddFinalizer;
            Next(s, Begin(v)) == s.(seen := v, run := At(v, call))
  {
  }

  /** The outcome of a clean reconcile of a live Tenant. */
  ghost predicate CleanOutcome(s: State, t: Tenant, token: string, s': State) {
    && s'.run == Idle
    && s'.Last() == Some(t.(finalizers := t.finalizers + {FINALIZER}, ready := t.ready || Buildable(s, t)))
    && (Buildable(s, t) ==> Added(s, t, token, s'))
  }

  lemma CleanProvision(s: State, token: string)
    requires CanBegin(s) && s.Last().Some? && s.Last().value.ns != "" && !s.Last().value.deleting
    ensures CleanOutcome(s, s.Last().value, token, CleanRun(s, token))
  {
    hide Next, Drive;
    BeginsLive(s);
    if FINALIZER in s.Last().value.finalizers {
      ProvisionMarked(s, Next(s, Begin(|s.history| - 1)), token);
    } else {
      ProvisionFirst(s, Next(s, Begin(|s.history| - 1)), token);
    }
  }

  lemma ProvisionMarked(s: State, s0: State, token: string)
    requires s.history != [] && s.Last().Some? && s.Last().value.ns != "" && !s.Last().value.deleting
    requires FINALIZER in s.Last().value.finalizers
    requires s0 == s.(seen := s0.seen, run := At(|s.history| - 1, Get(Namespace)))
    ensures CleanOutcome(s, s.Last().value, token, Drive(s0, token, 10))
  {
    hide Drive;
    var t := s.Last().value;
    assert t.finalizers + {FINALIZER} == t.finalizers;
    DriveNamespace(s0, token, 10);
  }

  lemma ProvisionFirst(s: State, s0: State, token: string)
    requires s.history != [] && s.Last().Some? && s.Last().value.ns != "" && !s.Last().value.deleting
    requires s0 == s.(seen := s0.seen, run := At(|s.history| - 1, AddFinalizer))
    ensures CleanOutcome(s, s.Last().value, token, Drive(s0, token, 10))
  {
    FinalizerFirst(s0, token);
    hide Next, Drive;
    var t := s.Last().value;
    var s1 := s0.(history := s0.history + [Some(t.(finalizers := t.finalizers + {FINALIZER}))],
                  run := At(|s0.history|, Get(Namespace)));
    DriveNamespace(s1, token, 9);
  }

  lemma CleanNothing(s: State, token: string)
    requires CanBegin(s) && s.Last().Some? && s.Last().value.deleting && FINALIZER !in s.Last().value.finalizers
    ensures CleanRun(s, token) == s.(seen := |s.history| - 1)
  {
    DriveIdle(Next(s, Begin(|s.history| - 1)), token, 10);
  }

  /** Nothing but what the Tenant had is removed. */
  ghost predicate Removed(s: State, ns: string, s': State) {
    && s'.namespaces == s.namespaces && s'.secrets == s.secrets - {ns}
    && s'.deployments == s.deployments - {ns} && s'.services == s.services - {ns}
  }

  lemma CleanFinalize(s: State, token: string)
    requires CanBegin(s) && s.Last().Some? && s.Last().value.ns != ""
    requires s.Last().value.deleting && FINALIZER in s.Last().value.finalizers
    ensures var t, s' := s.Last().value, CleanRun(s, token);
            && s'.run == Idle && Removed(s, t.ns, s')
            && s'.Last() == Stored(t.(finalizers := t.finalizers - {FINALIZER}))
  {
    var v, t, p := |s.history| - 1, s.Last().value, Proceed(true, token);
    var s0 := Next(s, Begin(v));
    var s1 := Next(s0, p);
    assert s1 == s0.(deployments := s.deployments - {t.ns}, run := At(v, Delete(Service)));
    var s2 := Next(s1, p);
    assert s2 == s1.(services := s.services - {t.ns}, run := At(v, Delete(Secret)));
    var s3 := Next(s2, p);
    assert s3 == s2.(secrets := s.secrets - {t.ns}, run := At(v, DropFinalizer));
    var s4 := Next(s3, p);
    DriveIdle(s4, token, 6);
    assert Drive(s2, token, 8) == Drive(s4, token, 6);
    assert Drive(s0, token, 10) == Drive(s2, token, 8);
  }

  lemma ConfigKept(s: State, step: Step)
    ensures Next(s, step).cfg == s.cfg
  {
  }

  /** The cache shows versions that were there. */
  lemma {:induction false} SeenIsPast(cfg: Config, steps: seq<Step>)
    ensures var s := Run(cfg, steps);
            s.cfg == cfg && s.history != [] && s.seen < |s.history|
    decreases |steps|
  {
    if steps != [] {
      var front, step := steps[..|steps| - 1], steps[|steps| - 1];
      SeenIsPast(cfg, front);
      ConfigKept(Run(cfg, front), step);
    }
  }

  lemma OnlyOurs(s: State)
    requires Inv(s) && s.Last().Some?
    ensures var t := s.Last().value;
            && s.secrets.Keys <= (if t.gateway then {t.ns} else {})
            && s.deployments <= (if t.gateway then {t.ns} else {})
            && s.services <= (if t.gateway then {t.ns} else {})
  {
    hide LiveVersions, RunOk;
    var t := s.Last().value;
    assert forall n :: n in s.secrets || n in s.deployments || n in s.services ==>
        Resource(s.secrets, s.deployments, s.services, n);
  }

  /** t is provisioned with exactly its own resources. */
  ghost predicate ExactlyProvisioned(s: State, t: Tenant) {
    var want := if t.gateway then {t.ns} else {};
    && t.ns in s.namespaces
    && s.secrets.Keys == want && s.deployments == want && s.services == want
  }

  /** Whatever failed, crashed, was half done or tampered with before, and whatever the cache showed: one clean
      reconcile of a live Tenant adds what it wants and nothing else, keeps a token that was there, and marks it Ready
      -- if and only if no Deployment has to be made without an image. One clean reconcile of a deleted Tenant removes
      its gateway resources and takes our finalizer off, so the object goes unless others hold it. Where the cache
      never went back, the resources are then exactly the Tenant's own, or none at all. */
  lemma CleanRunConverges(cfg: Config, steps: seq<Step>, token: string)
    requires Run(cfg, steps).run == Idle && Run(cfg, steps).Last().Some? && Run(cfg, steps).Last().value.ns != ""
    ensures var s := Run(cfg, steps);
            s.history != [] &&
            var t, s' := s.Last().value, CleanRun(s, token);
            && s'.run == Idle
            && (!t.deleting ==>
                  && s'.Last() == Some(t.(finalizers := t.finalizers + {FINALIZER}, ready := t.ready
                       || Buildable(s, t)))
                  && (Buildable(s, t) ==> Added(s, t, token, s'))
                  && (Buildable(s, t) && cfg.monotone ==> ExactlyProvisioned(s', t)))
            && (t.deleting && FINALIZER in t.finalizers ==>
                  && Removed(s, t.ns, s') && s'.Last() == Stored(t.(finalizers := t.finalizers - {FINALIZER}))
                  && (cfg.monotone ==> s'.secrets == map[] && s'.deployments == {} && s'.services == {}))
  {
    SeenIsPast(cfg, steps);
    var s := Run(cfg, steps);
    var t := s.Last().value;
    hide Exec, Inv, Stored, Added, Removed, ExactlyProvisioned, Buildable;
    if cfg.monotone {
      RunInv(cfg, steps);
    }
    hide Run;
    if !t.deleting {
      CleanProvision(s, token);
      if cfg.monotone && Buildable(s, t) {
        hide CleanRun;
        AddedExactly(s, token, CleanRun(s, token));
      }
    } else if FINALIZER in t.finalizers {
      CleanFinalize(s, token);
      if cfg.monotone {
        hide CleanRun;
        RemovedAll(s, CleanRun(s, token));
      }
    } else {
      CleanNothing(s, token);
    }
  }

  lemma AddedExactly(s: State, token: string, s': State)
    requires Inv(s) && s.Last().Some? && !s.Last().value.deleting
    requires Added(s, s.Last().value, token, s')
    ensures ExactlyProvisioned(s', s.Last().value)
  {
    OnlyOurs(s);
    hide Inv;
  }

  lemma RemovedAll(s: State, s': State)
    requires Inv(s) && s.Last().Some? && Removed(s, s.Last().value.ns, s')
    ensures s'.secrets == map[] && s'.deployments == {} && s'.services == {}
  {
    OnlyOurs(s);
    hide Inv;
  }
}
