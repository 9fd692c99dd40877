/** Exactly when Ready is honest. */
module TenantReady {
  import opened Lifecycle
  import opened TenantModel
  import opened TenantTheorems

  /** A Ready Tenant that is not being deleted has its namespace and the gateway resources it wants. */
  ghost predicate Honest(s: State) {
    LiveReady(s.Last()) ==> Provisioned(s, s.Last().value)
  }

  ghost predicate AlwaysHonest(cfg: Config) {
    forall steps :: Honest(Run(cfg, steps))
  }

  // --------------------------------------------------------------- without an image

  /** Without an image no Deployment is ever made, so no Tenant with a gateway becomes Ready. */
  ghost predicate ImagelessInv(s: State) {
    && !s.cfg.image && !s.cfg.tamper && ViewOk(s) && s.history != []
    && s.deployments == {}
    && (LiveReady(s.Last()) ==> !s.Last().value.gateway && s.Last().value.ns in s.namespaces)
    && (s.run.At? ==>
          && s.run.call !in {Create(Deployment), Get(Service), Create(Service)}
          && (s.run.call == SetReady ==> !s.View(s.run.v).gateway && s.View(s.run.v).ns in s.namespaces))
  }

  lemma ImagelessProceeds(s: State, ok: bool, token: string)
    requires ImagelessInv(s) && s.run.At?
    ensures ImagelessInv(Next(s, Proceed(ok, token)))
  {
    ViewProceeds(s, ok, token);
    hide ViewOk;
  }

  lemma ImagelessStep(s: State, step: Step)
    requires ImagelessInv(s)
    ensures ImagelessInv(Next(s, step))
  {
    ViewStep(s, step);
    if step.Proceed? {
      if s.run.At? {
        ImagelessProceeds(s, step.ok, step.token);
      }
      hide Next;
    } else {
      hide ViewOk;
    }
  }

  lemma {:induction false} ImagelessRun(cfg: Config, steps: seq<Step>)
    requires !cfg.image && !cfg.tamper
    ensures ImagelessInv(Run(cfg, steps))
    decreases |steps|
  {
    if steps != [] {
      ImagelessRun(cfg, steps[..|steps| - 1]);
      hide Next, ImagelessInv;
      ImagelessStep(Run(cfg, steps[..|steps| - 1]), steps[|steps| - 1]);
    }
  }

  // ---------------------------------------------------------- with somebody tampering

  /** A Tenant without a gateway becomes Ready, and its namespace is removed. */
  lemma TamperingBreaksReady(cfg: Config) returns (steps: seq<Step>)
    requires cfg.tamper
    ensures !Honest(Run(cfg, steps))
  {
    var s0, ok := Init(cfg), Proceed(true, "");
    var t := Tenant("n", false, {FINALIZER}, false, false);
    var s := s0;
    RunOfNothing(s0);
    hide Exec;
    steps, s := Go(s0, [], UserCreates(t));
    assert s == s0.(history := [None, Some(t)]);
    steps, s := Go(s0, steps, Begin(1));
    assert s == s0.(history := [None, Some(t)], seen := 1, run := At(1, Get(Namespace)));
    steps, s := Go(s0, steps, ok);
    steps, s := Go(s0, steps, ok);
    assert s == s0.(history := [None, Some(t)], seen := 1, namespaces := {"n"}, run := At(1, SetReady));
    steps, s := Go(s0, steps, ok);
    assert s.Last() == Some(t.(ready := true)) && s.run == Idle && s.cfg == cfg;
    steps, s := Go(s0, steps, Tamper(Namespace, "n"));
  }

  // -------------------------------------------------- with a cache that goes back

  /** One whole reconcile, call by call. */
  lemma {:induction false} Drives(cfg: Config, steps: seq<Step>, token: string, n: nat) returns (longer: seq<Step>)
    ensures Run(cfg, longer) == Drive(Run(cfg, steps), token, n)
    decreases n
  {
    longer := steps;
    if n > 0 {
      var s;
      longer, s := Go(Init(cfg), steps, Proceed(true, token));
      hide Next;
      longer := Drives(cfg, longer, token, n - 1);
    }
  }

  /** A Tenant of the same name comes after one that was deleted, and becomes Ready ... */
  lemma SecondIsReady(cfg: Config, t: Tenant) returns (steps: seq<Step>, s: State)
    requires !cfg.monotone && cfg.image && t == Tenant("n", true, {FINALIZER}, false, false)
    ensures s == Run(cfg, steps) && s.cfg == cfg && s.run == Idle && |s.history| > 2
    ensures s.history[2] == Some(t.(deleting := true)) && s.Last() == Some(t.(ready := true)) && s.deployments == {"n"}
  {
    steps, s := FinalizedOnce(cfg, t, "");
    var first := s;
    hide Exec;
    steps, s := Go(Init(cfg), steps, UserCreates(t));
    assert s == first.(history := first.history + [Some(t)]);
    var made := s;
    steps, s := Go(Init(cfg), steps, Begin(|made.history| - 1));
    hide Drive, Next;
    steps := Drives(cfg, steps, "", 10);
    CleanProvision(made, "");
    s := Run(cfg, steps);
    assert t.finalizers + {FINALIZER} == t.finalizers;
    HistoryStays(cfg, made, Begin(|made.history| - 1), 10);
  }

  lemma {:induction false} DriveGrows(s: State, token: string, n: nat)
    ensures s.history <= Drive(s, token, n).history && Drive(s, token, n).cfg == s.cfg
    decreases n
  {
    if n > 0 {
      ProceedGrows(s, token);
      hide Next;
      DriveGrows(Next(s, Proceed(true, token)), token, n - 1);
    }
  }

  lemma ProceedGrows(s: State, token: string)
    ensures s.history <= Next(s, Proceed(true, token)).history && Next(s, Proceed(true, token)).cfg == s.cfg
  {
  }

  lemma HistoryStays(cfg: Config, s: State, begin: Step, n: nat)
    requires begin.Begin?
    ensures s.history <= Drive(Next(s, begin), "", n).history && Drive(Next(s, begin), "", n).cfg == s.cfg
  {
    assert Next(s, begin).history == s.history && Next(s, begin).cfg == s.cfg;
    hide Next, Drive;
    DriveGrows(Next(s, begin), "", n);
  }

  /** ... and a reconcile that goes back to the deleted version removes the Deployment. */
  lemma GoingBackBreaksReady(cfg: Config) returns (steps: seq<Step>)
    requires !cfg.monotone && cfg.image
    ensures !Honest(Run(cfg, steps))
  {
    var t := Tenant("n", true, {FINALIZER}, false, false);
    var s;
    steps, s := SecondIsReady(cfg, t);
    hide Exec;
    var ready := s;
    steps, s := Go(Init(cfg), steps, Begin(2));
    assert s == ready.(seen := 2, run := At(2, Delete(Deployment)));
    steps, s := Go(Init(cfg), steps, Proceed(true, ""));
    assert s.Last() == ready.Last() && s.deployments == {};
  }

  // ---------------------------------------------------------------- the main result

  /** Ready is honest in every run if and only if nobody tampers with what was provisioned, and the cache does not go
      back or no gateway can be made at all. */
  lemma HonestIff(cfg: Config)
    ensures AlwaysHonest(cfg) <==> !cfg.tamper && (cfg.monotone || !cfg.image)
  {
    hide Run, Honest;
    if cfg.tamper {
      var steps := TamperingBreaksReady(cfg);
    } else if cfg.monotone || !cfg.image {
      forall steps
        ensures Honest(Run(cfg, steps))
      {
        HonestRun(cfg, steps);
      }
    } else {
      var steps := GoingBackBreaksReady(cfg);
    }
  }

  lemma HonestRun(cfg: Config, steps: seq<Step>)
    requires !cfg.tamper && (cfg.monotone || !cfg.image)
    ensures Honest(Run(cfg, steps))
  {
    if cfg.monotone {
      ReadyMeansProvisioned(cfg, steps);
    } else {
      ImagelessRun(cfg, steps);
      hide Run;
    }
  }
}
