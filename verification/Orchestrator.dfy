/** The orchestrator's loop, its exception handler and the watchdog around it, as traces of state changes
    (bypsseng/engine/orchestrator.py and main in BypssEng.py). */
module Orchestrator {
  import opened Sequences
  import opened Text
  import opened StateMachine
  import opened DecisionRules

  /** What a run leaves behind: calls of transition with their answers, direct writes of the state by the handler and
      the watchdog, and the answers of the executor and of the health probe. */
  datatype Event =
    | Call(to: EngineState, accepted: bool)
    | Write(to: EngineState)
    | Executor(ok: bool)
    | Probe(ok: bool)

  type Trace = seq<Event>

  function Current(t: Trace): EngineState {
    if t == [] then INIT
    else match t[|t| - 1]
      case Call(to, accepted) => if accepted then to else DEGRADED
      case Write(to) => to
      case _ => Current(t[..|t| - 1])
  }

  function Go(t: Trace, to: EngineState): Trace {
    t + [Call(to, to in Allowed(Current(t)))]
  }

  /** What the environment answers during one iteration of the loop. `budget` is how many recorded events happen
      before an exception; it never strikes when the budget exceeds their number. `escapes` counts how often the
      handler, and then the restarted run before its first transition, raise in their turn; `early` says that the
      handler raises in its logging, before it writes the state. */
  datatype Env = Env(geoOk: bool, captive: bool, healthy: bool, states: States, executorOk: bool, probeOk: bool,
                     budget: nat, escapes: nat, early: bool)

  function Diagnosed(t: Trace, env: Env): Trace {
    var t1 := Go(t, DIAGNOSING);
    if !env.geoOk || env.captive || env.healthy then Go(t1, RESELECTING) else Go(t1, DIAGNOSIS_READY)
  }

  /** select_and_connect after evaluating the rules; `none` says that they gave no diagnosis. */
  function Proceeded(t: Trace, none: bool, executorOk: bool): Trace {
    if none then Go(t, DEGRADED)
    else Go(Go(t, STARTING) + [Executor(executorOk)], if executorOk then VERIFYING else DEGRADED)
  }

  /** select_and_connect: the rule engine always gives a diagnosis, so its degrading branch is dead. */
  function Selected(t: Trace, env: Env): Trace {
    Proceeded(Go(t, SELECTING), false, env.executorOk)
  }

  function Verified(t: Trace, env: Env): Trace {
    Go(t + [Probe(env.probeOk)], if env.probeOk then ACTIVE else DEGRADED)
  }

  /** The trace after the body of one iteration, without exceptions. */
  function Body(t: Trace, env: Env): Trace {
    match Current(t)
    case BASELINE => Diagnosed(t, env)
    case RESELECTING => Diagnosed(t, env)
    case DIAGNOSIS_READY => Selected(t, env)
    case STARTING => t
    case VERIFYING => Verified(t, env)
    case ACTIVE => Go(t, MONITORING)
    case MONITORING => if env.probeOk then t + [Probe(true)] else Go(t + [Probe(false)], DEGRADED)
    case DEGRADED => Go(t, RESELECTING)
    case _ => Go(t, RESELECTING)
  }

  predicate Raises(t: Trace, env: Env) { env.budget <= |Body(t, env)| - |t| }

  function Watchdog(t: Trace, escapes: nat): Trace {
    if escapes == 0 then t else Watchdog(t, escapes - 1) + [Write(RESELECTING)]
  }

  /** One iteration: the body, or its beginning followed by the handler and possibly the watchdog's restart. */
  function Iterate(t: Trace, env: Env): Trace {
    if !Raises(t, env) then Body(t, env) else Handled(Body(t, env)[..|t| + env.budget], env.escapes, env.early)
  }

  /** The exception handler after `t`, and the watchdog with the restarted run if the handler fails too. */
  function Handled(t: Trace, escapes: nat, early: bool): Trace {
    if escapes == 0 then t + [Write(DEGRADED)]
    else Go(Watchdog(if early then t else t + [Write(DEGRADED)], escapes), BASELINE)
  }

  function After(t: Trace, envs: seq<Env>): Trace {
    if envs == [] then t else Iterate(After(t, envs[..|envs| - 1]), envs[|envs| - 1])
  }

  function Start(escapes: nat): Trace {
    Go(Watchdog([], escapes), BASELINE)
  }

  /** Every run, up to some iteration; `escapes` are failures before the very first transition. */
  function Run(escapes: nat, envs: seq<Env>): Trace {
    After(Start(escapes), envs)
  }

  class Engine {
    const sm: Machine
    ghost var trace: Trace
    var budget: nat

    ghost predicate Valid()
      reads this, sm
    {
      sm.state == Current(trace)
    }

    constructor ()
      ensures Valid() && trace == [] && fresh(sm)
    {
      sm := new Machine();
      trace, budget := [], 0;
    }

    /** sm.transition, unless the exception strikes first. */
    method Transition(to: EngineState) returns (alive: bool)
      requires Valid()
      modifies this, sm
      ensures Valid() && alive == (old(budget) > 0)
      ensures trace == if alive then Go(old(trace), to) else old(trace)
      ensures budget == if alive then old(budget) - 1 else 0
    {
      alive := budget > 0;
      if alive {
        var accepted := sm.Transition(to);
        trace, budget := trace + [Call(to, accepted)], budget - 1;
      }
    }

    method Observe(e: Event) returns (alive: bool)
      requires Valid() && (e.Executor? || e.Probe?)
      modifies this
      ensures Valid() && alive == (old(budget) > 0)
      ensures trace == if alive then old(trace) + [e] else old(trace)
      ensures budget == if alive then old(budget) - 1 else 0
    {
      alive := budget > 0;
      if alive {
        trace, budget := trace + [e], budget - 1;
        assert trace[..|trace| - 1] == old(trace);
      }
    }

    method Diagnose(env: Env) returns (alive: bool)
      requires Valid()
      modifies this, sm
      ensures Valid() && Progressed(old(trace), Diagnosed(old(trace), env), old(budget), alive)
    {
      alive := Transition(DIAGNOSING);
      if !alive { return; }
      if !env.geoOk || env.captive || env.healthy {
        alive := Transition(RESELECTING);
      } else {
        alive := Transition(DIAGNOSIS_READY);
      }
    }

    /** The trace is `full`, or the part of it before the exception; `n` events were allowed. */
    ghost predicate Progressed(t: Trace, full: Trace, n: nat, alive: bool)
      reads this
    {
      && |full| >= |t|
      && alive == (n >= |full| - |t|)
      && trace == (if alive then full else full[..|t| + n])
      && budget == if alive then n - (|full| - |t|) else 0
    }

    method SelectAndConnect(env: Env, rules: RuleEngine) returns (alive: bool)
      requires Valid()
      modifies this, sm
      ensures Valid() && Progressed(old(trace), Selected(old(trace), env), old(budget), alive)
    {
      ghost var t, n, full := trace, budget, Selected(trace, env);
      assert full == Proceeded(Go(t, SELECTING), false, env.executorOk) && |full| == |t| + 4;
      alive := Transition(SELECTING);
      if !alive {
        assert full[..|t| + n] == t;
        return;
      }
      var diagnoses := rules.Evaluate(env.states);
      alive := Proceed(diagnoses, env.executorOk);
    }

    method Proceed(diagnoses: seq<Diagnosis>, executorOk: bool) returns (alive: bool)
      requires Valid()
      modifies this, sm
      ensures Valid() && Progressed(old(trace), Proceeded(old(trace), diagnoses == [], executorOk), old(budget), alive)
    {
      if diagnoses == [] {
        alive := Transition(DEGRADED);
        return;
      }
      alive := Transition(STARTING);
      if !alive { return; }
      alive := Observe(Executor(executorOk));
      if !alive { return; }
      alive := Transition(if executorOk then VERIFYING else DEGRADED);
    }

    method Verify(env: Env) returns (alive: bool)
      requires Valid()
      modifies this, sm
      ensures Valid() && Progressed(old(trace), Verified(old(trace), env), old(budget), alive)
    {
      alive := Observe(Probe(env.probeOk));
      if !alive { return; }
      if env.probeOk {
        alive := Transition(ACTIVE);
      } else {
        alive := Transition(DEGRADED);
      }
    }

    method LoopBody(env: Env, rules: RuleEngine) returns (alive: bool)
      requires Valid()
      modifies this, sm
      ensures Valid() && Progressed(old(trace), Body(old(trace), env), old(budget), alive)
    {
      alive := true;
      var current := sm.state;
      if current == BASELINE || current == RESELECTING {
        alive := Diagnose(env);
      } else if current == DIAGNOSIS_READY {
        alive := SelectAndConnect(env, rules);
      } else if current == STARTING {
      } else if current == VERIFYING {
        alive := Verify(env);
      } else if current == ACTIVE {
        alive := Transition(MONITORING);
      } else if current == MONITORING {
        alive := Observe(Probe(env.probeOk));
        if alive && !env.probeOk { alive := Transition(DEGRADED); }
      } else {
        alive := Transition(RESELECTING);
      }
    }

    /** The body of the loop up to an exception, which may strike at its very end. */
    method Guarded(env: Env, rules: RuleEngine) returns (raised: bool)
      requires Valid()
      modifies this, sm
      ensures Valid() && raised == Raises(old(trace), env)
      ensures var full := Body(old(trace), env);
        |full| >= |old(trace)| && trace == if raised then full[..|old(trace)| + env.budget] else full
    {
      ghost var full := Body(trace, env);
      budget := env.budget;
      var alive := LoopBody(env, rules);
      raised := !alive || budget == 0;
      assert full[..|full|] == full;
    }

    /** One pass of the loop with its handler and, when the handler fails too, the watchdog. */
    method Iteration(env: Env, rules: RuleEngine)
      requires Valid()
      modifies this, sm
      ensures Valid() && trace == Iterate(old(trace), env)
    {
      var raised := Guarded(env, rules);
      if raised {
        Handle(env.escapes, env.early);
      }
    }

    method Handle(escapes: nat, early: bool)
      requires Valid()
      modifies this, sm
      ensures Valid() && trace == Handled(old(trace), escapes, early)
    {
      if escapes == 0 || !early {
        sm.state := DEGRADED;
        trace := trace + [Write(DEGRADED)];
      }
      if escapes > 0 {
        Restart(escapes);
      }
    }

    /** The watchdog's writes and the re-entered run. */
    method Restart(escapes: nat)
      requires Valid()
      modifies this, sm
      ensures Valid() && trace == Go(Watchdog(old(trace), escapes), BASELINE)
    {
      for i := 0 to escapes
        invariant Valid() && trace == Watchdog(old(trace), i)
      {
        sm.state := RESELECTING;
        trace := trace + [Write(RESELECTING)];
      }
      budget := 1;
      var _ := Transition(BASELINE);
    }

    /** Any finite part of the endless run. */
    method RunFor(escapes: nat, envs: seq<Env>, rules: RuleEngine)
      requires Valid() && trace == []
      modifies this, sm
      ensures Valid() && trace == Run(escapes, envs)
    {
      Restart(escapes);
      for i := 0 to |envs|
        invariant Valid() && trace == Run(escapes, envs[..i])
      {
        assert envs[..i + 1][..i] == envs[..i];
        assert Run(escapes, envs[..i + 1]) == Iterate(Run(escapes, envs[..i]), envs[i]);
        Iteration(envs[i], rules);
      }
      assert envs[..|envs|] == envs;
    }
  }

  const HEADS: set<EngineState> :=
    {BASELINE, RESELECTING, DIAGNOSIS_READY, VERIFYING, ACTIVE, MONITORING, DEGRADED}

  const DIAGNOSED: Trace := [Call(DIAGNOSING, true), Call(DIAGNOSIS_READY, true)]
  const CONNECTED: Trace :=
    DIAGNOSED + [Call(SELECTING, true), Call(STARTING, true), Executor(true), Call(VERIFYING, true)]
  const ACTIVATED: Trace := CONNECTED + [Probe(true)]

  predicate EndsWith(t: Trace, suffix: Trace) {
    |suffix| <= |t| && t[|t| - |suffix|..] == suffix
  }

  /** What may be recorded after `t`. A call is answered as the table says; a refusal happens only where a run re-enters
      after the watchdog; ACTIVE is entered only right after a complete diagnosis, a successful executor and a
      successful probe. */
  predicate Lawful(t: Trace, e: Event) {
    match e
    case Call(to, accepted) =>
      accepted == (to in Allowed(Current(t)))
      && (!accepted ==> to == BASELINE && EndsWith(t, [Write(RESELECTING)]))
      && (to == ACTIVE ==> EndsWith(t, ACTIVATED))
    case Write(to) => to in {DEGRADED, RESELECTING}
    case _ => true
  }

  ghost predicate AllLawful(t: Trace) {
    forall i | 0 <= i < |t| :: Lawful(t[..i], t[i])
  }

  /** The invariant at the head of the loop. */
  predicate AtHead(t: Trace) {
    && Current(t) in HEADS
    && (Current(t) == DIAGNOSIS_READY ==> EndsWith(t, DIAGNOSED))
    && (Current(t) == VERIFYING ==> EndsWith(t, CONNECTED))
  }

  lemma LawfulSnoc(t: Trace, e: Event)
    requires AllLawful(t) && Lawful(t, e)
    ensures AllLawful(t + [e])
  {
    var u := t + [e];
    forall i | 0 <= i < |u| ensures Lawful(u[..i], u[i]) {
      assert u[..i] == if i < |t| then t[..i] else t;
    }
  }

  lemma LawfulPrefix(t: Trace, n: nat)
    requires AllLawful(t) && n <= |t|
    ensures AllLawful(t[..n])
  {
    assert forall i | 0 <= i < n :: t[..n][..i] == t[..i];
  }

  /** An accepted call, other than into ACTIVE, is always lawful. */
  lemma GoLawful(t: Trace, to: EngineState)
    requires AllLawful(t) && to in Allowed(Current(t)) && (to == ACTIVE ==> EndsWith(t, ACTIVATED))
    ensures AllLawful(Go(t, to)) && Go(t, to) == t + [Call(to, true)] && Current(Go(t, to)) == to
  {
    LawfulSnoc(t, Call(to, true));
  }

  lemma ObserveLawful(t: Trace, e: Event)
    requires AllLawful(t) && (e.Executor? || e.Probe?)
    ensures AllLawful(t + [e]) && Current(t + [e]) == Current(t)
  {
    LawfulSnoc(t, e);
    assert (t + [e])[..|t|] == t;
  }

  lemma DiagnosedKeeps(t: Trace, env: Env)
    requires AllLawful(t) && Current(t) in {BASELINE, RESELECTING}
    ensures AllLawful(Diagnosed(t, env)) && AtHead(Diagnosed(t, env))
  {
    GoLawful(t, DIAGNOSING);
    var t1 := Go(t, DIAGNOSING);
    GoLawful(t1, if !env.geoOk || env.captive || env.healthy then RESELECTING else DIAGNOSIS_READY);
  }

  lemma ConnectedEnds(t: Trace)
    requires EndsWith(t, DIAGNOSED)
    ensures var u := t + [Call(SELECTING, true)] + [Call(STARTING, true), Executor(true), Call(VERIFYING, true)];
      EndsWith(u, CONNECTED)
  {
    var u := t + [Call(SELECTING, true)] + [Call(STARTING, true), Executor(true), Call(VERIFYING, true)];
    assert u[|u| - 6..]
        == t[|t| - 2..] + [Call(SELECTING, true), Call(STARTING, true), Executor(true), Call(VERIFYING, true)];
  }

  lemma {:induction false} SelectedKeeps(t: Trace, env: Env)
    requires AllLawful(t) && Current(t) == DIAGNOSIS_READY && EndsWith(t, DIAGNOSED)
    ensures AllLawful(Selected(t, env)) && AtHead(Selected(t, env))
  {
    GoLawful(t, SELECTING);
    ProceededKeeps(t + [Call(SELECTING, true)], env.executorOk);
    ConnectedEnds(t);
  }

  lemma ProceededKeeps(t: Trace, ok: bool)
    requires AllLawful(t) && Current(t) == SELECTING
    ensures AllLawful(Proceeded(t, false, ok))
    ensures Current(Proceeded(t, false, ok)) == if ok then VERIFYING else DEGRADED
    ensures ok ==> Proceeded(t, false, ok) == t + [Call(STARTING, true), Executor(true), Call(VERIFYING, true)]
  {
    GoLawful(t, STARTING);
    var t2 := t + [Call(STARTING, true)];
    ObserveLawful(t2, Executor(ok));
    GoLawful(t2 + [Executor(ok)], if ok then VERIFYING else DEGRADED);
  }

  lemma VerifiedKeeps(t: Trace, env: Env)
    requires AllLawful(t) && Current(t) == VERIFYING && EndsWith(t, CONNECTED)
    ensures AllLawful(Verified(t, env)) && AtHead(Verified(t, env))
  {
    ObserveLawful(t, Probe(env.probeOk));
    var t1 := t + [Probe(env.probeOk)];
    if env.probeOk {
      assert t1[|t1| - 7..] == ACTIVATED;
    }
    GoLawful(t1, if env.probeOk then ACTIVE else DEGRADED);
  }

  lemma MonitoredKeeps(t: Trace, ok: bool)
    requires AllLawful(t) && Current(t) == MONITORING
    ensures var u := if ok then t + [Probe(true)] else Go(t + [Probe(false)], DEGRADED); AllLawful(u) && AtHead(u)
  {
    ObserveLawful(t, Probe(ok));
    if !ok {
      GoLawful(t + [Probe(false)], DEGRADED);
    }
  }

  lemma MovedOn(t: Trace, to: EngineState)
    requires AllLawful(t) && to in Allowed(Current(t)) && to in {MONITORING, RESELECTING}
    ensures AllLawful(Go(t, to)) && AtHead(Go(t, to))
  {
    GoLawful(t, to);
  }

  lemma BodyKeeps(t: Trace, env: Env)
    requires AllLawful(t) && AtHead(t)
    ensures AllLawful(Body(t, env)) && AtHead(Body(t, env))
  {
    match Current(t)
    case BASELINE => DiagnosedKeeps(t, env);
    case RESELECTING => DiagnosedKeeps(t, env);
    case DIAGNOSIS_READY => SelectedKeeps(t, env);
    case VERIFYING => VerifiedKeeps(t, env);
    case ACTIVE => MovedOn(t, MONITORING);
    case MONITORING => MonitoredKeeps(t, env.probeOk);
    case DEGRADED => MovedOn(t, RESELECTING);
  }

  lemma {:induction false} WatchdogLawful(t: Trace, escapes: nat)
    requires AllLawful(t)
    ensures AllLawful(Watchdog(t, escapes))
    ensures escapes > 0 ==> EndsWith(Watchdog(t, escapes), [Write(RESELECTING)])
  {
    if escapes > 0 {
      WatchdogLawful(t, escapes - 1);
      LawfulSnoc(Watchdog(t, escapes - 1), Write(RESELECTING));
    }
  }

  lemma ReentryLawful(t: Trace, escapes: nat)
    requires AllLawful(t) && (escapes == 0 ==> t == [])
    ensures var u := Go(Watchdog(t, escapes), BASELINE);
      AllLawful(u) && Current(u) == if escapes == 0 then BASELINE else DEGRADED
  {
    WatchdogLawful(t, escapes);
    var u := Watchdog(t, escapes);
    LawfulSnoc(u, Call(BASELINE, BASELINE in Allowed(Current(u))));
  }

  lemma HandledKeeps(t: Trace, escapes: nat, early: bool)
    requires AllLawful(t)
    ensures var u := Handled(t, escapes, early); AllLawful(u) && AtHead(u) && Current(u) == DEGRADED
  {
    LawfulSnoc(t, Write(DEGRADED));
    if escapes > 0 {
      ReentryLawful(if early then t else t + [Write(DEGRADED)], escapes);
    }
  }

  lemma IterateKeeps(t: Trace, env: Env)
    requires AllLawful(t) && AtHead(t)
    ensures AllLawful(Iterate(t, env)) && AtHead(Iterate(t, env))
    ensures Raises(t, env) ==> Current(Iterate(t, env)) == DEGRADED
  {
    BodyKeeps(t, env);
    if Raises(t, env) {
      LawfulPrefix(Body(t, env), |t| + env.budget);
      HandledKeeps(Body(t, env)[..|t| + env.budget], env.escapes, env.early);
    }
  }

  /** In every run, with any environment, every recorded event is lawful and the loop head is one of seven states:
      the sleep in STARTING and the unknown-state branch are dead code. */
  lemma {:induction false} RunLawful(escapes: nat, envs: seq<Env>)
    ensures AllLawful(Run(escapes, envs)) && AtHead(Run(escapes, envs))
  {
    if envs == [] {
      ReentryLawful([], escapes);
    } else {
      RunLawful(escapes, envs[..|envs| - 1]);
      IterateKeeps(Run(escapes, envs[..|envs| - 1]), envs[|envs| - 1]);
    }
  }

  /** The events of an undisturbed iteration, from each state it can start in. */
  function Events(state: EngineState, env: Env): Trace {
    match state
    case BASELINE => DiagnosisEvents(env.geoOk && !env.captive && !env.healthy)
    case RESELECTING => DiagnosisEvents(env.geoOk && !env.captive && !env.healthy)
    case DIAGNOSIS_READY =>
      [Call(SELECTING, true), Call(STARTING, true), Executor(env.executorOk),
       Call(if env.executorOk then VERIFYING else DEGRADED, true)]
    case VERIFYING => [Probe(env.probeOk), Call(if env.probeOk then ACTIVE else DEGRADED, true)]
    case ACTIVE => [Call(MONITORING, true)]
    case MONITORING => if env.probeOk then [Probe(true)] else [Probe(false), Call(DEGRADED, true)]
    case _ => [Call(RESELECTING, true)]
  }

  function DiagnosisEvents(blocked: bool): Trace {
    [Call(DIAGNOSING, true), Call(if blocked then DIAGNOSIS_READY else RESELECTING, true)]
  }

  /** The events after an exception: the handler's write, and the writes and the refused restart of the watchdog. */
  function RecoveryEvents(escapes: nat, early: bool): Trace {
    if escapes == 0 then [Write(DEGRADED)]
    else (if early then [] else [Write(DEGRADED)]) + seq(escapes, _ => Write(RESELECTING)) + [Call(BASELINE, false)]
  }

  function IterationEvents(state: EngineState, env: Env): Trace {
    var full := Events(state, env);
    if env.budget > |full| then full else full[..env.budget] + RecoveryEvents(env.escapes, env.early)
  }

  lemma DiagnosedIs(t: Trace, env: Env)
    requires AllLawful(t) && Current(t) in {BASELINE, RESELECTING}
    ensures Diagnosed(t, env) == t + DiagnosisEvents(env.geoOk && !env.captive && !env.healthy)
  {
    GoLawful(t, DIAGNOSING);
    GoLawful(t + [Call(DIAGNOSING, true)], RESELECTING);
    GoLawful(t + [Call(DIAGNOSING, true)], DIAGNOSIS_READY);
  }

  lemma {:induction false} SelectedIs(t: Trace, env: Env)
    requires AllLawful(t) && Current(t) == DIAGNOSIS_READY
    ensures Selected(t, env) == t + Events(DIAGNOSIS_READY, env)
  {
    GoLawful(t, SELECTING);
    var t1 := t + [Call(SELECTING, true)];
    ProceededIs(t1, env.executorOk);
    var to := if env.executorOk then VERIFYING else DEGRADED;
    OneThenThree(t, Call(SELECTING, true), Call(STARTING, true), Executor(env.executorOk), Call(to, true));
  }

  lemma {:induction false} ProceededIs(t: Trace, ok: bool)
    requires AllLawful(t) && Current(t) == SELECTING
    ensures Proceeded(t, false, ok)
         == t + [Call(STARTING, true), Executor(ok), Call(if ok then VERIFYING else DEGRADED, true)]
  {
    GoLawful(t, STARTING);
    var t1, to := t + [Call(STARTING, true)], if ok then VERIFYING else DEGRADED;
    ObserveLawful(t1, Executor(ok));
    GoLawful(t1 + [Executor(ok)], to);
    ThreeMore(t, Call(STARTING, true), Executor(ok), Call(to, true));
  }

  lemma VerifiedIs(t: Trace, env: Env)
    requires AllLawful(t) && Current(t) == VERIFYING
    ensures Verified(t, env) == t + Events(VERIFYING, env)
  {
    ObserveLawful(t, Probe(env.probeOk));
    Regroup(t, [Probe(env.probeOk)], [Call(if env.probeOk then ACTIVE else DEGRADED, true)]);
  }

  lemma MonitoredIs(t: Trace)
    requires AllLawful(t) && Current(t) == MONITORING
    ensures Go(t + [Probe(false)], DEGRADED) == t + [Probe(false), Call(DEGRADED, true)]
  {
    ObserveLawful(t, Probe(false));
    Regroup(t, [Probe(false)], [Call(DEGRADED, true)]);
  }

  lemma BodyIs(t: Trace, env: Env)
    requires AllLawful(t) && AtHead(t)
    ensures Body(t, env) == t + Events(Current(t), env)
  {
    match Current(t)
    case BASELINE => DiagnosedIs(t, env);
    case RESELECTING => DiagnosedIs(t, env);
    case DIAGNOSIS_READY => SelectedIs(t, env);
    case VERIFYING => VerifiedIs(t, env);
    case ACTIVE =>
    case MONITORING => MonitoredIs(t);
    case DEGRADED =>
  }

  lemma {:induction false} WatchdogIs(t: Trace, escapes: nat)
    ensures Watchdog(t, escapes) == t + seq(escapes, _ => Write(RESELECTING))
  {
    if escapes > 0 {
      WatchdogIs(t, escapes - 1);
      assert seq(escapes, _ => Write(RESELECTING)) == seq(escapes - 1, _ => Write(RESELECTING)) + [Write(RESELECTING)];
    } else {
      assert t + [] == t;
    }
  }

  lemma HandledIs(t: Trace, escapes: nat, early: bool)
    ensures Handled(t, escapes, early) == t + RecoveryEvents(escapes, early)
  {
    if escapes > 0 {
      var t1, writes := if early then t else t + [Write(DEGRADED)], seq(escapes, _ => Write(RESELECTING));
      WatchdogIs(t1, escapes);
      assert writes[escapes - 1] == Write(RESELECTING);
      assert Go(t1 + writes, BASELINE) == t1 + writes + [Call(BASELINE, false)];
    }
  }

  /** An exception after the first events of a body. */
  lemma RaisedIs(t: Trace, full: Trace, env: Env)
    requires env.budget <= |full|
    ensures Handled((t + full)[..|t| + env.budget], env.escapes, env.early)
         == t + (full[..env.budget] + RecoveryEvents(env.escapes, env.early))
  {
    var done := full[..env.budget];
    assert (t + full)[..|t| + env.budget] == t + done;
    HandledIs(t + done, env.escapes, env.early);
    Regroup(t, done, RecoveryEvents(env.escapes, env.early));
  }

  lemma RaisesIff(t: Trace, env: Env)
    requires AllLawful(t) && AtHead(t)
    ensures Raises(t, env) <==> env.budget <= |Events(Current(t), env)|
  {
    BodyIs(t, env);
    assert |t + Events(Current(t), env)| == |t| + |Events(Current(t), env)|;
  }

  /** One iteration from a loop head, event by event. */
  lemma {:induction false} IterateIs(t: Trace, env: Env)
    requires AllLawful(t) && AtHead(t)
    ensures Iterate(t, env) == t + IterationEvents(Current(t), env)
  {
    BodyIs(t, env);
    RaisesIff(t, env);
    if Raises(t, env) {
      RaisedIs(t, Events(Current(t), env), env);
    }
  }

  lemma StartIs(escapes: nat)
    ensures Start(escapes) == seq(escapes, _ => Write(RESELECTING)) + [Call(BASELINE, escapes == 0)]
  {
    WatchdogIs([], escapes);
    var writes: Trace := seq(escapes, _ => Write(RESELECTING));
    assert [] + writes == writes;
    assert escapes > 0 ==> writes[escapes - 1] == Write(RESELECTING);
  }

  /** A run is the watchdog's writes, the request for BASELINE, which is refused after a write, and then iteration after
      iteration the events that its starting state and its environment determine. */
  lemma {:induction false} RunIs(escapes: nat, envs: seq<Env>, i: nat)
    requires i < |envs|
    ensures Run(escapes, []) == seq(escapes, _ => Write(RESELECTING)) + [Call(BASELINE, escapes == 0)]
    ensures var t := Run(escapes, envs[..i]);
      Run(escapes, envs[..i + 1]) == t + IterationEvents(Current(t), envs[i])
  {
    StartIs(escapes);
    var t := Run(escapes, envs[..i]);
    RunLawful(escapes, envs[..i]);
    IterateIs(t, envs[i]);
    AfterStep(Start(escapes), envs, i);
  }

  lemma {:induction false} AfterStep(t: Trace, envs: seq<Env>, i: nat)
    requires i < |envs|
    ensures After(t, envs[..i + 1]) == Iterate(After(t, envs[..i]), envs[i])
  {
    assert envs[..i + 1][..i] == envs[..i];
  }

  lemma CurrentAfter(t: Trace, blocked: bool)
    ensures Current(t + DiagnosisEvents(blocked)) == if blocked then DIAGNOSIS_READY else RESELECTING
  {
  }

  lemma Undisturbed(state: EngineState, env: Env)
    requires env.budget > if state in {BASELINE, RESELECTING} then 2 else 4
    ensures IterationEvents(state, env) == Events(state, env)
  {
  }

  /** In every run, a diagnosis that nothing interrupts selects a strategy exactly when the location check passes, no
      captive portal is found and direct access fails; otherwise the engine reselects. */
  lemma {:induction false} DiagnosisIff(escapes: nat, envs: seq<Env>, i: nat)
    requires i < |envs| && Current(Run(escapes, envs[..i])) in {BASELINE, RESELECTING} && envs[i].budget > 2
    ensures Current(Run(escapes, envs[..i + 1]))
         == if envs[i].geoOk && !envs[i].captive && !envs[i].healthy then DIAGNOSIS_READY else RESELECTING
  {
    var t, env := Run(escapes, envs[..i]), envs[i];
    RunIs(escapes, envs, i);
    Undisturbed(Current(t), env);
    CurrentAfter(t, env.geoOk && !env.captive && !env.healthy);
  }

  /** In every run, the iteration after such a diagnosis calls the executor when nothing raises. */
  lemma {:induction false} ExecutorCalled(escapes: nat, envs: seq<Env>, i: nat)
    requires i + 1 < |envs| && Current(Run(escapes, envs[..i])) in {BASELINE, RESELECTING} && envs[i].budget > 2
    requires envs[i].geoOk && !envs[i].captive && !envs[i].healthy && envs[i + 1].budget > 4
    ensures var ok := envs[i + 1].executorOk;
      Run(escapes, envs[..i + 2])
      == Run(escapes, envs[..i + 1]) + [Call(SELECTING, true), Call(STARTING, true), Executor(ok),
                                        Call(if ok then VERIFYING else DEGRADED, true)]
  {
    DiagnosisIff(escapes, envs, i);
    RunIs(escapes, envs, i + 1);
    Undisturbed(DIAGNOSIS_READY, envs[i + 1]);
  }

  /** ACTIVE is entered only by an accepted transition that completes the seven-event sequence. */
  lemma ActiveProvenance(escapes: nat, envs: seq<Env>, i: nat)
    requires var t := Run(escapes, envs); i < |t| && t[i] in {Call(ACTIVE, true), Call(ACTIVE, false), Write(ACTIVE)}
    ensures var t := Run(escapes, envs); i >= 7 && t[i - 7..i + 1] == ACTIVATED + [Call(ACTIVE, true)]
  {
    RunLawful(escapes, envs);
    ActiveFollows(Run(escapes, envs), i);
  }

  lemma ActiveFollows(t: Trace, i: nat)
    requires AllLawful(t) && i < |t| && t[i] in {Call(ACTIVE, true), Call(ACTIVE, false), Write(ACTIVE)}
    ensures i >= 7 && t[i - 7..i + 1] == ACTIVATED + [Call(ACTIVE, true)]
  {
    assert Lawful(t[..i], t[i]) && t[i] == Call(ACTIVE, true);
    assert t[i - 7..i + 1] == t[..i][i - 7..] + [t[i]];
  }

  /** In every run a requested transition is refused exactly when it is BASELINE right after the watchdog's write: every
      restart after a crash is refused, and nothing else is. */
  lemma OnlyReentryRefused(escapes: nat, envs: seq<Env>, i: nat)
    requires var t := Run(escapes, envs); i < |t| && t[i].Call?
    ensures var t := Run(escapes, envs);
      !t[i].accepted <==> t[i].to == BASELINE && i > 0 && t[i - 1] == Write(RESELECTING)
  {
    RunLawful(escapes, envs);
    var t := Run(escapes, envs);
    assert Lawful(t[..i], t[i]);
    if i > 0 {
      assert t[..i][i - 1..] == [t[i - 1]] && t[..i][|t[..i]| - 1] == t[i - 1];
    }
  }

  /** A run that crashes once before its first transition is refused BASELINE and starts in DEGRADED. */
  lemma RestartRefused()
    ensures Run(1, []) == [Write(RESELECTING), Call(BASELINE, false)] && Current(Run(1, [])) == DEGRADED
  {
    assert Watchdog([], 1) == Watchdog([], 0) + [Write(RESELECTING)] == [Write(RESELECTING)];
    assert Current([Write(RESELECTING)]) == RESELECTING;
  }

  /** How many iterations separate a loop head from the next diagnosis, at most. */
  function Distance(s: EngineState): nat {
    match s
    case DIAGNOSIS_READY => 5
    case VERIFYING => 4
    case ACTIVE => 3
    case MONITORING => 2
    case DEGRADED => 1
    case _ => 0
  }

  /** An iteration that neither diagnoses nor finds a working connection healthy. */
  predicate Recovering(t: Trace, env: Env) {
    Current(t) !in {BASELINE, RESELECTING} && !(Current(t) == MONITORING && env.probeOk && !Raises(t, env))
  }

  lemma SelectedTarget(t: Trace, env: Env)
    requires Current(t) == DIAGNOSIS_READY && AllLawful(t) && EndsWith(t, DIAGNOSED)
    ensures Current(Selected(t, env)) == if env.executorOk then VERIFYING else DEGRADED
  {
    GoLawful(t, SELECTING);
    ProceededKeeps(t + [Call(SELECTING, true)], env.executorOk);
  }

  lemma VerifiedTarget(t: Trace, env: Env)
    requires Current(t) == VERIFYING
    ensures Current(Verified(t, env)) == if env.probeOk then ACTIVE else DEGRADED
  {
    assert (t + [Probe(env.probeOk)])[..|t|] == t;
    assert Current(t + [Probe(env.probeOk)]) == VERIFYING;
  }

  lemma MonitoredTarget(t: Trace)
    requires Current(t) == MONITORING
    ensures Current(Go(t + [Probe(false)], DEGRADED)) == DEGRADED
  {
    assert (t + [Probe(false)])[..|t|] == t;
    assert Current(t + [Probe(false)]) == MONITORING;
  }

  /** Where a body that neither raises nor diagnoses leads. */
  lemma BodyTarget(t: Trace, env: Env)
    requires AllLawful(t) && AtHead(t) && Current(t) !in {BASELINE, RESELECTING}
    ensures Current(Body(t, env)) == match Current(t)
              case DIAGNOSIS_READY => if env.executorOk then VERIFYING else DEGRADED
              case VERIFYING => if env.probeOk then ACTIVE else DEGRADED
              case ACTIVE => MONITORING
              case MONITORING => if env.probeOk then MONITORING else DEGRADED
              case _ => RESELECTING
  {
    if Current(t) == DIAGNOSIS_READY {
      SelectedTarget(t, env);
    } else if Current(t) == VERIFYING {
      VerifiedTarget(t, env);
    } else if Current(t) == MONITORING {
      MonitoredTarget(t);
      assert (t + [Probe(true)])[..|t|] == t;
    }
  }

  /** Such an iteration comes closer to the next diagnosis unless it is the DEGRADED branch itself that raises. */
  lemma DistanceDecreasesIff(t: Trace, env: Env)
    requires AllLawful(t) && AtHead(t) && Recovering(t, env)
    ensures Distance(Current(Iterate(t, env))) < Distance(Current(t)) <==> !(Current(t) == DEGRADED && Raises(t, env))
  {
    if Raises(t, env) {
      IterateKeeps(t, env);
    } else {
      BodyTarget(t, env);
    }
  }

  ghost predicate AllProgress(t: Trace, envs: seq<Env>) {
    forall i | 0 <= i < |envs| ::
      var u := After(t, envs[..i]);
      Recovering(u, envs[i]) && !(Current(u) == DEGRADED && Raises(u, envs[i]))
  }

  /** From any loop head of any run, a diagnosis or a healthy check comes after at most five iterations, not counting
      failures of the DEGRADED branch. */
  lemma {:induction false} RecoveryBounded(t: Trace, envs: seq<Env>)
    requires AllLawful(t) && AtHead(t) && AllProgress(t, envs)
    ensures |envs| + Distance(Current(After(t, envs))) <= Distance(Current(t)) <= 5
    ensures AllLawful(After(t, envs)) && AtHead(After(t, envs))
  {
    if envs != [] {
      var n := |envs| - 1;
      var before := envs[..n];
      ProgressBefore(t, envs, n);
      RecoveryBounded(t, before);
      DistanceDecreasesIff(After(t, before), envs[n]);
      IterateKeeps(After(t, before), envs[n]);
    }
  }

  lemma ProgressBefore(t: Trace, envs: seq<Env>, n: nat)
    requires AllProgress(t, envs) && n < |envs|
    ensures AllProgress(t, envs[..n])
    ensures var u := After(t, envs[..n]); Recovering(u, envs[n]) && !(Current(u) == DEGRADED && Raises(u, envs[n]))
  {
    assert forall i | 0 <= i < n :: envs[..n][..i] == envs[..i];
  }
}
