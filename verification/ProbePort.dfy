/** The engine's health probe over whole runs: the engine loop composed with the executor and the session's ports
    (bypsseng/engine/orchestrator.py, BypssEng.py). */
module ProbePort {
  import opened Text
  import opened StateMachine
  import opened Connection
  import opened Orchestrator
  import Executor

  /** What the executor tries when an iteration of the loop calls it. */
  datatype Attempts = Attempts(es: seq<Executor.Scored>, condition: string, plans: seq<Plan>)

  predicate Enough(a: Attempts) { |a.plans| >= |a.es| }

  function Outcome(w: World, a: Attempts): Executor.Progress
    requires Enough(a)
  {
    Executor.Tries(Executor.CONNECT, w, a.es, a.condition, a.plans, |a.es|)
  }

  /** One iteration after trace `t` leads from world `w` to `v`. An iteration that selects runs the executor, and the
      verifying probe, made through port `probe`, can pass only if that is the session's HTTP port. */
  ghost predicate Iterates(probe: Port, t: Trace, env: Env, a: Attempts, w: World, v: World) {
    && WellNumbered(v)
    && (Current(t) == DIAGNOSIS_READY && !Raises(t, env) ==>
          Enough(a) && v == Outcome(w, a).world && env.executorOk == Outcome(w, a).selected.Some?)
    && (Current(t) == VERIFYING && env.probeOk ==> w.http == Some(probe))
  }

  /** An iteration: its environment, the executor's attempts, and the trace and the world before it. */
  datatype Cycle = Cycle(env: Env, tries: Attempts, before: Trace, world: World)

  ghost predicate Follows(probe: Port, c: Cycle, d: Cycle) {
    d.before == Iterate(c.before, c.env) && Iterates(probe, c.before, c.env, c.tries, c.world, d.world)
  }

  /** A run of the engine without manual connects, from its start. */
  ghost predicate IsEngineRun(probe: Port, escapes: nat, cycles: seq<Cycle>) {
    && cycles != [] && cycles[0].before == Start(escapes) && WellNumbered(cycles[0].world)
    && forall i | 0 <= i < |cycles| - 1 :: Follows(probe, cycles[i], cycles[i + 1])
  }

  function Envs(cycles: seq<Cycle>): (r: seq<Env>)
    ensures |r| == |cycles|
  {
    seq(|cycles|, i requires 0 <= i < |cycles| => cycles[i].env)
  }

  /** Such a run is a run of the engine loop. */
  lemma {:induction false} TraceIs(probe: Port, escapes: nat, cycles: seq<Cycle>, i: nat)
    requires IsEngineRun(probe, escapes, cycles) && i < |cycles|
    ensures cycles[i].before == Run(escapes, Envs(cycles[..i]))
  {
    if i > 0 {
      TraceIs(probe, escapes, cycles, i - 1);
      assert Follows(probe, cycles[i - 1], cycles[i]);
      assert Envs(cycles[..i])[..i - 1] == Envs(cycles[..i - 1]);
    }
  }

  lemma {:induction false} CyclesKeep(probe: Port, escapes: nat, cycles: seq<Cycle>, i: nat)
    requires IsEngineRun(probe, escapes, cycles) && i < |cycles|
    ensures AllLawful(cycles[i].before) && AtHead(cycles[i].before) && WellNumbered(cycles[i].world)
    ensures i == 0 ==> Current(cycles[i].before) in {BASELINE, DEGRADED}
  {
    if i == 0 {
      ReentryLawful([], escapes);
    } else {
      CyclesKeep(probe, escapes, cycles, i - 1);
      assert Follows(probe, cycles[i - 1], cycles[i]);
      IterateKeeps(cycles[i - 1].before, cycles[i - 1].env);
    }
  }

  lemma DiagnosedTarget(t: Trace, env: Env)
    requires AllLawful(t) && Current(t) in {BASELINE, RESELECTING}
    ensures Current(Diagnosed(t, env)) in {RESELECTING, DIAGNOSIS_READY}
  {
    GoLawful(t, DIAGNOSING);
    var t1 := t + [Call(DIAGNOSING, true)];
    GoLawful(t1, if !env.geoOk || env.captive || env.healthy then RESELECTING else DIAGNOSIS_READY);
  }

  /** How an iteration can end in VERIFYING or in ACTIVE. */
  lemma CameFrom(t: Trace, env: Env)
    requires AllLawful(t) && AtHead(t)
    ensures Current(Iterate(t, env)) == VERIFYING ==> Current(t) == DIAGNOSIS_READY && !Raises(t, env) && env.executorOk
    ensures Current(Iterate(t, env)) == ACTIVE ==> Current(t) == VERIFYING && !Raises(t, env) && env.probeOk
    ensures Current(Iterate(t, env)) == MONITORING ==> Current(t) in {ACTIVE, MONITORING}
  {
    if Raises(t, env) {
      IterateKeeps(t, env);
    } else if Current(t) in {BASELINE, RESELECTING} {
      DiagnosedTarget(t, env);
    } else {
      BodyTarget(t, env);
    }
  }

  /** The executor connects, on port `port`. */
  predicate ConnectsOn(port: Port, w: World, a: Attempts) {
    && Enough(a)
    && var t := Outcome(w, a);
       t.selected.Some? && 0 < |t.records| <= |a.plans| && a.plans[|t.records| - 1].newHttp == port
  }

  lemma ConnectedPort(w: World, a: Attempts, port: Port)
    requires WellNumbered(w) && Enough(a) && Outcome(w, a).selected.Some? && Outcome(w, a).world.http == Some(port)
    ensures ConnectsOn(port, w, a)
  {
    Executor.ConnectKeepsPortRule();
    Executor.PortsKept(Executor.CONNECT, w, a.es, a.condition, a.plans, |a.es|);
  }

  lemma PassedProbe(probe: Port, c: Cycle, d: Cycle, e: Cycle)
    requires AllLawful(c.before) && AtHead(c.before) && WellNumbered(c.world)
    requires Follows(probe, c, d) && Follows(probe, d, e) && Current(d.before) == VERIFYING && d.env.probeOk
    ensures ConnectsOn(probe, c.world, c.tries)
  {
    CameFrom(c.before, c.env);
    ConnectedPort(c.world, c.tries, probe);
  }

  /** In every run, an iteration that ends in ACTIVE verified a connection that the executor, in the iteration before,
      made on the very port the engine copied at its start. */
  lemma ActiveNeedsProbePort(probe: Port, escapes: nat, cycles: seq<Cycle>, i: nat)
    requires IsEngineRun(probe, escapes, cycles) && i < |cycles| && Current(cycles[i].before) == ACTIVE
    ensures i >= 2 && ConnectsOn(probe, cycles[i - 2].world, cycles[i - 2].tries)
  {
    CyclesKeep(probe, escapes, cycles, i);
    CyclesKeep(probe, escapes, cycles, i - 1);
    assert Follows(probe, cycles[i - 1], cycles[i]);
    CameFrom(cycles[i - 1].before, cycles[i - 1].env);
    CyclesKeep(probe, escapes, cycles, i - 2);
    assert Follows(probe, cycles[i - 2], cycles[i - 1]);
    PassedProbe(probe, cycles[i - 2], cycles[i - 1], cycles[i]);
  }

  lemma NeverOn(port: Port, w: World, a: Attempts)
    requires forall p | p in a.plans :: p.newHttp != port
    ensures !ConnectsOn(port, w, a)
  {
  }

  /** Every attempt of the run gets a port other than `probe`. */
  ghost predicate NewPorts(probe: Port, cycles: seq<Cycle>) {
    forall i, p | 0 <= i < |cycles| && p in cycles[i].tries.plans :: p.newHttp != probe
  }

  lemma NotActive(probe: Port, escapes: nat, cycles: seq<Cycle>, i: nat)
    requires IsEngineRun(probe, escapes, cycles) && i < |cycles| && NewPorts(probe, cycles)
    ensures Current(cycles[i].before) != ACTIVE
  {
    if Current(cycles[i].before) == ACTIVE {
      ActiveNeedsProbePort(probe, escapes, cycles, i);
      NeverOn(probe, cycles[i - 2].world, cycles[i - 2].tries);
      assert false;
    }
  }

  lemma MonitoringFrom(probe: Port, c: Cycle, d: Cycle)
    requires AllLawful(c.before) && AtHead(c.before) && Follows(probe, c, d) && Current(d.before) == MONITORING
    ensures Current(c.before) in {ACTIVE, MONITORING}
  {
    CameFrom(c.before, c.env);
  }

  /** An engine whose attempts always get new ports never stays ACTIVE or monitors, however well they connect. */
  lemma {:induction false} NeverActive(probe: Port, escapes: nat, cycles: seq<Cycle>, i: nat)
    requires IsEngineRun(probe, escapes, cycles) && i < |cycles| && NewPorts(probe, cycles)
    ensures Current(cycles[i].before) !in {ACTIVE, MONITORING}
  {
    NotActive(probe, escapes, cycles, i);
    if i == 0 {
      CyclesKeep(probe, escapes, cycles, i);
    } else if Current(cycles[i].before) == MONITORING {
      CyclesKeep(probe, escapes, cycles, i - 1);
      MonitoringFrom(probe, cycles[i - 1], cycles[i]);
      NeverActive(probe, escapes, cycles, i - 1);
      assert false;
    }
  }
}
