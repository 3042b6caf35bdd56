/** One connection attempt: execute_bypass_and_connect with its rollback, over the tracked processes, the session's
    ports and the system proxy (BypssEng.py, bypsseng/runtime/process.py, bypsseng/infrastructure/runtime_session.py,
    set_system_proxy). */
module Connection {
  import opened Sequences
  import opened Text

  type Port = p: nat | 0 < p witness 1

  /** A spawned process: a handle never used twice, and the command it runs. */
  datatype Proc = Proc(id: nat, command: string)

  /** The system proxy. `server` is None while its address is not one this run wrote. */
  datatype Proxy = Proxy(enabled: bool, server: Option<Port>)

  /** The shared state. `told` holds the processes asked to terminate, `exited` those that ended; `next` is the next
      unused handle; `reserved` the ports held by bound sockets. */
  datatype World = World(active: seq<Proc>, told: set<Proc>, exited: set<Proc>, next: nat, socks: Option<Port>,
                         http: Option<Port>, reserved: seq<Port>, proxy: Proxy)

  datatype Effect =
    | SetupPorts(newSocks: Port, newHttp: Port)
    | ReleaseSockets
    | RestorePorts(oldSocks: Option<Port>, oldHttp: Option<Port>)
    | ForgetProcs
    | Spawn(command: string)
    | Terminate(proc: Proc)
    | WriteFlag(enable: bool)
    | WriteServer(port: Port)

  function Apply(w: World, e: Effect): World {
    match e
    case SetupPorts(s, h) => w.(socks := Some(s), http := Some(h), reserved := [s, h])
    case ReleaseSockets => w.(reserved := [])
    case RestorePorts(s, h) => w.(socks := s, http := h)
    case ForgetProcs => w.(active := [])
    case Spawn(c) => w.(active := w.active + [Proc(w.next, c)], next := w.next + 1)
    case Terminate(p) => if p in w.exited then w else w.(told := w.told + {p})
    case WriteFlag(b) => w.(proxy := w.proxy.(enabled := b))
    case WriteServer(p) => w.(proxy := w.proxy.(server := Some(p)))
  }

  function ApplyAll(w: World, es: seq<Effect>): World {
    if es == [] then w else Apply(ApplyAll(w, es[..|es| - 1]), es[|es| - 1])
  }

  /** How set_system_proxy(True) ends: it succeeds, or raises having written nothing, the flag, or everything. */
  datatype Enabling = Enabled | FailedClean | FailedAfterFlag | FailedAfterServer

  /** One connectivity check. When it passes, the proxy is enabled and the old processes are told to terminate one
      after the other. An exception may strike at one of them, which is then not told, or after the last one, on
      leaving the response; the loop goes on in both cases. */
  datatype Check = Unreachable | Reached(enabling: Enabling, raiseAt: Option<nat>)

  /** The environment's answers during an attempt. `commands` is None when building them raises. */
  datatype Plan = Plan(diagnoseOnly: bool, newSocks: Port, newHttp: Port, hasStrategy: bool, prepared: bool,
                       commands: Option<seq<string>>, spawnFailsAt: Option<nat>, checks: seq<Check>,
                       disableWrites: bool)

  function Terminations(ps: seq<Proc>): (es: seq<Effect>)
    ensures |es| == |ps| && forall i | 0 <= i < |es| :: es[i] == Terminate(ps[i])
  {
    seq(|ps|, i requires 0 <= i < |ps| => Terminate(ps[i]))
  }

  function Spawns(cs: seq<string>): (es: seq<Effect>)
    ensures |es| == |cs| && forall i | 0 <= i < |es| :: es[i] == Spawn(cs[i])
  {
    seq(|cs|, i requires 0 <= i < |cs| => Spawn(cs[i]))
  }

  /** The processes that spawning `cs` creates when the next handle is `next`. */
  function Procs(next: nat, cs: seq<string>): (ps: seq<Proc>)
    ensures |ps| == |cs| && forall i | 0 <= i < |ps| :: ps[i] == Proc(next + i, cs[i])
  {
    seq(|cs|, i requires 0 <= i < |cs| => Proc(next + i, cs[i]))
  }

  function Disabling(plan: Plan): seq<Effect> {
    if plan.diagnoseOnly || !plan.disableWrites then [] else [WriteFlag(false)]
  }

  /** restore_state_on_failure while `tracked` are the active processes; `w` is the world at entry. */
  function Rollback(w: World, plan: Plan, tracked: seq<Proc>): seq<Effect> {
    Terminations(tracked) + [ForgetProcs, RestorePorts(w.socks, w.http)] + Disabling(plan)
  }

  function Writes(e: Enabling, port: Port): seq<Effect> {
    match e
    case Enabled => [WriteFlag(true), WriteServer(port)]
    case FailedClean => []
    case FailedAfterFlag => [WriteFlag(true)]
    case FailedAfterServer => [WriteFlag(true), WriteServer(port)]
  }

  /** The commands whose processes exist when the spawn loop ends, and whether it ended by an exception. */
  function Spawned(plan: Plan): (seq<string>, bool)
    requires plan.commands.Some?
  {
    var cs := plan.commands.value;
    if plan.spawnFailsAt.Some? && plan.spawnFailsAt.value < |cs| then (cs[..plan.spawnFailsAt.value], true)
    else (cs, false)
  }

  /** How a check ends: with the attempt's answer, or with the next check, after a complete switch or without one. */
  datatype Verdict = Answered(ok: bool) | GoesOn(switched: bool)

  /** The position at which an exception interrupts the terminations: |w.active| stands for after the last one. */
  predicate Interrupted(w: World, raiseAt: Option<nat>) {
    raiseAt.Some? && raiseAt.value <= |w.active|
  }

  /** One check: its effects, and how it ends. */
  function CheckStep(w: World, plan: Plan, tracked: seq<Proc>, check: Check): (seq<Effect>, Verdict) {
    match check
    case Unreachable => ([], GoesOn(false))
    case Reached(enabling, raiseAt) =>
      var writes := if plan.diagnoseOnly then [] else Writes(enabling, plan.newHttp);
      if !plan.diagnoseOnly && !enabling.Enabled? then (writes + Rollback(w, plan, tracked), Answered(false))
      else if Interrupted(w, raiseAt) then
        (writes + Terminations(w.active[..raiseAt.value]), GoesOn(raiseAt.value == |w.active|))
      else (writes + Terminations(w.active), Answered(true))
  }

  /** The check loop from position `i`, and the attempt's answer; `switched` is the code's success flag. */
  function Checking(w: World, plan: Plan, tracked: seq<Proc>, i: nat, switched: bool): (seq<Effect>, bool)
    decreases |plan.checks| - i
  {
    if i >= |plan.checks| then if switched then ([], true) else (Rollback(w, plan, tracked), false)
    else match CheckStep(w, plan, tracked, plan.checks[i])
      case (es, Answered(ok)) => (es, ok)
      case (es, GoesOn(now)) =>
        var rest := Checking(w, plan, tracked, i + 1, switched || now);
        (es + rest.0, rest.1)
  }

  /** The spawn loop and the checks. */
  function Launching(w: World, plan: Plan): (seq<Effect>, bool) {
    if plan.commands.None? then (Rollback(w, plan, w.active), false)
    else
      var (cs, failed) := Spawned(plan);
      var tracked := Procs(w.next, cs);
      var tail := if failed then (Rollback(w, plan, tracked), false) else Checking(w, plan, tracked, 0, false);
      ([ForgetProcs] + Spawns(cs) + tail.0, tail.1)
  }

  /** execute_bypass_and_connect from world `w`: its effects in order and its answer. */
  function Attempt(w: World, plan: Plan): (seq<Effect>, bool) {
    var setup := [SetupPorts(plan.newSocks, plan.newHttp)];
    if !plan.hasStrategy || !plan.prepared then (setup + Rollback(w, plan, w.active), false)
    else var tail := Launching(w, plan); (setup + [ReleaseSockets] + tail.0, tail.1)
  }

  function Final(w: World, plan: Plan): World { ApplyAll(w, Attempt(w, plan).0) }

  function Ok(w: World, plan: Plan): bool { Attempt(w, plan).1 }

  lemma ApplySnoc(w: World, es: seq<Effect>, e: Effect)
    ensures ApplyAll(w, es + [e]) == Apply(ApplyAll(w, es), e)
  {
    assert (es + [e])[..|es|] == es;
  }

  lemma {:induction false} ApplyConcat(w: World, a: seq<Effect>, b: seq<Effect>)
    ensures ApplyAll(w, a + b) == ApplyAll(ApplyAll(w, a), b)
  {
    if b == [] {
      assert a + b == a;
    } else {
      var n := |b| - 1;
      assert (a + b)[..|a| + n] == a + b[..n];
      ApplyConcat(w, a, b[..n]);
    }
  }

  /** bypsseng/runtime/process.py, with the processes the operating system has ended. */
  class ProcessManager {
    var active: seq<Proc>
    var told: set<Proc>
    var exited: set<Proc>
    var next: nat

    constructor ()
      ensures active == [] && told == {} && exited == {} && next == 0
    {
      active, told, exited, next := [], {}, {}, 0;
    }

    method Launch(command: string)
      modifies this
      ensures active == old(active) + [Proc(old(next), command)] && next == old(next) + 1
      ensures told == old(told) && exited == old(exited)
    {
      active, next := active + [Proc(next, command)], next + 1;
    }

    method Stop(p: Proc)
      modifies `told
      ensures told == if p in exited then old(told) else old(told) + {p}
    {
      if p !in exited { told := told + {p}; }
    }
  }

  /** bypsseng/infrastructure/runtime_session.py. */
  class RuntimeSession {
    var reserved: seq<Port>
    var socks: Option<Port>
    var http: Option<Port>

    constructor ()
      ensures reserved == [] && socks == None && http == None
    {
      reserved, socks, http := [], None, None;
    }

    method ReleaseReservedPorts()
      modifies this
      ensures reserved == [] && socks == None && http == None
    {
      reserved, socks, http := [], None, None;
    }

    method SetupDynamicPorts(newSocks: Port, newHttp: Port)
      modifies this
      ensures reserved == [newSocks, newHttp] && socks == Some(newSocks) && http == Some(newHttp)
    {
      ReleaseReservedPorts();
      reserved := reserved + [newSocks];
      socks := Some(newSocks);
      reserved := reserved + [newHttp];
      http := Some(newHttp);
    }

    method ReleaseBindingSockets()
      modifies `reserved
      ensures reserved == []
    {
      reserved := [];
    }
  }

  class SystemProxy {
    var proxy: Proxy

    constructor (proxy: Proxy)
      ensures this.proxy == proxy
    {
      this.proxy := proxy;
    }

    /** set_system_proxy(True, port). */
    method Enable(port: Port, enabling: Enabling) returns (ok: bool)
      modifies this
      ensures ok == enabling.Enabled?
      ensures proxy == match enabling
              case FailedClean => old(proxy)
              case FailedAfterFlag => old(proxy).(enabled := true)
              case _ => Proxy(true, Some(port))
    {
      if enabling.FailedClean? { return false; }
      proxy := proxy.(enabled := true);
      if enabling.FailedAfterFlag? { return false; }
      proxy := proxy.(server := Some(port));
      ok := enabling.Enabled?;
    }

    /** set_system_proxy(False). */
    method Disable(writes: bool)
      modifies this
      ensures proxy == if writes then old(proxy).(enabled := false) else old(proxy)
    {
      if writes { proxy := proxy.(enabled := false); }
    }
  }

  class Connector {
    const pm: ProcessManager
    const session: RuntimeSession
    const net: SystemProxy

    constructor (pm: ProcessManager, session: RuntimeSession, net: SystemProxy)
      ensures this.pm == pm && this.session == session && this.net == net
    {
      this.pm, this.session, this.net := pm, session, net;
    }

    function Snapshot(): World
      reads pm, session, net
    {
      World(pm.active, pm.told, pm.exited, pm.next, session.socks, session.http, session.reserved, net.proxy)
    }

    method StopAll(ps: seq<Proc>)
      modifies pm`told
      ensures Snapshot() == ApplyAll(old(Snapshot()), Terminations(ps))
    {
      ghost var es := Terminations(ps);
      for i := 0 to |ps|
        invariant Snapshot() == ApplyAll(old(Snapshot()), es[..i])
      {
        assert es[..i + 1] == es[..i] + [es[i]];
        ApplySnoc(old(Snapshot()), es[..i], es[i]);
        pm.Stop(ps[i]);
      }
      assert es[..|ps|] == es;
    }

    method LaunchAll(cs: seq<string>)
      modifies pm
      ensures Snapshot() == ApplyAll(old(Snapshot()), Spawns(cs))
    {
      ghost var es := Spawns(cs);
      for i := 0 to |cs|
        invariant Snapshot() == ApplyAll(old(Snapshot()), es[..i])
      {
        assert es[..i + 1] == es[..i] + [es[i]];
        ApplySnoc(old(Snapshot()), es[..i], es[i]);
        pm.Launch(cs[i]);
      }
      assert es[..|cs|] == es;
    }

    /** restore_state_on_failure; `w` is the world at the attempt's entry. */
    method RestoreStateOnFailure(ghost w: World, oldSocks: Option<Port>, oldHttp: Option<Port>, plan: Plan)
      requires oldSocks == w.socks && oldHttp == w.http
      modifies pm, session, net
      ensures Snapshot() == ApplyAll(old(Snapshot()), Rollback(w, plan, old(pm.active)))
    {
      ghost var start, stops := Snapshot(), Terminations(pm.active);
      StopAll(pm.active);
      pm.active := [];
      session.socks := oldSocks;
      session.http := oldHttp;
      ApplyConcat(start, stops, [ForgetProcs, RestorePorts(oldSocks, oldHttp)]);
      ApplyTwo(ApplyAll(start, stops), ForgetProcs, RestorePorts(oldSocks, oldHttp));
      ApplyConcat(start, stops + [ForgetProcs, RestorePorts(oldSocks, oldHttp)], Disabling(plan));
      if !plan.diagnoseOnly {
        ApplyOne(Snapshot(), WriteFlag(false));
        net.Disable(plan.disableWrites);
      }
    }

    /** One pass of the check loop. */
    method RunCheck(ghost w: World, oldSocks: Option<Port>, oldHttp: Option<Port>, oldProcs: seq<Proc>, plan: Plan,
                    check: Check) returns (verdict: Verdict)
      requires oldSocks == w.socks && oldHttp == w.http && oldProcs == w.active
      modifies pm, session, net
      ensures Snapshot() == ApplyAll(old(Snapshot()), CheckStep(w, plan, old(pm.active), check).0)
      ensures verdict == CheckStep(w, plan, old(pm.active), check).1
      ensures verdict.GoesOn? ==> pm.active == old(pm.active)
    {
      verdict := GoesOn(false);
      if check.Reached? {
        ghost var start, writes: seq<Effect> := Snapshot(), [];
        if !plan.diagnoseOnly {
          writes := Writes(check.enabling, plan.newHttp);
          WritesAre(start, check.enabling, plan.newHttp);
          var enabled := net.Enable(plan.newHttp, check.enabling);
          if !enabled {
            ApplyConcat(start, writes, Rollback(w, plan, pm.active));
            RestoreStateOnFailure(w, oldSocks, oldHttp, plan);
            return Answered(false);
          }
        }
        var raises := check.raiseAt.Some? && check.raiseAt.value <= |oldProcs|;
        var told := if raises then oldProcs[..check.raiseAt.value] else oldProcs;
        ApplyConcat(start, writes, Terminations(told));
        StopAll(told);
        verdict := if raises then GoesOn(|told| == |oldProcs|) else Answered(true);
      }
    }

    method CheckAndSwitch(ghost w: World, oldSocks: Option<Port>, oldHttp: Option<Port>, oldProcs: seq<Proc>,
                          plan: Plan)
      returns (ok: bool)
      requires oldSocks == w.socks && oldHttp == w.http && oldProcs == w.active
      modifies pm, session, net
      ensures Snapshot() == ApplyAll(old(Snapshot()), Checking(w, plan, old(pm.active), 0, false).0)
      ensures ok == Checking(w, plan, old(pm.active), 0, false).1
    {
      ghost var start, tracked := Snapshot(), pm.active;
      ghost var done: seq<Effect> := [];
      var success := false;
      for i := 0 to |plan.checks|
        invariant Snapshot() == ApplyAll(start, done) && pm.active == tracked
        invariant Checking(w, plan, tracked, 0, false).0 == done + Checking(w, plan, tracked, i, success).0
        invariant Checking(w, plan, tracked, 0, false).1 == Checking(w, plan, tracked, i, success).1
      {
        ghost var step := CheckStep(w, plan, tracked, plan.checks[i]).0;
        CheckingUnrolled(w, plan, tracked, i, success, done);
        ApplyConcat(start, done, step);
        var verdict := RunCheck(w, oldSocks, oldHttp, oldProcs, plan, plan.checks[i]);
        if verdict.Answered? { return verdict.ok; }
        success := success || verdict.switched;
        done := done + step;
      }
      if success {
        assert done + [] == done;
        return true;
      }
      ApplyConcat(start, done, Rollback(w, plan, tracked));
      RestoreStateOnFailure(w, oldSocks, oldHttp, plan);
      ok := false;
    }

    method Launch(ghost w: World, oldSocks: Option<Port>, oldHttp: Option<Port>, plan: Plan) returns (ok: bool)
      requires oldSocks == w.socks && oldHttp == w.http && pm.active == w.active && pm.next == w.next
      modifies pm, session, net
      ensures Snapshot() == ApplyAll(old(Snapshot()), Launching(w, plan).0)
      ensures ok == Launching(w, plan).1
    {
      if plan.commands.None? {
        RestoreStateOnFailure(w, oldSocks, oldHttp, plan);
        return false;
      }
      var oldProcs := pm.active;
      var (cs, failed) := Spawned(plan);
      ghost var start, head, tracked := Snapshot(), [ForgetProcs] + Spawns(cs), Procs(w.next, cs);
      Replace(cs);
      if failed {
        ApplyConcat(start, head, Rollback(w, plan, tracked));
        RestoreStateOnFailure(w, oldSocks, oldHttp, plan);
        ok := false;
      } else {
        ApplyConcat(start, head, Checking(w, plan, tracked, 0, false).0);
        ok := CheckAndSwitch(w, oldSocks, oldHttp, oldProcs, plan);
      }
    }

    /** Forgets the tracked processes and starts the new ones. */
    method Replace(cs: seq<string>)
      modifies pm
      ensures Snapshot() == ApplyAll(old(Snapshot()), [ForgetProcs] + Spawns(cs))
      ensures pm.active == Procs(old(pm.next), cs)
    {
      ghost var start := Snapshot();
      ApplyOne(start, ForgetProcs);
      ApplyConcat(start, [ForgetProcs], Spawns(cs));
      pm.active := [];
      SpawnsAre(Snapshot(), cs);
      LaunchAll(cs);
      assert [] + Procs(start.next, cs) == Procs(start.next, cs);
    }

    method ExecuteBypassAndConnect(plan: Plan) returns (ok: bool)
      modifies pm, session, net
      ensures Snapshot() == Final(old(Snapshot()), plan)
      ensures ok == Ok(old(Snapshot()), plan)
    {
      ghost var w := Snapshot();
      var oldSocks, oldHttp := session.socks, session.http;
      ghost var setup := [SetupPorts(plan.newSocks, plan.newHttp)];
      ApplyOne(w, SetupPorts(plan.newSocks, plan.newHttp));
      session.SetupDynamicPorts(plan.newSocks, plan.newHttp);
      if !plan.hasStrategy || !plan.prepared {
        ApplyConcat(w, setup, Rollback(w, plan, w.active));
        RestoreStateOnFailure(w, oldSocks, oldHttp, plan);
        return false;
      }
      ApplySnoc(w, setup, ReleaseSockets);
      session.ReleaseBindingSockets();
      ApplyConcat(w, setup + [ReleaseSockets], Launching(w, plan).0);
      ok := Launch(w, oldSocks, oldHttp, plan);
    }
  }

  lemma CheckingUnrolled(w: World, plan: Plan, tracked: seq<Proc>, i: nat, switched: bool, done: seq<Effect>)
    requires i < |plan.checks|
    ensures var (es, verdict) := CheckStep(w, plan, tracked, plan.checks[i]);
      var all := Checking(w, plan, tracked, i, switched);
      match verdict
      case Answered(ok) => done + all.0 == done + es && all.1 == ok
      case GoesOn(now) =>
        var rest := Checking(w, plan, tracked, i + 1, switched || now);
        done + all.0 == done + es + rest.0 && all.1 == rest.1
  {
    var (es, verdict) := CheckStep(w, plan, tracked, plan.checks[i]);
    if verdict.GoesOn? {
      var rest := Checking(w, plan, tracked, i + 1, switched || verdict.switched).0;
      assert done + (es + rest) == done + es + rest;
    }
  }

  lemma ApplyOne(w: World, e: Effect)
    ensures ApplyAll(w, [e]) == Apply(w, e)
  {
    ApplySnoc(w, [], e);
    assert [] + [e] == [e];
  }

  lemma ApplyTwo(w: World, a: Effect, b: Effect)
    ensures ApplyAll(w, [a, b]) == Apply(Apply(w, a), b)
  {
    ApplyOne(w, a);
    ApplySnoc(w, [a], b);
    assert [a] + [b] == [a, b];
  }

  lemma WritesAre(w: World, e: Enabling, port: Port)
    ensures ApplyAll(w, Writes(e, port)) == w.(proxy := match e
              case FailedClean => w.proxy
              case FailedAfterFlag => w.proxy.(enabled := true)
              case _ => Proxy(true, Some(port)))
  {
    ApplyOne(w, WriteFlag(true));
    ApplyTwo(w, WriteFlag(true), WriteServer(port));
  }

  lemma {:induction false} SpawnsAre(w: World, cs: seq<string>)
    ensures ApplyAll(w, Spawns(cs)) == w.(active := w.active + Procs(w.next, cs), next := w.next + |cs|)
  {
    if cs == [] {
      assert w.active + Procs(w.next, cs) == w.active;
    } else {
      var n := |cs| - 1;
      SpawnsAre(w, cs[..n]);
      OneSpawnMore(w, Spawns(cs[..n]), Procs(w.next, cs[..n]), cs[n]);
      SpawnsSnoc(cs[..n], cs[n]);
      ProcsSnoc(w.next, cs[..n], cs[n]);
      FrontAndLast(cs);
    }
  }

  lemma {:induction false} OneSpawnMore(w: World, es: seq<Effect>, ps: seq<Proc>, c: string)
    requires ApplyAll(w, es) == w.(active := w.active + ps, next := w.next + |ps|)
    ensures ApplyAll(w, es + [Spawn(c)])
         == w.(active := w.active + (ps + [Proc(w.next + |ps|, c)]), next := w.next + |ps| + 1)
  {
    ApplySnoc(w, es, Spawn(c));
    Regroup(w.active, ps, [Proc(w.next + |ps|, c)]);
  }

  lemma SpawnsSnoc(cs: seq<string>, c: string)
    ensures Spawns(cs + [c]) == Spawns(cs) + [Spawn(c)]
  {
  }

  lemma ProcsSnoc(next: nat, cs: seq<string>, c: string)
    ensures Procs(next, cs + [c]) == Procs(next, cs) + [Proc(next + |cs|, c)]
  {
  }

  /** A process the engine asked to stop, or that ended by itself. */
  predicate Stopped(w: World, p: Proc) { p in w.told || p in w.exited }

  /** Handles are unused from `next` on. */
  predicate WellNumbered(w: World) {
    && (forall p | p in w.active :: p.id < w.next)
    && (forall p | p in w.told :: p.id < w.next)
    && (forall p | p in w.exited :: p.id < w.next)
  }

  /** The processes of `ps` a termination reaches. */
  function Running(w: World, ps: seq<Proc>): set<Proc> {
    set p | p in ps && p !in w.exited
  }

  lemma {:induction false} TerminationsAre(w: World, ps: seq<Proc>)
    ensures ApplyAll(w, Terminations(ps)) == w.(told := w.told + Running(w, ps))
  {
    if ps == [] {
      assert w.told + Running(w, ps) == w.told;
    } else {
      var n := |ps| - 1;
      assert Terminations(ps) == Terminations(ps[..n]) + [Terminate(ps[n])];
      ApplySnoc(w, Terminations(ps[..n]), Terminate(ps[n]));
      TerminationsAre(w, ps[..n]);
      assert ps == ps[..n] + [ps[n]];
      assert Running(w, ps) == Running(w, ps[..n]) + if ps[n] in w.exited then {} else {ps[n]};
    }
  }

  function Disabled(proxy: Proxy, plan: Plan): Proxy {
    if plan.diagnoseOnly || !plan.disableWrites then proxy else proxy.(enabled := false)
  }

  /** What a rollback leaves of world `v` in an attempt entered at `w`. */
  function RolledBack(v: World, w: World, plan: Plan, tracked: seq<Proc>): World {
    v.(told := v.told + Running(v, tracked), active := [], socks := w.socks, http := w.http,
       proxy := Disabled(v.proxy, plan))
  }

  lemma RollbackIs(v: World, w: World, plan: Plan, tracked: seq<Proc>)
    ensures ApplyAll(v, Rollback(w, plan, tracked)) == RolledBack(v, w, plan, tracked)
  {
    var stops, middle := Terminations(tracked), [ForgetProcs, RestorePorts(w.socks, w.http)];
    TerminationsAre(v, tracked);
    ApplyConcat(v, stops, middle);
    ApplyTwo(ApplyAll(v, stops), ForgetProcs, RestorePorts(w.socks, w.http));
    ApplyConcat(v, stops + middle, Disabling(plan));
    ApplyOne(ApplyAll(v, stops + middle), WriteFlag(false));
  }

  /** How many of the old processes the checks from `i` on tell to terminate. */
  function CutShort(w: World, plan: Plan, i: nat): (n: nat)
    ensures n <= |w.active|
    decreases |plan.checks| - i
  {
    if i >= |plan.checks| then 0
    else match plan.checks[i]
      case Unreachable => CutShort(w, plan, i + 1)
      case Reached(enabling, raiseAt) =>
        if !plan.diagnoseOnly && !enabling.Enabled? then 0
        else if Interrupted(w, raiseAt) then
          var rest := CutShort(w, plan, i + 1);
          if rest > raiseAt.value then rest else raiseAt.value
        else |w.active|
  }

  /** The proxy after the checks from `i` on, before any rollback. */
  function Proxied(proxy: Proxy, w: World, plan: Plan, i: nat): Proxy
    decreases |plan.checks| - i
  {
    if i >= |plan.checks| then proxy
    else match plan.checks[i]
      case Unreachable => Proxied(proxy, w, plan, i + 1)
      case Reached(enabling, raiseAt) =>
        if plan.diagnoseOnly then if Interrupted(w, raiseAt) then Proxied(proxy, w, plan, i + 1) else proxy
        else match enabling
          case FailedClean => proxy
          case FailedAfterFlag => proxy.(enabled := true)
          case FailedAfterServer => Proxy(true, Some(plan.newHttp))
          case Enabled =>
            if Interrupted(w, raiseAt) then Proxied(Proxy(true, Some(plan.newHttp)), w, plan, i + 1)
            else Proxy(true, Some(plan.newHttp))
  }

  /** The world after the checks from `i` on. */
  function Checked(v: World, w: World, plan: Plan, i: nat, switched: bool): World {
    var ok := Checking(w, plan, v.active, i, switched).1;
    var u := v.(told := v.told + Running(v, w.active[..CutShort(w, plan, i)]), proxy := Proxied(v.proxy, w, plan, i));
    if ok then u else RolledBack(u, w, plan, v.active)
  }

  /** When the checks from `i` on answer True, all old processes were told, now or before, and the proxy is written. */
  predicate SwitchedOver(v: World, w: World, plan: Plan, i: nat, switched: bool) {
    Checking(w, plan, v.active, i, switched).1 ==>
      && (switched || CutShort(w, plan, i) == |w.active|)
      && (!plan.diagnoseOnly && (switched ==> v.proxy == Proxy(true, Some(plan.newHttp))) ==>
            Proxied(v.proxy, w, plan, i) == Proxy(true, Some(plan.newHttp)))
  }

  lemma {:induction false} CheckingIs(v: World, w: World, plan: Plan, i: nat, switched: bool)
    ensures ApplyAll(v, Checking(w, plan, v.active, i, switched).0) == Checked(v, w, plan, i, switched)
    ensures SwitchedOver(v, w, plan, i, switched)
    decreases |plan.checks| - i
  {
    assert w.active[..0] == [] && Running(v, []) == {} && v.told + {} == v.told;
    if i >= |plan.checks| {
      RollbackIs(v, w, plan, v.active);
    } else if plan.checks[i].Unreachable? {
      var rest := Checking(w, plan, v.active, i + 1, switched).0;
      assert [] + rest == rest;
      CheckingIs(v, w, plan, i + 1, switched);
    } else if !Passes(plan, plan.checks[i]) {
      RefusedIs(v, w, plan, i, switched);
    } else if Interrupted(w, plan.checks[i].raiseAt) {
      InterruptedCheckIs(v, w, plan, i, switched);
    } else {
      SwitchedIs(v, w, plan, i, switched);
    }
  }

  /** The world when the writes of a check that passed are done. */
  function Written(v: World, plan: Plan, enabling: Enabling): World {
    if plan.diagnoseOnly then v
    else v.(proxy := match enabling
              case FailedClean => v.proxy
              case FailedAfterFlag => v.proxy.(enabled := true)
              case _ => Proxy(true, Some(plan.newHttp)))
  }

  lemma WritesThen(v: World, plan: Plan, enabling: Enabling, rest: seq<Effect>)
    ensures var writes := if plan.diagnoseOnly then [] else Writes(enabling, plan.newHttp);
      ApplyAll(v, writes + rest) == ApplyAll(Written(v, plan, enabling), rest)
  {
    var writes := if plan.diagnoseOnly then [] else Writes(enabling, plan.newHttp);
    WritesAre(v, enabling, plan.newHttp);
    ApplyConcat(v, writes, rest);
  }

  lemma RefusedIs(v: World, w: World, plan: Plan, i: nat, switched: bool)
    requires i < |plan.checks| && plan.checks[i].Reached? && !plan.diagnoseOnly && !plan.checks[i].enabling.Enabled?
    ensures ApplyAll(v, Checking(w, plan, v.active, i, switched).0) == Checked(v, w, plan, i, switched)
  {
    WritesThen(v, plan, plan.checks[i].enabling, Rollback(w, plan, v.active));
    RollbackIs(Written(v, plan, plan.checks[i].enabling), w, plan, v.active);
    assert w.active[..0] == [] && Running(v, []) == {} && v.told + {} == v.told;
  }

  predicate Passes(plan: Plan, check: Check) {
    check.Reached? && (plan.diagnoseOnly || check.enabling.Enabled?)
  }

  lemma SwitchedIs(v: World, w: World, plan: Plan, i: nat, switched: bool)
    requires i < |plan.checks| && Passes(plan, plan.checks[i]) && !Interrupted(w, plan.checks[i].raiseAt)
    ensures ApplyAll(v, Checking(w, plan, v.active, i, switched).0) == Checked(v, w, plan, i, switched)
    ensures Checking(w, plan, v.active, i, switched).1 && CutShort(w, plan, i) == |w.active|
  {
    assert w.active[..|w.active|] == w.active;
    WritesThen(v, plan, plan.checks[i].enabling, Terminations(w.active));
    TerminationsAre(Written(v, plan, plan.checks[i].enabling), w.active);
  }

  lemma {:induction false} InterruptedCheckIs(v: World, w: World, plan: Plan, i: nat, switched: bool)
    requires i < |plan.checks| && Passes(plan, plan.checks[i]) && Interrupted(w, plan.checks[i].raiseAt)
    ensures ApplyAll(v, Checking(w, plan, v.active, i, switched).0) == Checked(v, w, plan, i, switched)
    ensures SwitchedOver(v, w, plan, i, switched)
    decreases |plan.checks| - i, 0
  {
    var check := plan.checks[i];
    var n := check.raiseAt.value;
    var now := switched || n == |w.active|;
    var told, v1, rest := w.active[..n], Written(v, plan, check.enabling), Checking(w, plan, v.active, i + 1, now).0;
    var writes := if plan.diagnoseOnly then [] else Writes(check.enabling, plan.newHttp);
    Regroup(writes, Terminations(told), rest);
    WritesThen(v, plan, check.enabling, Terminations(told) + rest);
    TerminationsAre(v1, told);
    ApplyConcat(v1, Terminations(told), rest);
    CheckingIs(v.(told := v.told + Running(v, told), proxy := v1.proxy), w, plan, i + 1, now);
    InterruptedIs(v, v1.proxy, w, plan, i, n, switched);
  }

  /** Interrupted terminations followed by the remaining checks. */
  lemma InterruptedIs(v: World, proxy: Proxy, w: World, plan: Plan, i: nat, n: nat, switched: bool)
    requires i < |plan.checks| && plan.checks[i].Reached? && plan.checks[i].raiseAt == Some(n) && n <= |w.active|
    requires plan.diagnoseOnly || plan.checks[i].enabling.Enabled?
    requires proxy == if plan.diagnoseOnly then v.proxy else Proxy(true, Some(plan.newHttp))
    ensures Checked(v.(told := v.told + Running(v, w.active[..n]), proxy := proxy), w, plan, i + 1,
                    switched || n == |w.active|) == Checked(v, w, plan, i, switched)
  {
    var m := CutShort(w, plan, i + 1);
    var v2 := v.(told := v.told + Running(v, w.active[..n]), proxy := proxy);
    PrefixesJoin(v, w.active, n, m);
    assert v2.told + Running(v2, w.active[..m]) == v.told + Running(v, w.active[..CutShort(w, plan, i)]);
  }

  lemma PrefixesJoin(v: World, ps: seq<Proc>, n: nat, m: nat)
    requires n <= |ps| && m <= |ps|
    ensures Running(v, ps[..n]) + Running(v, ps[..m]) == Running(v, ps[..if m > n then m else n])
  {
    var lo, hi := if m > n then n else m, if m > n then m else n;
    assert ps[..hi] == ps[..lo] + ps[lo..hi];
  }

  predicate SpawnFails(plan: Plan)
    requires plan.commands.Some?
  {
    Spawned(plan).1
  }

  /** The commands whose processes the attempt creates. */
  function Created(plan: Plan): seq<string> {
    if !plan.hasStrategy || !plan.prepared || plan.commands.None? then [] else Spawned(plan).0
  }

  /** The attempt ends before it forgets the old processes. */
  predicate Early(plan: Plan) { !plan.hasStrategy || !plan.prepared || plan.commands.None? }

  /** The world before the spawn loop, and after it. */
  function AtSetup(w: World, plan: Plan): World {
    w.(socks := Some(plan.newSocks), http := Some(plan.newHttp),
       reserved := if plan.hasStrategy && plan.prepared then [] else [plan.newSocks, plan.newHttp])
  }

  function AtChecks(w: World, plan: Plan): World {
    AtSetup(w, plan).(active := Procs(w.next, Created(plan)), next := w.next + |Created(plan)|)
  }

  /** The result of an attempt, field by field. */
  function Outcome(w: World, plan: Plan): World {
    if Early(plan) then RolledBack(AtSetup(w, plan), w, plan, w.active)
    else if SpawnFails(plan) then RolledBack(AtChecks(w, plan), w, plan, Procs(w.next, Created(plan)))
    else Checked(AtChecks(w, plan), w, plan, 0, false)
  }

  lemma FinalIs(w: World, plan: Plan)
    ensures Final(w, plan) == Outcome(w, plan)
    ensures Ok(w, plan) ==> !Early(plan) && !SpawnFails(plan) && CutShort(w, plan, 0) == |w.active|
    ensures Ok(w, plan) && !plan.diagnoseOnly ==>
              Proxied(w.proxy, w, plan, 0) == Proxy(true, Some(plan.newHttp))
  {
    var setup := [SetupPorts(plan.newSocks, plan.newHttp)];
    ApplyOne(w, setup[0]);
    if !plan.hasStrategy || !plan.prepared {
      ApplyConcat(w, setup, Rollback(w, plan, w.active));
      RollbackIs(AtSetup(w, plan), w, plan, w.active);
    } else {
      ApplySnoc(w, setup, ReleaseSockets);
      ApplyConcat(w, setup + [ReleaseSockets], Launching(w, plan).0);
      LaunchingIs(w, plan);
    }
  }

  lemma LaunchingIs(w: World, plan: Plan)
    requires plan.hasStrategy && plan.prepared
    ensures ApplyAll(AtSetup(w, plan), Launching(w, plan).0) == Outcome(w, plan)
    ensures Launching(w, plan).1 ==> !Early(plan) && !SpawnFails(plan) && CutShort(w, plan, 0) == |w.active|
    ensures Launching(w, plan).1 && !plan.diagnoseOnly ==>
              Proxied(w.proxy, w, plan, 0) == Proxy(true, Some(plan.newHttp))
  {
    var v := AtSetup(w, plan);
    if plan.commands.None? {
      RollbackIs(v, w, plan, w.active);
    } else {
      var tracked, u := Procs(w.next, Created(plan)), AtChecks(w, plan);
      SpawnedIs(w, plan);
      if SpawnFails(plan) {
        ApplyConcat(v, [ForgetProcs] + Spawns(Created(plan)), Rollback(w, plan, tracked));
        RollbackIs(u, w, plan, tracked);
      } else {
        ApplyConcat(v, [ForgetProcs] + Spawns(Created(plan)), Checking(w, plan, tracked, 0, false).0);
        CheckingIs(u, w, plan, 0, false);
      }
    }
  }

  lemma SpawnedIs(w: World, plan: Plan)
    requires !Early(plan)
    ensures ApplyAll(AtSetup(w, plan), [ForgetProcs] + Spawns(Created(plan))) == AtChecks(w, plan)
  {
    var v, cs := AtSetup(w, plan), Created(plan);
    ApplyOne(v, ForgetProcs);
    ApplyConcat(v, [ForgetProcs], Spawns(cs));
    SpawnsAre(v.(active := []), cs);
    assert [] + Procs(w.next, cs) == Procs(w.next, cs);
  }

  /** A check that ends the loop: the enabling call fails, or nothing interrupts the terminations. */
  predicate Decides(w: World, plan: Plan, check: Check) {
    check.Reached? && ((!plan.diagnoseOnly && !check.enabling.Enabled?)
                       || check.raiseAt.None? || check.raiseAt.value > |w.active|)
  }

  ghost predicate NoneDecides(w: World, plan: Plan, i: nat, n: nat)
    requires n <= |plan.checks|
  {
    forall k | i <= k < n :: !Decides(w, plan, plan.checks[k])
  }

  /** The first deciding check from `i` on passes. */
  ghost predicate DecidedWell(w: World, plan: Plan, i: nat) {
    exists k | i <= k < |plan.checks| ::
      Decides(w, plan, plan.checks[k]) && NoneDecides(w, plan, i, k)
      && (plan.diagnoseOnly || plan.checks[k].enabling.Enabled?)
  }

  /** The exception of some check from `i` on strikes right after the last termination. */
  ghost predicate RaisedAfterAll(w: World, plan: Plan, i: nat) {
    exists k | i <= k < |plan.checks| :: plan.checks[k].Reached? && plan.checks[k].raiseAt == Some(|w.active|)
  }

  lemma {:induction false} CheckingAnswer(w: World, plan: Plan, tracked: seq<Proc>, i: nat, switched: bool)
    requires i <= |plan.checks|
    ensures Checking(w, plan, tracked, i, switched).1
       <==> DecidedWell(w, plan, i)
            || (NoneDecides(w, plan, i, |plan.checks|) && (switched || RaisedAfterAll(w, plan, i)))
    decreases |plan.checks| - i
  {
    if i < |plan.checks| {
      var check := plan.checks[i];
      if Decides(w, plan, check) {
        assert NoneDecides(w, plan, i, i);
      } else {
        var now := switched || (check.Reached? && check.raiseAt.value == |w.active|);
        CheckingAnswer(w, plan, tracked, i + 1, now);
        NextCheck(w, plan, i);
      }
    }
  }

  lemma NextCheck(w: World, plan: Plan, i: nat)
    requires i < |plan.checks| && !Decides(w, plan, plan.checks[i])
    ensures DecidedWell(w, plan, i) <==> DecidedWell(w, plan, i + 1)
    ensures NoneDecides(w, plan, i, |plan.checks|) <==> NoneDecides(w, plan, i + 1, |plan.checks|)
    ensures RaisedAfterAll(w, plan, i)
       <==> RaisedAfterAll(w, plan, i + 1) || (plan.checks[i].Reached? && plan.checks[i].raiseAt == Some(|w.active|))
  {
    forall k | i < k <= |plan.checks| ensures NoneDecides(w, plan, i, k) == NoneDecides(w, plan, i + 1, k) {
    }
  }

  /** An attempt answers True exactly when a strategy exists and is prepared, its commands are built and all of them
      start, and either the first check that ends the loop passes, or none ends it and some exception struck right
      after the last termination. */
  lemma AnswerIff(w: World, plan: Plan)
    ensures Ok(w, plan)
       <==> plan.hasStrategy && plan.prepared && plan.commands.Some?
            && (plan.spawnFailsAt.None? || plan.spawnFailsAt.value >= |plan.commands.value|)
            && (DecidedWell(w, plan, 0)
                || (NoneDecides(w, plan, 0, |plan.checks|) && RaisedAfterAll(w, plan, 0)))
  {
    if !Early(plan) && !SpawnFails(plan) {
      CheckingAnswer(w, plan, Procs(w.next, Created(plan)), 0, false);
    }
  }

  /** The processes an attempt creates are those of the commands before the one that fails to start: command `k` gets
      one exactly when every command is built and none up to it fails. */
  lemma CreatedAre(w: World, plan: Plan, k: nat)
    ensures Final(w, plan).next == w.next + |Created(plan)|
    ensures Created(plan) == [] || (plan.commands.Some? && Created(plan) <= plan.commands.value)
    ensures k < |Created(plan)|
       <==> plan.hasStrategy && plan.prepared && plan.commands.Some? && k < |plan.commands.value|
            && (plan.spawnFailsAt.Some? ==> k < plan.spawnFailsAt.value)
  {
    FinalIs(w, plan);
  }

  /** The terminations of a check reach position `j` of the old processes. */
  predicate TellsBeyond(plan: Plan, check: Check, j: nat) {
    check.Reached? && (plan.diagnoseOnly || check.enabling.Enabled?) && (check.raiseAt.None? || check.raiseAt.value > j)
  }

  lemma {:induction false} CutBeyond(w: World, plan: Plan, j: nat, i: nat)
    requires j < |w.active| && i <= |plan.checks|
    ensures j < CutShort(w, plan, i)
       <==> exists k | i <= k < |plan.checks| :: TellsBeyond(plan, plan.checks[k], j) && NoneDecides(w, plan, i, k)
    decreases |plan.checks| - i
  {
    if i < |plan.checks| {
      CutBeyond(w, plan, j, i + 1);
      assert NoneDecides(w, plan, i, i);
      if !Decides(w, plan, plan.checks[i]) {
        forall k | i < k < |plan.checks| ensures NoneDecides(w, plan, i, k) == NoneDecides(w, plan, i + 1, k) {
        }
      } else {
        assert forall k | i < k < |plan.checks| :: !NoneDecides(w, plan, i, k);
      }
    }
  }

  /** A True answer: one process per command in command order, none of them told to stop; every process tracked at
      entry stopped; new ports; the proxy on the new port unless only diagnosing. */
  lemma TrueReturn(w: World, plan: Plan)
    requires Ok(w, plan) && WellNumbered(w)
    ensures var f := Final(w, plan);
      && plan.commands.Some? && f.active == Procs(w.next, plan.commands.value) && f.next == w.next + |f.active|
      && (forall p | p in f.active :: !Stopped(f, p))
      && (forall p | p in w.active :: Stopped(f, p))
      && f.socks == Some(plan.newSocks) && f.http == Some(plan.newHttp) && f.reserved == []
      && f.proxy == (if plan.diagnoseOnly then w.proxy else Proxy(true, Some(plan.newHttp)))
  {
    FinalIs(w, plan);
    assert w.active[..|w.active|] == w.active;
    if plan.diagnoseOnly {
      DiagnoseOnlyProxy(w.proxy, w, plan, 0);
    }
    var ps := Procs(w.next, plan.commands.value);
    forall p | p in ps ensures !Stopped(w, p) && p !in w.active {
      var i :| 0 <= i < |ps| && ps[i] == p;
    }
  }

  lemma {:induction false} DiagnoseOnlyProxy(proxy: Proxy, w: World, plan: Plan, i: nat)
    requires plan.diagnoseOnly
    ensures Proxied(proxy, w, plan, i) == proxy
    decreases |plan.checks| - i
  {
    if i < |plan.checks| {
      DiagnoseOnlyProxy(proxy, w, plan, i + 1);
    }
  }

  /** A False answer: no process tracked, every process of the attempt stopped, the ports as at entry, the new
      sockets still bound exactly when it failed before releasing them, and the proxy off when the disabling call takes
      effect. */
  lemma FalseReturn(w: World, plan: Plan)
    requires !Ok(w, plan)
    ensures var f := Final(w, plan);
      && f.active == [] && f.socks == w.socks && f.http == w.http
      && f.next == w.next + |Created(plan)|
      && f.reserved == (if plan.hasStrategy && plan.prepared then [] else [plan.newSocks, plan.newHttp])
      && (forall p | p in Procs(w.next, Created(plan)) :: Stopped(f, p))
      && (if plan.diagnoseOnly then f.proxy == w.proxy else plan.disableWrites ==> !f.proxy.enabled)
  {
    FinalIs(w, plan);
    if plan.diagnoseOnly {
      DiagnoseOnlyProxy(w.proxy, w, plan, 0);
    }
  }

  /** How many of the old processes a failing attempt terminates after it forgot them. */
  function Reached(w: World, plan: Plan): (n: nat)
    ensures n <= |w.active|
  {
    if Early(plan) || SpawnFails(plan) then 0 else CutShort(w, plan, 0)
  }

  /** A False answer leaves no old process running exactly when it failed before forgetting them, or when the ones its
      checks did not get to had already stopped. Otherwise they run on, tracked by nobody. */
  lemma OldProcessesStoppedIff(w: World, plan: Plan)
    requires !Ok(w, plan) && WellNumbered(w)
    ensures (forall p | p in w.active :: Stopped(Final(w, plan), p))
       <==> Early(plan) || forall p | p in w.active :: Stopped(w, p) || p in w.active[..Reached(w, plan)]
  {
    FinalIs(w, plan);
    if !Early(plan) {
      NeverReused(w, plan);
      ToldAfterFailure(w, plan);
    }
  }

  /** A spawn that fails after the old connection was forgotten leaves it running, tracked by nobody. */
  lemma OldProcessLeftRunning()
    ensures var p := Proc(0, "xray");
      var w := World([p], {}, {}, 1, Some(1080), Some(1081), [], Proxy(true, Some(1081)));
      var plan := Plan(false, 2080, 2081, true, true, Some(["xray"]), Some(0), [], true);
      !Ok(w, plan) && !Stopped(Final(w, plan), p) && p !in Final(w, plan).active
  {
    var p := Proc(0, "xray");
    var w := World([p], {}, {}, 1, Some(1080), Some(1081), [], Proxy(true, Some(1081)));
    var plan := Plan(false, 2080, 2081, true, true, Some(["xray"]), Some(0), [], true);
    FinalIs(w, plan);
    FalseReturn(w, plan);
    OldProcessesStoppedIff(w, plan);
    assert p in w.active;
  }

  /** After a False answer an old process has stopped exactly when it had before, the attempt failed before forgetting
      it, or every new process started and some check passed and got past it, with no check before ending the loop. */
  lemma {:induction false} OldStoppedIff(w: World, plan: Plan, p: Proc)
    requires !Ok(w, plan) && WellNumbered(w) && p in w.active
    ensures Stopped(Final(w, plan), p)
       <==> || Stopped(w, p)
            || !plan.hasStrategy || !plan.prepared || plan.commands.None?
            || ((plan.spawnFailsAt.None? || plan.spawnFailsAt.value >= |plan.commands.value|)
                && exists j, k | 0 <= j < |w.active| && 0 <= k < |plan.checks| ::
                     w.active[j] == p && TellsBeyond(plan, plan.checks[k], j) && NoneDecides(w, plan, 0, k))
  {
    FinalIs(w, plan);
    if !Early(plan) {
      NeverReused(w, plan);
      ToldAfterFailure(w, plan);
      forall j | 0 <= j < |w.active| && w.active[j] == p
        ensures j < CutShort(w, plan, 0)
           <==> exists k | 0 <= k < |plan.checks| :: TellsBeyond(plan, plan.checks[k], j) && NoneDecides(w, plan, 0, k)
      {
        CutBeyond(w, plan, j, 0);
      }
    }
  }

  lemma NeverReused(w: World, plan: Plan)
    requires WellNumbered(w)
    ensures forall p | p in Procs(w.next, Created(plan)) :: p !in w.active && !Stopped(w, p)
  {
    var ps := Procs(w.next, Created(plan));
    forall p | p in ps ensures p !in w.active && !Stopped(w, p) {
      var i :| 0 <= i < |ps| && ps[i] == p;
    }
  }

  lemma ToldAfterFailure(w: World, plan: Plan)
    requires !Ok(w, plan) && !Early(plan)
    ensures Final(w, plan).exited == w.exited
    ensures Final(w, plan).told
         == w.told + Running(w, w.active[..Reached(w, plan)]) + Running(w, Procs(w.next, Created(plan)))
  {
    FinalIs(w, plan);
    assert w.active[..0] == [] && Running(w, []) == {} && w.told + {} == w.told;
    assert Running(AtChecks(w, plan), Procs(w.next, Created(plan))) == Running(w, Procs(w.next, Created(plan)));
  }

  lemma WellNumberedKept(w: World, plan: Plan)
    requires WellNumbered(w)
    ensures WellNumbered(Final(w, plan)) && Final(w, plan).exited == w.exited && w.told <= Final(w, plan).told
    ensures forall p | p in Final(w, plan).told :: p in w.told || p in w.active || p in Procs(w.next, Created(plan))
  {
    FinalIs(w, plan);
    var ps := Procs(w.next, Created(plan));
    forall p | p in ps ensures w.next <= p.id < w.next + |ps| {
      var i :| 0 <= i < |ps| && ps[i] == p;
    }
  }
}
