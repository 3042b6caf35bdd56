/** Attempts of the orchestrator and of manual_connect as tasks that interleave at every effect, serialised only by
    strategy_lock (BypssEng.py, bypsseng/runtime/process.py). */
module Interleaving {
  import opened Text
  import opened Connection

  /** An enabled proxy whose address this run wrote points at the session's HTTP port. */
  predicate Coherent(w: World) {
    w.proxy.enabled && w.proxy.server.Some? ==> w.proxy.server == w.http
  }

  /** The outcome of the first check that passes, when the attempt gets to its checks. */
  function FirstEnabling(checks: seq<Check>): Option<Enabling> {
    if checks == [] then None
    else match checks[0] case Unreachable => FirstEnabling(checks[1..]) case Reached(e, _) => Some(e)
  }

  function EnablingOf(plan: Plan): Option<Enabling> {
    if Early(plan) || SpawnFails(plan) then None else FirstEnabling(plan.checks)
  }

  /** A failed attempt that cannot disable the proxy leaves its address equal to the restored port, if it enables it. */
  predicate AddressKept(w: World, plan: Plan) {
    match EnablingOf(plan)
    case None => true
    case Some(FailedClean) => true
    case Some(FailedAfterFlag) => w.proxy.server == None || w.proxy.server == w.http
    case _ => w.http == Some(plan.newHttp)
  }

  lemma {:induction false} OnceWritten(w: World, plan: Plan, i: nat)
    requires !plan.diagnoseOnly
    ensures Proxied(Proxy(true, Some(plan.newHttp)), w, plan, i) == Proxy(true, Some(plan.newHttp))
    decreases |plan.checks| - i
  {
    if i < |plan.checks| {
      OnceWritten(w, plan, i + 1);
    }
  }

  lemma {:induction false} ProxiedByFirst(proxy: Proxy, w: World, plan: Plan, i: nat)
    requires !plan.diagnoseOnly && i <= |plan.checks|
    ensures Proxied(proxy, w, plan, i) == match FirstEnabling(plan.checks[i..])
              case None => proxy
              case Some(FailedClean) => proxy
              case Some(FailedAfterFlag) => proxy.(enabled := true)
              case Some(_) => Proxy(true, Some(plan.newHttp))
    decreases |plan.checks| - i
  {
    if i < |plan.checks| {
      assert plan.checks[i..][1..] == plan.checks[i + 1..];
      ProxiedByFirst(proxy, w, plan, i + 1);
      OnceWritten(w, plan, i + 1);
    }
  }

  lemma ProxyAfterFailure(w: World, plan: Plan)
    requires !Ok(w, plan) && !plan.diagnoseOnly
    ensures Final(w, plan).proxy == Disabled(match EnablingOf(plan)
              case None => w.proxy
              case Some(FailedClean) => w.proxy
              case Some(FailedAfterFlag) => w.proxy.(enabled := true)
              case Some(_) => Proxy(true, Some(plan.newHttp)), plan)
  {
    FinalIs(w, plan);
    assert plan.checks[0..] == plan.checks;
    ProxiedByFirst(w.proxy, w, plan, 0);
  }

  /** A failed attempt leaves the proxy coherent exactly when the disabling call took effect or no foreign address was
      written or enabled. */
  lemma CoherentAfterFailureIff(w: World, plan: Plan)
    requires !Ok(w, plan) && !plan.diagnoseOnly && Coherent(w)
    ensures Coherent(Final(w, plan)) <==> plan.disableWrites || AddressKept(w, plan)
  {
    ProxyAfterFailure(w, plan);
    FinalIs(w, plan);
  }

  /** An address written before the enabling call raised stays when disabling has no effect: the proxy then points
      elsewhere than the session's port. */
  lemma ForeignAddressLeft()
    ensures var w := World([], {}, {}, 0, Some(1080), Some(1081), [], Proxy(false, None));
      var plan := Plan(false, 2080, 2081, true, true, Some(["xray"]), None, [Reached(FailedAfterServer, None)], false);
      !Ok(w, plan) && Final(w, plan).proxy == Proxy(true, Some(2081)) && !Coherent(Final(w, plan))
  {
    var w := World([], {}, {}, 0, Some(1080), Some(1081), [], Proxy(false, None));
    var plan := Plan(false, 2080, 2081, true, true, Some(["xray"]), None, [Reached(FailedAfterServer, None)], false);
    assert !Checking(w, plan, Procs(w.next, ["xray"]), 0, false).1;
    ProxyAfterFailure(w, plan);
    FalseReturn(w, plan);
  }

  /** After a failed attempt nothing serves the proxy, and it is enabled all the same exactly when the disabling call
      had no effect and it was enabled at entry or by the attempt. */
  lemma EnabledAfterFailureIff(w: World, plan: Plan)
    requires !Ok(w, plan) && !plan.diagnoseOnly
    ensures var f := Final(w, plan);
      && f.active == []
      && (f.proxy.enabled
          <==> !plan.disableWrites && (w.proxy.enabled || EnablingOf(plan) !in {None, Some(FailedClean)}))
  {
    FalseReturn(w, plan);
    ProxyAfterFailure(w, plan);
  }

  /** A candidate without a binary stops the live connection; if disabling then fails, its proxy stays enabled. */
  lemma DeadProxyLeftEnabled()
    ensures var p := Proc(0, "xray");
      var w := World([p], {}, {}, 1, Some(1080), Some(1081), [], Proxy(true, Some(1081)));
      var f := Final(w, Plan(false, 2080, 2081, false, false, None, None, [], false));
      f.proxy == Proxy(true, Some(1081)) && f.active == [] && Stopped(f, p)
  {
    var p := Proc(0, "xray");
    var w := World([p], {}, {}, 1, Some(1080), Some(1081), [], Proxy(true, Some(1081)));
    var plan := Plan(false, 2080, 2081, false, false, None, None, [], false);
    ProxyAfterFailure(w, plan);
    FalseReturn(w, plan);
    OldProcessesStoppedIff(w, plan);
    assert p in w.active;
  }

  /** The attempt keeps the proxy coherent: it only diagnoses, connects, can disable, or leaves no foreign address. */
  predicate KeepsAddress(w: World, plan: Plan) {
    plan.diagnoseOnly || Ok(w, plan) || plan.disableWrites || AddressKept(w, plan)
  }

  /** Coherent, and without an address of this run while only diagnosing. */
  predicate Good(w: World, diagnoseOnly: bool) {
    Coherent(w) && (diagnoseOnly ==> w.proxy.server == None) && WellNumbered(w)
  }

  lemma AttemptKeepsGood(w: World, plan: Plan)
    requires Good(w, plan.diagnoseOnly)
    ensures Good(Final(w, plan), plan.diagnoseOnly) <==> KeepsAddress(w, plan)
    ensures Coherent(Final(w, plan)) <==> KeepsAddress(w, plan)
  {
    WellNumberedKept(w, plan);
    if Ok(w, plan) {
      TrueReturn(w, plan);
    } else {
      FalseReturn(w, plan);
      if !plan.diagnoseOnly {
        CoherentAfterFailureIff(w, plan);
      }
    }
  }

  /** `a` is `b` up to processes that ended by themselves in the meantime. */
  predicate Covers(a: World, b: World) {
    && a == b.(told := a.told, exited := a.exited)
    && a.told <= b.told && b.exited <= a.exited && b.told + b.exited <= a.told + a.exited
  }

  lemma ApplyCovers(a: World, b: World, e: Effect)
    requires Covers(a, b)
    ensures Covers(Apply(a, e), Apply(b, e))
  {
  }

  lemma {:induction false} ApplyAllCovers(a: World, b: World, es: seq<Effect>)
    requires Covers(a, b)
    ensures Covers(ApplyAll(a, es), ApplyAll(b, es))
  {
    if es != [] {
      ApplyAllCovers(a, b, es[..|es| - 1]);
      ApplyCovers(ApplyAll(a, es[..|es| - 1]), ApplyAll(b, es[..|es| - 1]), es[|es| - 1]);
    }
  }

  lemma {:induction false} CheckingCovers(a: World, b: World, plan: Plan, tracked: seq<Proc>, i: nat, switched: bool)
    requires Covers(a, b)
    ensures Checking(a, plan, tracked, i, switched) == Checking(b, plan, tracked, i, switched)
    decreases |plan.checks| - i
  {
    if i < |plan.checks| {
      var now := CheckStep(a, plan, tracked, plan.checks[i]).1;
      CheckingCovers(a, b, plan, tracked, i + 1, switched || (now.GoesOn? && now.switched));
    }
  }

  lemma AttemptCovers(a: World, b: World, plan: Plan)
    requires Covers(a, b)
    ensures Attempt(a, plan) == Attempt(b, plan) && Covers(Final(a, plan), Final(b, plan))
  {
    if !Early(plan) {
      CheckingCovers(a, b, plan, Procs(a.next, Created(plan)), 0, false);
    }
    ApplyAllCovers(a, b, Attempt(a, plan).0);
  }

  /** The attempt that holds the lock: what it was started with and the effects it has still to perform. */
  datatype Holder = Holder(entry: World, plan: Plan, todo: seq<Effect>)

  /** `log` records the attempts in the order in which they got the lock. */
  datatype System = System(world: World, waiting: multiset<Plan>, holder: Option<Holder>, log: seq<Plan>)

  datatype Step = Arrive(plan: Plan) | Acquire(plan: Plan) | Act | Release | Exit(proc: Proc)

  /** One step of any task, or of the operating system. */
  ghost predicate Next(s: System, t: System, step: Step) {
    match step
    case Arrive(plan) => t == s.(waiting := s.waiting + multiset{plan})
    case Acquire(plan) =>
      s.holder == None && plan in s.waiting
      && t == System(s.world, s.waiting - multiset{plan},
                     Some(Holder(s.world, plan, Attempt(s.world, plan).0)), s.log + [plan])
    case Act =>
      s.holder.Some? && s.holder.value.todo != []
      && t == s.(world := Apply(s.world, s.holder.value.todo[0]),
                 holder := Some(s.holder.value.(todo := s.holder.value.todo[1..])))
    case Release => s.holder.Some? && s.holder.value.todo == [] && t == s.(holder := None)
    case Exit(p) => t == s.(world := s.world.(exited := s.world.exited + {p}))
  }

  /** The attempts one after the other, without interleaving. */
  function Serial(w: World, plans: seq<Plan>): World {
    if plans == [] then w else Final(Serial(w, plans[..|plans| - 1]), plans[|plans| - 1])
  }

  /** The world once the lock holder has performed its remaining effects. */
  function Settled(s: System): World {
    match s.holder case None => s.world case Some(h) => ApplyAll(s.world, h.todo)
  }

  ghost predicate Invariant(w0: World, s: System) {
    && Covers(Settled(s), Serial(w0, s.log))
    && (s.holder.Some? ==> var h := s.holder.value;
          s.log != [] && s.log[|s.log| - 1] == h.plan && Covers(h.entry, Serial(w0, s.log[..|s.log| - 1]))
          && Covers(Settled(s), Final(h.entry, h.plan)))
  }

  lemma CoversTransitive(a: World, b: World, c: World)
    requires Covers(a, b) && Covers(b, c)
    ensures Covers(a, c)
  {
  }

  lemma {:induction false} ApplyHead(w: World, es: seq<Effect>)
    requires es != []
    ensures ApplyAll(w, es) == ApplyAll(Apply(w, es[0]), es[1..])
  {
    ApplyOne(w, es[0]);
    ApplyConcat(w, [es[0]], es[1..]);
    assert [es[0]] + es[1..] == es;
  }

  lemma StepKeepsInvariant(w0: World, s: System, t: System, step: Step)
    requires Invariant(w0, s) && Next(s, t, step)
    ensures Invariant(w0, t)
  {
    match step
    case Arrive(_) =>
    case Acquire(plan) =>
      AttemptCovers(s.world, Serial(w0, s.log), plan);
      assert t.log[..|t.log| - 1] == s.log;
    case Act => ApplyHead(s.world, s.holder.value.todo);
    case Release =>
    case Exit(p) =>
      if s.holder.Some? {
        ApplyAllCovers(t.world, s.world, s.holder.value.todo);
        CoversTransitive(Settled(t), Settled(s), Final(s.holder.value.entry, s.holder.value.plan));
      }
      CoversTransitive(Settled(t), Settled(s), Serial(w0, s.log));
  }

  /** A run: states linked by steps, from a world without attempts. */
  ghost predicate IsRun(w0: World, run: seq<System>, steps: seq<Step>) {
    && |run| == |steps| + 1 && run[0] == System(w0, multiset{}, None, [])
    && forall i | 0 <= i < |steps| :: Next(run[i], run[i + 1], steps[i])
  }

  /** Serialisability: at every point of every run, the world the lock holder will leave is the one the attempts
      produce in lock order without interleaving, up to processes that ended by themselves. */
  lemma {:induction false} Serialisable(w0: World, run: seq<System>, steps: seq<Step>, i: nat)
    requires IsRun(w0, run, steps) && i < |run|
    ensures Invariant(w0, run[i])
  {
    if i > 0 {
      Serialisable(w0, run, steps, i - 1);
      StepKeepsInvariant(w0, run[i - 1], run[i], steps[i - 1]);
    }
  }

  /** Every attempt of the serial run keeps the proxy coherent. */
  predicate AllKeepAddress(w: World, plans: seq<Plan>) {
    plans == []
    || (AllKeepAddress(w, plans[..|plans| - 1]) && KeepsAddress(Serial(w, plans[..|plans| - 1]), plans[|plans| - 1]))
  }

  ghost predicate CoherentThroughout(w: World, plans: seq<Plan>) {
    forall k | 0 <= k <= |plans| :: Coherent(Serial(w, plans[..k]))
  }

  predicate Uniform(plans: seq<Plan>, diagnoseOnly: bool) {
    forall p | p in plans :: p.diagnoseOnly == diagnoseOnly
  }

  lemma {:induction false} KeptIsGood(w: World, plans: seq<Plan>, diagnoseOnly: bool, m: nat, k: nat)
    requires k <= m <= |plans| && Good(w, diagnoseOnly) && Uniform(plans, diagnoseOnly)
    requires AllKeepAddress(w, plans[..m])
    ensures Good(Serial(w, plans[..k]), diagnoseOnly)
    decreases m
  {
    if m > 0 {
      assert plans[..m][..m - 1] == plans[..m - 1] && plans[m - 1] in plans;
      if k < m {
        KeptIsGood(w, plans, diagnoseOnly, m - 1, k);
      } else {
        KeptIsGood(w, plans, diagnoseOnly, m - 1, m - 1);
        AttemptKeepsGood(Serial(w, plans[..m - 1]), plans[m - 1]);
      }
    }
  }

  lemma {:induction false} CoherentIsKept(w: World, plans: seq<Plan>, diagnoseOnly: bool, m: nat)
    requires m <= |plans| && Good(w, diagnoseOnly) && Uniform(plans, diagnoseOnly) && CoherentThroughout(w, plans)
    ensures AllKeepAddress(w, plans[..m])
  {
    if m > 0 {
      CoherentIsKept(w, plans, diagnoseOnly, m - 1);
      KeptIsGood(w, plans, diagnoseOnly, m - 1, m - 1);
      assert plans[..m][..m - 1] == plans[..m - 1] && plans[m - 1] in plans;
      AttemptKeepsGood(Serial(w, plans[..m - 1]), plans[m - 1]);
      assert Coherent(Serial(w, plans[..m]));
    }
  }

  /** A serial run is coherent after every attempt exactly when every attempt keeps it so. */
  lemma SerialCoherentIff(w: World, plans: seq<Plan>, diagnoseOnly: bool)
    requires Good(w, diagnoseOnly) && Uniform(plans, diagnoseOnly)
    ensures CoherentThroughout(w, plans) <==> AllKeepAddress(w, plans)
  {
    assert plans[..|plans|] == plans;
    if CoherentThroughout(w, plans) {
      CoherentIsKept(w, plans, diagnoseOnly, |plans|);
    }
    if AllKeepAddress(w, plans) {
      forall k | 0 <= k <= |plans| ensures Coherent(Serial(w, plans[..k])) {
        KeptIsGood(w, plans, diagnoseOnly, |plans|, k);
      }
    }
  }

  /** The log of an earlier point is a part of the log. */
  lemma {:induction false} LogGrows(w0: World, run: seq<System>, steps: seq<Step>, j: nat, i: nat)
    requires IsRun(w0, run, steps) && j <= i < |run|
    ensures run[j].log <= run[i].log
  {
    if j < i {
      LogGrows(w0, run, steps, j, i - 1);
      assert Next(run[i - 1], run[i], steps[i - 1]);
    }
  }

  /** After the first `k` attempts the lock was free once. */
  lemma {:induction false} FreeAfter(w0: World, run: seq<System>, steps: seq<Step>, i: nat, k: nat) returns (j: nat)
    requires IsRun(w0, run, steps) && i < |run| && k <= |run[i].log|
    requires k == |run[i].log| ==> run[i].holder == None
    ensures j <= i && run[j].holder == None && run[j].log == run[i].log[..k]
  {
    if k == |run[i].log| {
      j := i;
    } else {
      assert i > 0 && Next(run[i - 1], run[i], steps[i - 1]);
      j := FreeAfter(w0, run, steps, i - 1, k);
    }
  }

  lemma CoherentAsSerial(w0: World, run: seq<System>, steps: seq<Step>, i: nat)
    requires IsRun(w0, run, steps) && i < |run| && run[i].holder == None
    ensures Coherent(run[i].world) <==> Coherent(Serial(w0, run[i].log))
  {
    Serialisable(w0, run, steps, i);
  }

  /** In every interleaving, an enabled proxy of this run points at the session's HTTP port whenever the lock is free,
      up to some free point, exactly when every attempt up to there keeps it so. */
  lemma LockFreeCoherent(w0: World, run: seq<System>, steps: seq<Step>, i: nat, diagnoseOnly: bool)
    requires IsRun(w0, run, steps) && i < |run| && run[i].holder == None
    requires Good(w0, diagnoseOnly) && Uniform(run[i].log, diagnoseOnly)
    ensures (forall j | 0 <= j <= i && run[j].holder == None :: Coherent(run[j].world))
       <==> AllKeepAddress(w0, run[i].log)
  {
    SerialCoherentIff(w0, run[i].log, diagnoseOnly);
    if CoherentThroughout(w0, run[i].log) {
      forall j | 0 <= j <= i && run[j].holder == None ensures Coherent(run[j].world) {
        LogGrows(w0, run, steps, j, i);
        CoherentAsSerial(w0, run, steps, j);
        assert run[j].log == run[i].log[..|run[j].log|];
      }
    }
    if forall j | 0 <= j <= i && run[j].holder == None :: Coherent(run[j].world) {
      forall k | 0 <= k <= |run[i].log| ensures Coherent(Serial(w0, run[i].log[..k])) {
        var j := FreeAfter(w0, run, steps, i, k);
        CoherentAsSerial(w0, run, steps, j);
      }
    }
  }

  lemma {:induction false} SerialNumbered(w: World, plans: seq<Plan>)
    requires WellNumbered(w)
    ensures WellNumbered(Serial(w, plans))
  {
    if plans != [] {
      SerialNumbered(w, plans[..|plans| - 1]);
      WellNumberedKept(Serial(w, plans[..|plans| - 1]), plans[|plans| - 1]);
    }
  }

  /** World `w` as an attempt with answer True leaves it: its processes are tracked and not told to stop, those before
      it are stopped, the ports and the proxy are its own. */
  predicate ServedBy(w: World, entry: World, plan: Plan) {
    && plan.commands.Some? && w.active == Procs(entry.next, plan.commands.value) && w.reserved == []
    && (forall p | p in w.active :: p !in w.told)
    && (forall p | p in entry.active :: Stopped(w, p))
    && w.socks == Some(plan.newSocks) && w.http == Some(plan.newHttp)
    && (!plan.diagnoseOnly ==> w.proxy == Proxy(true, w.http))
  }

  /** World `w` as an attempt with answer False leaves it: nothing tracked, its processes stopped, the ports as at
      entry, its sockets bound if it failed before releasing them, and the proxy enabled only if disabling had no effect
      and it was enabled before or by the attempt. */
  predicate AbandonedBy(w: World, entry: World, plan: Plan) {
    && w.active == [] && w.socks == entry.socks && w.http == entry.http
    && w.reserved == (if plan.hasStrategy && plan.prepared then [] else [plan.newSocks, plan.newHttp])
    && (forall p | p in Procs(entry.next, Created(plan)) :: Stopped(w, p))
    && (!plan.diagnoseOnly ==>
          (w.proxy.enabled
           <==> !plan.disableWrites && (entry.proxy.enabled || EnablingOf(plan) !in {None, Some(FailedClean)})))
  }

  lemma AttemptPromise(entry: World, base: World, plan: Plan, w: World)
    requires WellNumbered(base) && Covers(entry, base) && Covers(w, Final(base, plan))
    ensures Ok(entry, plan) == Ok(base, plan)
    ensures if Ok(base, plan) then ServedBy(w, entry, plan) else AbandonedBy(w, entry, plan)
  {
    AttemptCovers(entry, base, plan);
    if Ok(base, plan) {
      TrueReturn(base, plan);
    } else {
      FalseReturn(base, plan);
      if !plan.diagnoseOnly {
        EnabledAfterFailureIff(base, plan);
      }
    }
  }

  /** Whatever interleaves with it, an attempt about to release the lock has done what its answer promises. */
  lemma ReleaseKeepsPromise(w0: World, run: seq<System>, steps: seq<Step>, i: nat)
    requires IsRun(w0, run, steps) && i < |run| && run[i].holder.Some? && run[i].holder.value.todo == []
    requires WellNumbered(w0)
    ensures var h, w := run[i].holder.value, run[i].world;
      if Ok(h.entry, h.plan) then ServedBy(w, h.entry, h.plan) else AbandonedBy(w, h.entry, h.plan)
  {
    Serialisable(w0, run, steps, i);
    var h, log := run[i].holder.value, run[i].log;
    SerialNumbered(w0, log[..|log| - 1]);
    AttemptPromise(h.entry, Serial(w0, log[..|log| - 1]), h.plan, run[i].world);
  }

  /** Whenever the lock is free, the world is as the last attempt promised, counted from the attempts before it. */
  lemma LockFreePromise(w0: World, run: seq<System>, steps: seq<Step>, i: nat)
    requires IsRun(w0, run, steps) && i < |run| && run[i].holder == None && run[i].log != [] && WellNumbered(w0)
    ensures var log, w := run[i].log, run[i].world;
      var base, last := Serial(w0, log[..|log| - 1]), log[|log| - 1];
      if Ok(base, last) then ServedBy(w, base, last) else AbandonedBy(w, base, last)
  {
    var log := run[i].log;
    Serialisable(w0, run, steps, i);
    SerialNumbered(w0, log[..|log| - 1]);
    AttemptPromise(Serial(w0, log[..|log| - 1]), Serial(w0, log[..|log| - 1]), log[|log| - 1], run[i].world);
  }

  /** As long as every disabling call takes effect, in every interleaving, whenever the lock is free and a proxy of
      this run is enabled, the last attempt answered True and the processes it started are tracked and not told to
      stop: the proxy is served. */
  lemma EnabledIsServed(w0: World, run: seq<System>, steps: seq<Step>, i: nat)
    requires IsRun(w0, run, steps) && i < |run| && run[i].holder == None
    requires WellNumbered(w0) && w0.proxy.server == None
    requires forall p | p in run[i].log :: !p.diagnoseOnly && p.disableWrites
    requires run[i].world.proxy.enabled && run[i].world.proxy.server.Some?
    ensures var log := run[i].log;
      && log != [] && Ok(Serial(w0, log[..|log| - 1]), log[|log| - 1])
      && ServedBy(run[i].world, Serial(w0, log[..|log| - 1]), log[|log| - 1])
  {
    Serialisable(w0, run, steps, i);
    var log := run[i].log;
    if log != [] {
      LockFreePromise(w0, run, steps, i);
      assert log[|log| - 1] in log;
    }
  }
}
