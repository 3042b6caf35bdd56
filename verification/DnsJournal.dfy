/** The DNS backup journal: set_system_dns and restore_system_dns on Windows, as commands that a crash or an exception
    may cut off anywhere (bypsseng/infrastructure/system_network.py). */
module DnsJournal {
  import opened Sequences

  datatype DnsConfig = Dhcp | Static(servers: seq<string>)

  /** The original_dns entry: absent, not JSON, or the recorded v4 configuration. */
  datatype Backup = Missing | Unreadable | Saved(config: DnsConfig)

  /** The state file. `iface` is "" when no interface is recorded. */
  datatype Journal = Journal(dnsChanged: bool, dnsBackedUp: bool, original: Backup, iface: string, proxyEnabled: bool)

  datatype World = World(journal: Journal, dns: map<string, DnsConfig>)

  /** One atomic effect: a state-file replacement (which may fail silently) or an operating-system command. Idle is a
      command that exits with an error and changes nothing; the code does not look at exit codes. */
  datatype Command =
    | Save(journal: Journal, written: bool)
    | SetDhcp(iface: string)
    | SetStatic(iface: string, ip: string)
    | AddServer(iface: string, ip: string, index: nat)
    | FlushDns
    | Idle

  /** netsh places an added server at the 1-based `index`, or last when the index is 0 or past the end. */
  function Insert(servers: seq<string>, ip: string, index: nat): seq<string> {
    if 1 <= index <= |servers| then servers[..index - 1] + [ip] + servers[index - 1..] else servers + [ip]
  }

  function Configure(w: World, iface: string, c: DnsConfig): World {
    if iface in w.dns then w.(dns := w.dns[iface := c]) else w
  }

  function Apply(w: World, c: Command): World {
    match c
    case Save(journal, written) => if written then w.(journal := journal) else w
    case SetDhcp(iface) => Configure(w, iface, Dhcp)
    case SetStatic(iface, ip) => Configure(w, iface, Static([ip]))
    case AddServer(iface, ip, index) =>
      if iface in w.dns then
        var servers := if w.dns[iface].Static? then w.dns[iface].servers else [];
        Configure(w, iface, Static(Insert(servers, ip, index)))
      else w
    case FlushDns => w
    case Idle => w
  }

  function ApplyAll(w: World, cs: seq<Command>): World
    decreases |cs|
  {
    if cs == [] then w else Apply(ApplyAll(w, cs[..|cs| - 1]), cs[|cs| - 1])
  }

  /** The effect of a program cut off after `cut` commands. */
  function Perform(w: World, program: seq<Command>, cut: nat): World {
    ApplyAll(w, if cut < |program| then program[..cut] else program)
  }

  function Adds(iface: string, servers: seq<string>, indexed: bool): (cs: seq<Command>)
    requires servers != []
    ensures |cs| == |servers| - 1
    ensures forall i | 0 <= i < |cs| :: cs[i] == AddServer(iface, servers[i + 1], if indexed then i + 2 else 0)
  {
    seq(|servers| - 1,
        i requires 0 <= i < |servers| - 1 => AddServer(iface, servers[i + 1], if indexed then i + 2 else 0))
  }

  function Effective(c: Command, idle: bool): Command { if idle then Idle else c }

  /** The commands as they take effect when those at the positions `idle` do not; the first is at position `from`. */
  function Weakened(cs: seq<Command>, idle: set<nat>, from: nat): (r: seq<Command>)
    ensures |r| == |cs| && forall i | 0 <= i < |r| :: r[i] == Effective(cs[i], from + i in idle)
  {
    seq(|cs|, i requires 0 <= i < |cs| => Effective(cs[i], from + i in idle))
  }

  /** What get_current_dns yields: a failed netsh query reads as a static configuration without servers. */
  function ReadDns(w: World, iface: string, readOk: bool): DnsConfig {
    if readOk && iface in w.dns then w.dns[iface] else Static([])
  }

  function Opened(w: World, iface: string, readOk: bool): Journal {
    w.journal.(original := Saved(ReadDns(w, iface, readOk)), iface := iface, dnsChanged := true)
  }

  function Opening(w: World, iface: string, readOk: bool, saveOk: bool): seq<Command> {
    if w.journal.dnsChanged then [] else [Save(Opened(w, iface, readOk), saveOk)]
  }

  /** Sets the first server and adds the others. */
  function Installing(iface: string, servers: seq<string>, indexed: bool): (cs: seq<Command>)
    requires servers != []
    ensures |cs| == |servers| && Configures(cs, iface)
  {
    [SetStatic(iface, servers[0])] + Adds(iface, servers, indexed)
  }

  function Changes(iface: string, servers: seq<string>): (cs: seq<Command>)
    ensures Configures(cs, iface)
  {
    if servers == [] then [] else Installing(iface, servers, false)
  }

  /** Commands that only configure `iface`. */
  predicate Configures(cs: seq<Command>, iface: string) {
    forall c | c in cs :: c.Idle? || ((c.SetDhcp? || c.SetStatic? || c.AddServer?) && c.iface == iface)
  }

  /** set_system_dns; `idle` are the positions of its configuring commands that have no effect. */
  function SetProgram(w: World, servers: seq<string>, iface: string, readOk: bool, saveOk: bool, idle: set<nat>)
    : seq<Command>
  {
    Opening(w, iface, readOk, saveOk) + Weakened(Changes(iface, servers), idle, 0)
  }

  function Target(w: World, defaultIface: string): string {
    if w.journal.iface != "" then w.journal.iface else defaultIface
  }

  function Cleared(j: Journal): Journal {
    j.(dnsChanged := false, dnsBackedUp := false, original := Missing)
  }

  /** The commands that put a recorded configuration back. */
  function Reinstate(iface: string, c: DnsConfig): seq<Command> {
    match c
    case Dhcp => [SetDhcp(iface)]
    case Static(servers) => if servers == [] then [] else Installing(iface, servers, true)
  }

  function Closing(w: World, saveOk: bool): (cs: seq<Command>)
    ensures |cs| == 2
  {
    [FlushDns, Save(Cleared(w.journal), saveOk)]
  }

  /** restore_system_dns; `idle` as above. */
  function RestoreProgram(w: World, defaultIface: string, saveOk: bool, idle: set<nat>): seq<Command> {
    if !w.journal.dnsChanged then []
    else match w.journal.original
      case Saved(c) => Weakened(Reinstate(Target(w, defaultIface), c), idle, 0) + Closing(w, saveOk)
      case _ => [Save(w.journal.(dnsChanged := false, dnsBackedUp := false), saveOk)]
  }

  /** The manager with its state file and the operating system's settings. `budget` is the number of commands left
      before the process dies or a command raises. */
  class SystemNetworkManager {
    var journal: Journal
    var dns: map<string, DnsConfig>
    var budget: nat

    constructor (journal: Journal, dns: map<string, DnsConfig>, budget: nat)
      ensures Snapshot() == World(journal, dns) && this.budget == budget
    {
      this.journal, this.dns, this.budget := journal, dns, budget;
    }

    function Snapshot(): World
      reads this
    {
      World(journal, dns)
    }

    method Do(c: Command) returns (alive: bool)
      modifies this
      ensures alive == (old(budget) > 0)
      ensures alive ==> Snapshot() == Apply(old(Snapshot()), c) && budget == old(budget) - 1
      ensures !alive ==> Snapshot() == old(Snapshot()) && budget == 0
    {
      alive := budget > 0;
      if alive {
        var w := Apply(Snapshot(), c);
        journal, dns, budget := w.journal, w.dns, budget - 1;
      }
    }

    /** Runs a configuring command, which may have no effect. */
    method Configure(c: Command, idle: bool) returns (alive: bool)
      modifies this
      ensures Snapshot() == Perform(old(Snapshot()), [Effective(c, idle)], old(budget))
      ensures alive == (old(budget) > 0)
      ensures budget == if alive then old(budget) - 1 else 0
    {
      PerformOne(Snapshot(), Effective(c, idle), budget);
      alive := Do(Effective(c, idle));
    }

    /** Runs the additions after the first server was set. */
    method AddAll(iface: string, servers: seq<string>, indexed: bool, idle: set<nat>) returns (alive: bool)
      requires servers != []
      modifies this
      ensures Snapshot() == Perform(old(Snapshot()), Weakened(Adds(iface, servers, indexed), idle, 1), old(budget))
      ensures alive == (old(budget) >= |servers| - 1)
      ensures budget == if alive then old(budget) - (|servers| - 1) else 0
    {
      ghost var adds := Weakened(Adds(iface, servers, indexed), idle, 1);
      for i := 1 to |servers|
        invariant Snapshot() == ApplyAll(old(Snapshot()), adds[..i - 1])
        invariant budget == old(budget) - (i - 1)
      {
        var add := AddServer(iface, servers[i], if indexed then i + 1 else 0);
        alive := Do(Effective(add, i in idle));
        if !alive { return; }
        assert adds[..i][..i - 1] == adds[..i - 1];
      }
      assert adds[..|servers| - 1] == adds;
      alive := true;
    }

    method SetSystemDns(servers: seq<string>, iface: string, readOk: bool, saveOk: bool, idle: set<nat>)
      returns (done: bool)
      modifies this
      ensures var program := SetProgram(old(Snapshot()), servers, iface, readOk, saveOk, idle);
        Snapshot() == Perform(old(Snapshot()), program, old(budget)) && done == (old(budget) >= |program|)
    {
      ghost var w0, n0 := Snapshot(), budget;
      ghost var opening, changes := Opening(w0, iface, readOk, saveOk), Weakened(Changes(iface, servers), idle, 0);
      PerformConcat(w0, opening, changes, n0);
      done := true;
      if !journal.dnsChanged {
        PerformOne(w0, Save(Opened(w0, iface, readOk), saveOk), n0);
        done := Do(Save(Opened(Snapshot(), iface, readOk), saveOk));
        if !done { return; }
      }
      assert Snapshot() == ApplyAll(w0, opening);
      if servers != [] {
        done := InstallStatic(iface, servers, false, idle);
      }
    }

    /** Sets the first server and adds the others. */
    method InstallStatic(iface: string, servers: seq<string>, indexed: bool, idle: set<nat>) returns (done: bool)
      requires servers != []
      modifies this
      ensures var program := Weakened(Installing(iface, servers, indexed), idle, 0);
        Snapshot() == Perform(old(Snapshot()), program, old(budget))
      ensures done == (old(budget) >= |servers|)
      ensures budget == if done then old(budget) - |servers| else 0
    {
      WeakenedInstalling(iface, servers, indexed, idle);
      PerformConcat(Snapshot(), [Effective(SetStatic(iface, servers[0]), 0 in idle)],
                    Weakened(Adds(iface, servers, indexed), idle, 1), budget);
      PerformOne(Snapshot(), Effective(SetStatic(iface, servers[0]), 0 in idle), budget);
      done := Configure(SetStatic(iface, servers[0]), 0 in idle);
      if !done { return; }
      done := AddAll(iface, servers, indexed, idle);
    }

    method RestoreSystemDns(defaultIface: string, saveOk: bool, idle: set<nat>) returns (done: bool)
      modifies this
      ensures var program := RestoreProgram(old(Snapshot()), defaultIface, saveOk, idle);
        Snapshot() == Perform(old(Snapshot()), program, old(budget)) && done == (old(budget) >= |program|)
    {
      if !journal.dnsChanged { return true; }
      if !journal.original.Saved? {
        PerformOne(Snapshot(), Save(journal.(dnsChanged := false, dnsBackedUp := false), saveOk), budget);
        done := Do(Save(journal.(dnsChanged := false, dnsBackedUp := false), saveOk));
        return;
      }
      var iface, c := Target(Snapshot(), defaultIface), journal.original.config;
      ghost var w0, n0 := Snapshot(), budget;
      ghost var body, closing := Weakened(Reinstate(iface, c), idle, 0), Closing(w0, saveOk);
      done := Reinstall(iface, c, idle);
      PerformConcat(w0, body, closing, n0);
      if !done { return; }
      ReinstateKeepsJournal(w0, iface, c, idle, n0);
      done := Close(saveOk);
    }

    method Close(saveOk: bool) returns (done: bool)
      modifies this
      ensures Snapshot() == Perform(old(Snapshot()), Closing(old(Snapshot()), saveOk), old(budget))
      ensures done == (old(budget) >= 2)
    {
      ghost var w0, n0 := Snapshot(), budget;
      var save := Save(Cleared(journal), saveOk);
      assert Closing(w0, saveOk) == [FlushDns] + [save];
      PerformConcat(w0, [FlushDns], [save], n0);
      PerformOne(w0, FlushDns, n0);
      done := Do(FlushDns);
      if !done { return; }
      PerformOne(w0, save, budget);
      done := Do(save);
    }

    method Reinstall(iface: string, c: DnsConfig, idle: set<nat>) returns (done: bool)
      modifies this
      ensures Snapshot() == Perform(old(Snapshot()), Weakened(Reinstate(iface, c), idle, 0), old(budget))
      ensures done == (old(budget) >= |Reinstate(iface, c)|)
      ensures budget == if done then old(budget) - |Reinstate(iface, c)| else 0
    {
      if c.Dhcp? {
        assert Weakened([SetDhcp(iface)], idle, 0) == [Effective(SetDhcp(iface), 0 in idle)];
        done := Configure(SetDhcp(iface), 0 in idle);
      } else if c.servers != [] {
        done := InstallStatic(iface, c.servers, true, idle);
      } else {
        done := true;
      }
    }
  }

  lemma WeakenedInstalling(iface: string, servers: seq<string>, indexed: bool, idle: set<nat>)
    requires servers != []
    ensures Weakened(Installing(iface, servers, indexed), idle, 0)
         == [Effective(SetStatic(iface, servers[0]), 0 in idle)] + Weakened(Adds(iface, servers, indexed), idle, 1)
  {
  }

  /** An open journal whose backup is missing or not JSON: a restore changes no setting, and once its one save is
      written every later restore does nothing, so the settings from before stay lost. */
  lemma BackupUnusable(w: World, defaultIface: string, saveOk: bool, idle: set<nat>, cut: nat)
    requires w.journal.dnsChanged && !w.journal.original.Saved?
    ensures var f := Perform(w, RestoreProgram(w, defaultIface, saveOk, idle), cut);
      && f.dns == w.dns
      && f.journal == (if saveOk && cut > 0 then w.journal.(dnsChanged := false, dnsBackedUp := false) else w.journal)
      && (saveOk && cut > 0 ==> forall iface :: RestoreProgram(f, iface, saveOk, idle) == [])
  {
    var program := RestoreProgram(w, defaultIface, saveOk, idle);
    assert program[..0] == [] && [program[0]][..0] == [];
    assert ApplyAll(w, program) == Apply(ApplyAll(w, program[..0]), program[0]);
  }

  /** Only the first set since the journal was closed records anything: the interface and what the query read of it.
      It does so before it changes a setting, and an empty list changes none. */
  lemma SetOpensOnce(w: World, servers: seq<string>, iface: string, readOk: bool, saveOk: bool, idle: set<nat>,
                     cut: nat)
    ensures var f := Perform(w, SetProgram(w, servers, iface, readOk, saveOk, idle), cut);
      var seen := if readOk && iface in w.dns then w.dns[iface] else Static([]);
      && f.journal == (if w.journal.dnsChanged || !saveOk || cut == 0 then w.journal
                       else w.journal.(dnsChanged := true, iface := iface, original := Saved(seen)))
      && ((!w.journal.dnsChanged && cut <= 1) || servers == [] ==> f.dns == w.dns)
  {
    var opening, changes := Opening(w, iface, readOk, saveOk), Weakened(Changes(iface, servers), idle, 0);
    PerformConcat(w, opening, changes, cut);
    WeakenedConfigures(Changes(iface, servers), iface, idle);
    if w.journal.dnsChanged {
      LocalCut(w, changes, iface, cut);
      assert opening + changes == changes;
    } else {
      PerformOne(w, opening[0], cut);
      var v := Perform(w, opening, cut);
      if cut > 1 {
        LocalCut(v, changes, iface, cut - 1);
      } else {
        assert changes[..0] == [];
      }
    }
  }

  lemma LocalCut(w: World, cs: seq<Command>, iface: string, cut: nat)
    requires Configures(cs, iface)
    ensures OnlyDiffers(w, Perform(w, cs, cut), iface)
  {
    var done := if cut < |cs| then cs[..cut] else cs;
    assert forall c | c in done :: c in cs;
    ConfiguringIsLocal(w, done, iface);
  }

  /** Without idle positions nothing is weakened. */
  lemma AllEffective(cs: seq<Command>, idle: set<nat>, from: nat)
    requires forall k | from <= k < from + |cs| :: k !in idle
    ensures Weakened(cs, idle, from) == cs
  {
    assert forall i | 0 <= i < |cs| :: Weakened(cs, idle, from)[i] == cs[i];
  }

  lemma WeakenedConfigures(cs: seq<Command>, iface: string, idle: set<nat>)
    requires Configures(cs, iface)
    ensures Configures(Weakened(cs, idle, 0), iface)
  {
    forall c | c in Weakened(cs, idle, 0)
      ensures c.Idle? || ((c.SetDhcp? || c.SetStatic? || c.AddServer?) && c.iface == iface)
    {
      var i :| 0 <= i < |cs| && Weakened(cs, idle, 0)[i] == c;
      assert cs[i] in cs;
    }
  }

  lemma PerformOne(w: World, c: Command, cut: nat)
    ensures Perform(w, [c], cut) == if cut == 0 then w else Apply(w, c)
  {
    assert [c][..0] == [];
    assert ApplyAll(w, [c]) == Apply(ApplyAll(w, [c][..0]), c);
  }

  lemma {:induction false} ApplyAllConcat(w: World, a: seq<Command>, b: seq<Command>)
    ensures ApplyAll(w, a + b) == ApplyAll(ApplyAll(w, a), b)
    decreases |b|
  {
    if b == [] {
      assert a + b == a;
    } else {
      assert (a + b)[..|a + b| - 1] == a + b[..|b| - 1];
      ApplyAllConcat(w, a, b[..|b| - 1]);
    }
  }

  lemma PerformConcat(w: World, a: seq<Command>, b: seq<Command>, cut: nat)
    ensures Perform(w, a + b, cut)
         == if cut < |a| then Perform(w, a, cut) else Perform(ApplyAll(w, a), b, cut - |a|)
  {
    if cut < |a| {
      assert (a + b)[..cut] == a[..cut];
    } else if cut < |a + b| {
      assert (a + b)[..cut] == a + b[..cut - |a|];
      ApplyAllConcat(w, a, b[..cut - |a|]);
    } else {
      ApplyAllConcat(w, a, b);
    }
  }

  /** The worlds that differ from `w` in the configuration of `iface` alone. */
  ghost predicate OnlyDiffers(w: World, v: World, iface: string) {
    v.journal == w.journal && v.dns.Keys == w.dns.Keys && forall i | i in w.dns && i != iface :: v.dns[i] == w.dns[i]
  }

  lemma {:induction false} ConfiguringIsLocal(w: World, cs: seq<Command>, iface: string)
    requires Configures(cs, iface)
    ensures OnlyDiffers(w, ApplyAll(w, cs), iface)
    decreases |cs|
  {
    if cs != [] {
      assert cs[|cs| - 1] in cs && forall c | c in cs[..|cs| - 1] :: c in cs;
      ConfiguringIsLocal(w, cs[..|cs| - 1], iface);
    }
  }

  lemma ReinstateKeepsJournal(w: World, iface: string, c: DnsConfig, idle: set<nat>, cut: nat)
    ensures OnlyDiffers(w, Perform(w, Weakened(Reinstate(iface, c), idle, 0), cut), iface)
  {
    var cs := Weakened(Reinstate(iface, c), idle, 0);
    assert Configures(Reinstate(iface, c), iface);
    WeakenedConfigures(Reinstate(iface, c), iface, idle);
    ConfiguringIsLocal(w, if cut < |cs| then cs[..cut] else cs, iface);
  }

  lemma ApplyNext(w: World, cs: seq<Command>, n: nat)
    requires n < |cs|
    ensures ApplyAll(w, cs[..n + 1]) == Apply(ApplyAll(w, cs[..n]), cs[n])
  {
    assert cs[..n + 1][..n] == cs[..n];
  }

  lemma InsertNext(servers: seq<string>, n: nat, indexed: bool)
    requires 0 < n < |servers|
    ensures Insert(servers[..n], servers[n], if indexed then n + 1 else 0) == servers[..n + 1]
  {
  }

  /** Additions, indexed or not, append in order. */
  lemma {:induction false} AddsInOrder(w: World, iface: string, servers: seq<string>, indexed: bool, n: nat)
    requires servers != [] && n < |servers| && iface in w.dns && w.dns[iface] == Static(servers[..1])
    ensures ApplyAll(w, Adds(iface, servers, indexed)[..n]) == w.(dns := w.dns[iface := Static(servers[..n + 1])])
    decreases n
  {
    if n > 0 {
      AddsInOrder(w, iface, servers, indexed, n - 1);
      ApplyNext(w, Adds(iface, servers, indexed), n - 1);
      InsertNext(servers, n, indexed);
    }
  }

  /** Setting the first server and adding the others gives the whole list, whatever was configured before. */
  lemma {:induction false} StaticInstalled(w: World, iface: string, servers: seq<string>, indexed: bool)
    requires servers != [] && iface in w.dns
    ensures ApplyAll(w, Installing(iface, servers, indexed)) == w.(dns := w.dns[iface := Static(servers)])
  {
    var w1 := w.(dns := w.dns[iface := Static([servers[0]])]);
    ApplyAllConcat(w, [SetStatic(iface, servers[0])], Adds(iface, servers, indexed));
    PerformOne(w, SetStatic(iface, servers[0]), 1);
    OthersAdded(w1, iface, servers, indexed);
    assert w1.dns[iface := Static(servers)] == w.dns[iface := Static(servers)];
  }

  lemma OthersAdded(w: World, iface: string, servers: seq<string>, indexed: bool)
    requires servers != [] && iface in w.dns && w.dns[iface] == Static([servers[0]])
    ensures ApplyAll(w, Adds(iface, servers, indexed)) == w.(dns := w.dns[iface := Static(servers)])
  {
    var n, adds := |servers| - 1, Adds(iface, servers, indexed);
    assert servers[..1] == [servers[0]] && servers[..n + 1] == servers && adds[..n] == adds;
    AddsInOrder(w, iface, servers, indexed, n);
  }

  /** A configuration other than an empty static list is reinstated exactly; an empty list issues no command. */
  lemma {:induction false} ReinstateExact(w: World, iface: string, c: DnsConfig)
    requires iface in w.dns
    ensures ApplyAll(w, Reinstate(iface, c)) == if c == Static([]) then w else w.(dns := w.dns[iface := c])
  {
    if c.Dhcp? {
      PerformOne(w, SetDhcp(iface), 1);
    } else if c.servers != [] {
      StaticInstalled(w, iface, c.servers, true);
    }
  }

  /** An operation on the settings; `cut` is where it is interrupted, if before its end, and `idle` are the positions
      of its configuring commands that have no effect. */
  datatype Op =
    | Set(servers: seq<string>, iface: string, readOk: bool, saveOk: bool, idle: set<nat>, cut: nat)
    | Restore(defaultIface: string, saveOk: bool, idle: set<nat>, cut: nat)
    | SetProxy(enable: bool, saveOk: bool)

  function ProgramOf(w: World, op: Op): seq<Command> {
    if op.Set? then SetProgram(w, op.servers, op.iface, op.readOk, op.saveOk, op.idle)
    else if op.Restore? then RestoreProgram(w, op.defaultIface, op.saveOk, op.idle)
    else [Save(w.journal.(proxyEnabled := op.enable), op.saveOk)]
  }

  function Step(w: World, op: Op): World {
    var program := ProgramOf(w, op);
    Perform(w, program, if op.SetProxy? then |program| else op.cut)
  }

  function Run(w: World, ops: seq<Op>): World
    decreases |ops|
  {
    if ops == [] then w else Step(Run(w, ops[..|ops| - 1]), ops[|ops| - 1])
  }

  /** The journal and the settings always allow `original` to be put back: untouched settings while the journal is
      closed, and an exact backup of the one changed interface while it is open. */
  ghost predicate Recoverable(w: World, original: map<string, DnsConfig>) {
    if !w.journal.dnsChanged then w.dns == original
    else
      var i := w.journal.iface;
      && i != "" && i in original && original[i] != Static([]) && w.journal.original == Saved(original[i])
      && w.dns.Keys == original.Keys && forall k | k in original && k != i :: w.dns[k] == original[k]
  }

  /** A restore of `original` has all its commands take effect. */
  ghost predicate Obeyed(w: World, original: map<string, DnsConfig>, op: Op)
    requires op.Restore? && Recoverable(w, original)
  {
    w.journal.dnsChanged ==>
      forall k: nat | k < |Reinstate(w.journal.iface, original[w.journal.iface])| :: k !in op.idle
  }

  /** The servers at the idle positions from `from` on. */
  function AtIdle(servers: seq<string>, idle: set<nat>, from: nat): seq<string>
    requires from <= |servers|
    decreases |servers| - from
  {
    if from == |servers| then []
    else (if from in idle then [servers[from]] else []) + AtIdle(servers, idle, from + 1)
  }

  /** A completed restore puts `original` back although some of its commands have no effect: the first one takes effect
      and so do all others, or it does not and the interface already has exactly what the idle commands would set. */
  ghost predicate PutsBack(w: World, original: map<string, DnsConfig>, op: Op)
    requires op.Restore? && Recoverable(w, original)
  {
    w.journal.dnsChanged ==>
      var i := w.journal.iface;
      match original[i]
      case Dhcp => 0 !in op.idle || w.dns[i] == Dhcp
      case Static(servers) =>
        if 0 !in op.idle then forall k: nat | k < |servers| :: k !in op.idle
        else w.dns[i] == Static(AtIdle(servers, op.idle, 0))
  }

  /** What the environment must grant an operation: opening the journal reads a real configuration and saves it,
      further changes concern the recorded interface, and a restore that runs to its saved end puts the original back.
      Commands of a set may have no effect, and restores may fail to save. */
  ghost predicate Granted(w: World, original: map<string, DnsConfig>, op: Op) {
    && Recoverable(w, original)
    && (op.Set? ==>
          if w.journal.dnsChanged then op.iface == w.journal.iface
          else op.iface != "" && op.iface in w.dns && w.dns[op.iface] != Static([]) && op.readOk && op.saveOk)
    && (op.Restore? && op.saveOk && op.cut >= |ProgramOf(w, op)| ==> PutsBack(w, original, op))
  }

  ghost predicate AllGranted(w: World, ops: seq<Op>)
    decreases |ops|
  {
    ops == [] || (AllGranted(w, ops[..|ops| - 1]) && Granted(Run(w, ops[..|ops| - 1]), w.dns, ops[|ops| - 1]))
  }

  lemma OpeningKeepsRecoverable(w: World, original: map<string, DnsConfig>, op: Op)
    requires op.Set? && Granted(w, original, op)
    ensures var v := ApplyAll(w, Opening(w, op.iface, op.readOk, op.saveOk));
      Recoverable(v, original) && v.journal.dnsChanged && v.journal.iface == op.iface
  {
    if !w.journal.dnsChanged {
      PerformOne(w, Save(Opened(w, op.iface, op.readOk), op.saveOk), 1);
    }
  }

  lemma ChangesKeepRecoverable(w: World, original: map<string, DnsConfig>, changes: seq<Command>, cut: nat)
    requires Recoverable(w, original) && w.journal.dnsChanged && Configures(changes, w.journal.iface)
    ensures Recoverable(Perform(w, changes, cut), original)
  {
    ConfiguringIsLocal(w, if cut < |changes| then changes[..cut] else changes, w.journal.iface);
  }

  lemma SetKeepsRecoverable(w: World, original: map<string, DnsConfig>, op: Op)
    requires op.Set? && Granted(w, original, op)
    ensures Recoverable(Step(w, op), original)
  {
    var opening, changes := Opening(w, op.iface, op.readOk, op.saveOk), Changes(op.iface, op.servers);
    SetIs(w, op);
    if op.cut >= |opening| {
      OpeningKeepsRecoverable(w, original, op);
      WeakenedConfigures(changes, op.iface, op.idle);
      ChangesKeepRecoverable(ApplyAll(w, opening), original, Weakened(changes, op.idle, 0), op.cut - |opening|);
    }
  }

  /** A set that is cut before its first save changes nothing; otherwise its changes follow the opening save. */
  lemma {:induction false} SetIs(w: World, op: Op)
    requires op.Set?
    ensures var opening := Opening(w, op.iface, op.readOk, op.saveOk);
      Step(w, op) == if op.cut < |opening| then w
                     else Perform(ApplyAll(w, opening), Weakened(Changes(op.iface, op.servers), op.idle, 0),
                                  op.cut - |opening|)
  {
    var opening := Opening(w, op.iface, op.readOk, op.saveOk);
    var changes := Weakened(Changes(op.iface, op.servers), op.idle, 0);
    OpeningThen(w, opening, changes, op.cut);
    assert ProgramOf(w, op) == opening + changes;
    assert Step(w, op) == Perform(w, opening + changes, op.cut);
  }

  lemma OpeningThen(w: World, opening: seq<Command>, rest: seq<Command>, cut: nat)
    requires |opening| <= 1
    ensures Perform(w, opening + rest, cut)
         == if cut < |opening| then w else Perform(ApplyAll(w, opening), rest, cut - |opening|)
  {
    PerformConcat(w, opening, rest, cut);
    if cut < |opening| {
      assert opening[..cut] == [];
    }
  }

  /** The world after a restore of an open journal: after the configuring commands, and after the closing save. */
  lemma RestoreIs(w: World, op: Op)
    requires op.Restore? && w.journal.dnsChanged && w.journal.original.Saved?
    ensures var body := Weakened(Reinstate(Target(w, op.defaultIface), w.journal.original.config), op.idle, 0);
      var v := Step(w, op);
      && v.dns == Perform(w, body, op.cut).dns
      && v.journal == if op.cut >= |body| + 2 && op.saveOk then Cleared(w.journal) else w.journal
  {
    var i, c := Target(w, op.defaultIface), w.journal.original.config;
    var body, closing := Weakened(Reinstate(i, c), op.idle, 0), Closing(w, op.saveOk);
    PerformConcat(w, body, closing, op.cut);
    ReinstateKeepsJournal(w, i, c, op.idle, op.cut);
    if op.cut >= |body| {
      var w1 := ApplyAll(w, body);
      assert closing[..1] == [FlushDns] && closing[..0] == [];
      PerformOne(w1, FlushDns, 1);
      assert ApplyAll(w1, closing) == Apply(ApplyAll(w1, closing[..1]), closing[1]);
    }
  }

  /** A restore flushes the resolver's cache after its last change of a setting and before its save, which closes the
      journal, drops the backup and keeps the rest; cut off before that it leaves the journal open. */
  lemma RestoreCloses(w: World, op: Op)
    requires op.Restore? && w.journal.dnsChanged && w.journal.original.Saved?
    ensures var program, n := ProgramOf(w, op), |ProgramOf(w, op)|;
      && n >= 2 && program[n - 2] == FlushDns && program[n - 1].Save?
      && Configures(program[..n - 2], if w.journal.iface != "" then w.journal.iface else op.defaultIface)
      && Step(w, op).journal
         == if op.cut >= n && op.saveOk
            then w.journal.(dnsChanged := false, dnsBackedUp := false, original := Missing) else w.journal
  {
    var iface, c := Target(w, op.defaultIface), w.journal.original.config;
    WeakenedConfigures(Reinstate(iface, c), iface, op.idle);
    RestoreIs(w, op);
    BeforeLastTwo(Weakened(Reinstate(iface, c), op.idle, 0), Closing(w, op.saveOk));
  }

  lemma BeforeLastTwo(body: seq<Command>, closing: seq<Command>)
    requires |closing| == 2
    ensures var all := body + closing;
      var n := |all|;
      all[..n - 2] == body && all[n - 2] == closing[0] && all[n - 1] == closing[1]
  {
  }

  /** The list being installed when the commands before position `m` are through, if it is to end as `servers`. */
  function Halfway(servers: seq<string>, idle: set<nat>, m: nat): seq<string>
    requires m <= |servers|
  {
    servers[..m] + AtIdle(servers, idle, m)
  }

  lemma HalfwayIdle(servers: seq<string>, idle: set<nat>, m: nat)
    requires m < |servers| && m in idle
    ensures Halfway(servers, idle, m + 1) == Halfway(servers, idle, m)
  {
    NextPrefix(servers, m);
    Regroup(servers[..m], [servers[m]], AtIdle(servers, idle, m + 1));
  }

  lemma NextPrefix(servers: seq<string>, m: nat)
    requires m < |servers|
    ensures servers[..m + 1] == servers[..m] + [servers[m]]
  {
  }

  /** An addition leads to the next list exactly from the list before it. */
  lemma InsertReaches(servers: seq<string>, idle: set<nat>, m: nat, list: seq<string>)
    requires m < |servers| && m !in idle
    ensures Insert(list, servers[m], m + 1) == Halfway(servers, idle, m + 1) <==> list == Halfway(servers, idle, m)
  {
    NextPrefix(servers, m);
    assert AtIdle(servers, idle, m) == [] + AtIdle(servers, idle, m + 1) == AtIdle(servers, idle, m + 1);
    InsertSplits(servers[..m], servers[m], AtIdle(servers, idle, m + 1), list);
  }

  lemma InsertSplits(front: seq<string>, x: string, rest: seq<string>, list: seq<string>)
    ensures Insert(list, x, |front| + 1) == front + [x] + rest <==> list == front + rest
  {
    var r, n := Insert(list, x, |front| + 1), |front|;
    if r == front + [x] + rest {
      if n < |list| {
        assert r[..n] == list[..n] == front && r[n + 1..] == list[n..] == rest;
        assert list == list[..n] + list[n..];
      } else {
        assert |r| == |list| + 1 && r[..|list|] == list;
        assert |list| == n && rest == [];
      }
    }
  }

  function ListOf(c: DnsConfig): seq<string> { match c case Dhcp => [] case Static(servers) => servers }

  /** The additions end as `servers` exactly from the list that lacks just what they add. */
  lemma {:induction false} AddsReach(w: World, iface: string, servers: seq<string>, idle: set<nat>, m: nat)
    requires 1 <= m <= |servers| && iface in w.dns
    ensures var v := ApplyAll(w, Weakened(Adds(iface, servers, true), idle, 1)[..m - 1]);
      && iface in v.dns && (w.dns[iface].Static? ==> v.dns[iface].Static?)
      && (ListOf(v.dns[iface]) == Halfway(servers, idle, m) <==> ListOf(w.dns[iface]) == Halfway(servers, idle, 1))
    decreases m
  {
    if m > 1 {
      AddsReach(w, iface, servers, idle, m - 1);
      var adds := Weakened(Adds(iface, servers, true), idle, 1);
      ApplyNext(w, adds, m - 2);
      OneAddReaches(ApplyAll(w, adds[..m - 2]), iface, servers, idle, m - 1);
    }
  }

  lemma OneAddReaches(w: World, iface: string, servers: seq<string>, idle: set<nat>, m: nat)
    requires m < |servers| && iface in w.dns
    ensures var v := Apply(w, Effective(AddServer(iface, servers[m], m + 1), m in idle));
      && iface in v.dns && (w.dns[iface].Static? ==> v.dns[iface].Static?)
      && (ListOf(v.dns[iface]) == Halfway(servers, idle, m + 1) <==> ListOf(w.dns[iface]) == Halfway(servers, idle, m))
  {
    if m in idle {
      HalfwayIdle(servers, idle, m);
    } else {
      InsertReaches(servers, idle, m, ListOf(w.dns[iface]));
    }
  }

  lemma AllAddsReach(w: World, iface: string, servers: seq<string>, idle: set<nat>)
    requires servers != [] && iface in w.dns
    ensures var v := ApplyAll(w, Weakened(Adds(iface, servers, true), idle, 1));
      iface in v.dns
      && (v.dns[iface] == Static(servers)
          <==> w.dns[iface] == Static([servers[0]] + AtIdle(servers, idle, 1)))
  {
    var n, adds := |servers|, Weakened(Adds(iface, servers, true), idle, 1);
    AddsReach(w, iface, servers, idle, n);
    assert adds[..n - 1] == adds && servers[..1] == [servers[0]] && servers[..n] == servers;
    assert Halfway(servers, idle, n) == servers;
  }

  lemma {:induction false} AtIdleEmptyIff(servers: seq<string>, idle: set<nat>, from: nat)
    requires from <= |servers|
    ensures AtIdle(servers, idle, from) == [] <==> forall k | from <= k < |servers| :: k !in idle
    decreases |servers| - from
  {
    if from < |servers| {
      AtIdleEmptyIff(servers, idle, from + 1);
    }
  }

  lemma OnlyFirstIff(servers: seq<string>, idle: set<nat>)
    requires servers != [] && 0 !in idle
    ensures [servers[0]] == [servers[0]] + AtIdle(servers, idle, 1) <==> forall k: nat | k < |servers| :: k !in idle
  {
    AtIdleEmptyIff(servers, idle, 1);
    assert |[servers[0]] + AtIdle(servers, idle, 1)| == 1 + |AtIdle(servers, idle, 1)|;
    if AtIdle(servers, idle, 1) == [] {
      assert [servers[0]] + [] == [servers[0]];
    }
  }

  lemma InstallingIs(w: World, iface: string, servers: seq<string>, idle: set<nat>)
    requires servers != [] && iface in w.dns
    ensures var w1 := if 0 in idle then w else w.(dns := w.dns[iface := Static([servers[0]])]);
      ApplyAll(w, Weakened(Installing(iface, servers, true), idle, 0))
      == ApplyAll(w1, Weakened(Adds(iface, servers, true), idle, 1))
  {
    var first := Effective(SetStatic(iface, servers[0]), 0 in idle);
    WeakenedInstalling(iface, servers, true, idle);
    ApplyAllConcat(w, [first], Weakened(Adds(iface, servers, true), idle, 1));
    PerformOne(w, first, 1);
  }

  /** What installing a list leaves, whichever of its commands have no effect. */
  lemma {:induction false} InstalledIff(w: World, iface: string, servers: seq<string>, idle: set<nat>)
    requires servers != [] && iface in w.dns
    ensures var v := ApplyAll(w, Weakened(Installing(iface, servers, true), idle, 0));
      iface in v.dns
      && (v.dns[iface] == Static(servers)
          <==> if 0 !in idle then forall k: nat | k < |servers| :: k !in idle
               else w.dns[iface] == Static(AtIdle(servers, idle, 0)))
  {
    InstallingIs(w, iface, servers, idle);
    if 0 in idle {
      AllAddsReach(w, iface, servers, idle);
    } else {
      AllAddsReach(w.(dns := w.dns[iface := Static([servers[0]])]), iface, servers, idle);
      OnlyFirstIff(servers, idle);
    }
  }

  lemma EqualBut(m: map<string, DnsConfig>, n: map<string, DnsConfig>, i: string)
    requires i in n && m.Keys == n.Keys && forall k | k in n && k != i :: m[k] == n[k]
    ensures m == n <==> m[i] == n[i]
  {
    assert forall k | k in n && m[i] == n[i] :: m[k] == n[k];
  }

  /** A completed restore puts `original` back exactly under that condition. */
  lemma PutBackIff(w: World, original: map<string, DnsConfig>, op: Op)
    requires op.Restore? && Recoverable(w, original) && op.cut >= |ProgramOf(w, op)|
    ensures Step(w, op).dns == original <==> PutsBack(w, original, op)
  {
    if w.journal.dnsChanged {
      var i, c := w.journal.iface, w.journal.original.config;
      RestoreIs(w, op);
      ReinstateKeepsJournal(w, i, c, op.idle, op.cut);
      EqualBut(Step(w, op).dns, original, i);
      if c.Dhcp? {
        assert Weakened([SetDhcp(i)], op.idle, 0) == [Effective(SetDhcp(i), 0 in op.idle)];
        PerformOne(w, Effective(SetDhcp(i), 0 in op.idle), 1);
      } else {
        InstalledIff(w, i, c.servers, op.idle);
      }
    }
  }

  lemma ObeyedPutsBack(w: World, original: map<string, DnsConfig>, op: Op)
    requires op.Restore? && Recoverable(w, original) && Obeyed(w, original, op)
    ensures PutsBack(w, original, op)
  {
  }

  /** A granted restore keeps the settings recoverable wherever it is cut; run to its end it puts `original` back
      exactly when PutsBack says so, in particular when it is obeyed. */
  lemma RestoreRecovers(w: World, original: map<string, DnsConfig>, op: Op)
    requires op.Restore? && Recoverable(w, original)
    ensures Granted(w, original, op) ==> Recoverable(Step(w, op), original)
    ensures op.cut >= |ProgramOf(w, op)| ==> (Step(w, op).dns == original <==> PutsBack(w, original, op))
    ensures op.cut >= |ProgramOf(w, op)| && Obeyed(w, original, op) ==> Step(w, op).dns == original
    ensures op.cut >= |ProgramOf(w, op)| && op.saveOk ==> !Step(w, op).journal.dnsChanged
  {
    if op.cut >= |ProgramOf(w, op)| {
      PutBackIff(w, original, op);
      if Obeyed(w, original, op) {
        ObeyedPutsBack(w, original, op);
      }
    }
    if w.journal.dnsChanged {
      RestoreIs(w, op);
      ReinstateKeepsJournal(w, w.journal.iface, w.journal.original.config, op.idle, op.cut);
    }
  }

  lemma StepKeepsRecoverable(w: World, original: map<string, DnsConfig>, op: Op)
    requires Granted(w, original, op)
    ensures Recoverable(Step(w, op), original)
  {
    match op
    case Set(_, _, _, _, _, _) => SetKeepsRecoverable(w, original, op);
    case Restore(_, _, _, _) => RestoreRecovers(w, original, op);
    case SetProxy(enable, saveOk) => PerformOne(w, Save(w.journal.(proxyEnabled := enable), saveOk), 1);
  }

  lemma {:induction false} RunKeepsRecoverable(w: World, ops: seq<Op>)
    requires !w.journal.dnsChanged && AllGranted(w, ops)
    ensures Recoverable(Run(w, ops), w.dns)
    decreases |ops|
  {
    if ops != [] {
      RunKeepsRecoverable(w, ops[..|ops| - 1]);
      StepKeepsRecoverable(Run(w, ops[..|ops| - 1]), w.dns, ops[|ops| - 1]);
    }
  }

  /** Crash safety: after any run of operations, each cut anywhere, the next restore that completes leaves the settings
      the run started from exactly when it puts them back, in particular when all its commands take effect, and closes
      the journal when its save succeeds. */
  lemma {:induction false} CrashSafe(w: World, ops: seq<Op>, op: Op)
    requires !w.journal.dnsChanged && AllGranted(w, ops)
    requires op.Restore? && op.cut >= |ProgramOf(Run(w, ops), op)|
    ensures Recoverable(Run(w, ops), w.dns)
    ensures Step(Run(w, ops), op).dns == w.dns <==> PutsBack(Run(w, ops), w.dns, op)
    ensures Obeyed(Run(w, ops), w.dns, op) ==> Step(Run(w, ops), op).dns == w.dns
    ensures op.saveOk ==> !Step(Run(w, ops), op).journal.dnsChanged
  {
    RunKeepsRecoverable(w, ops);
    RestoreRecovers(Run(w, ops), w.dns, op);
  }

  /** A completed and saved restore closes the journal whatever happened, and keeps the settings recoverable exactly
      when it puts them back. */
  lemma BackupKeptIff(w: World, original: map<string, DnsConfig>, op: Op)
    requires op.Restore? && Recoverable(w, original) && w.journal.dnsChanged
    requires op.cut >= |ProgramOf(w, op)| && op.saveOk
    ensures !Step(w, op).journal.dnsChanged
    ensures Recoverable(Step(w, op), original) <==> PutsBack(w, original, op)
  {
    RestoreRecovers(w, original, op);
  }

  /** If its first command takes effect, it loses the backup exactly when some later one does not. */
  lemma BackupLostIff(w: World, original: map<string, DnsConfig>, op: Op)
    requires op.Restore? && Recoverable(w, original) && w.journal.dnsChanged
    requires op.cut >= |ProgramOf(w, op)| && op.saveOk && 0 !in op.idle
    ensures !Step(w, op).journal.dnsChanged
    ensures !Recoverable(Step(w, op), original) <==> !Obeyed(w, original, op)
  {
    BackupKeptIff(w, original, op);
  }

  /** A restore whose second server is not added closes the journal with one server missing. */
  lemma SecondServerLost()
    ensures var servers := ["1.1.1.1", "8.8.8.8"];
      var w := World(Journal(true, false, Saved(Static(servers)), "Wi-Fi", false), map["Wi-Fi" := Static(["9.9.9.9"])]);
      var v := Step(w, Restore("Wi-Fi", true, {1}, 4));
      !v.journal.dnsChanged && v.dns != map["Wi-Fi" := Static(servers)]
  {
    var servers := ["1.1.1.1", "8.8.8.8"];
    var w := World(Journal(true, false, Saved(Static(servers)), "Wi-Fi", false), map["Wi-Fi" := Static(["9.9.9.9"])]);
    var original := map["Wi-Fi" := Static(servers)];
    assert Recoverable(w, original);
    assert 1 < |servers| && 1 in {1};
    BackupLostIff(w, original, Restore("Wi-Fi", true, {1}, 4));
  }

  lemma {:induction false} NothingHappens(w: World, cs: seq<Command>)
    requires forall c | c in cs :: c.Idle?
    ensures ApplyAll(w, cs) == w
    decreases |cs|
  {
    if cs != [] {
      assert cs[|cs| - 1] in cs && forall c | c in cs[..|cs| - 1] :: c in cs;
      NothingHappens(w, cs[..|cs| - 1]);
    }
  }

  /** A completed restore none of whose commands takes effect, as without administrator rights, changes nothing and
      closes the journal: the backup is lost exactly when the settings were still different. */
  lemma RefusedRestoreIff(w: World, original: map<string, DnsConfig>, op: Op)
    requires op.Restore? && Recoverable(w, original) && w.journal.dnsChanged
    requires op.cut >= |ProgramOf(w, op)| && op.saveOk
    requires forall k: nat | k < |Reinstate(w.journal.iface, original[w.journal.iface])| :: k in op.idle
    ensures Step(w, op).dns == w.dns && !Step(w, op).journal.dnsChanged
    ensures !Recoverable(Step(w, op), original) <==> w.dns != original
  {
    RestoreIs(w, op);
    RestoreRecovers(w, original, op);
    NothingHappens(w, Weakened(Reinstate(w.journal.iface, w.journal.original.config), op.idle, 0));
  }

  /** A set that runs to its end with all commands taking effect. */
  function AfterSet(w: World, servers: seq<string>, iface: string, readOk: bool, saveOk: bool): World {
    ApplyAll(w, SetProgram(w, servers, iface, readOk, saveOk, {}))
  }

  function AfterRestore(w: World, defaultIface: string, saveOk: bool): World {
    ApplyAll(w, RestoreProgram(w, defaultIface, saveOk, {}))
  }

  lemma AfterSetIs(w: World, servers: seq<string>, iface: string, readOk: bool, saveOk: bool)
    requires servers != [] && iface in w.dns
    ensures AfterSet(w, servers, iface, readOk, saveOk)
         == World(if !w.journal.dnsChanged && saveOk then Opened(w, iface, readOk) else w.journal,
                  w.dns[iface := Static(servers)])
  {
    var opening := Opening(w, iface, readOk, saveOk);
    AllEffective(Changes(iface, servers), {}, 0);
    ApplyAllConcat(w, opening, Changes(iface, servers));
    if !w.journal.dnsChanged {
      PerformOne(w, Save(Opened(w, iface, readOk), saveOk), 1);
    }
    StaticInstalled(ApplyAll(w, opening), iface, servers, false);
  }

  lemma AfterRestoreIs(w: World, defaultIface: string, saveOk: bool)
    requires w.journal.dnsChanged && w.journal.original.Saved? && Target(w, defaultIface) in w.dns
    ensures var c := w.journal.original.config;
      AfterRestore(w, defaultIface, saveOk).dns
      == if c == Static([]) then w.dns else w.dns[Target(w, defaultIface) := c]
  {
    var body, closing := Reinstate(Target(w, defaultIface), w.journal.original.config), Closing(w, saveOk);
    AllEffective(body, {}, 0);
    ApplyAllConcat(w, body, closing);
    ReinstateExact(w, Target(w, defaultIface), w.journal.original.config);
    var w1 := ApplyAll(w, body);
    assert closing[..1] == [FlushDns];
    PerformOne(w1, FlushDns, 1);
    assert ApplyAll(w1, closing) == Apply(ApplyAll(w1, closing[..1]), closing[1]);
  }

  /** Setting and then restoring brings the settings back exactly when the journal recorded them (the query and the
      save succeeded, and there was something to record), or when nothing really changed. */
  lemma RestoredIff(w: World, servers: seq<string>, iface: string, readOk: bool, saveOk: bool, defaultIface: string,
                    saveOk2: bool)
    requires !w.journal.dnsChanged && servers != [] && iface != "" && iface in w.dns
    ensures AfterRestore(AfterSet(w, servers, iface, readOk, saveOk), defaultIface, saveOk2).dns == w.dns
       <==> (readOk && saveOk && w.dns[iface] != Static([])) || w.dns[iface] == Static(servers)
  {
    var w1 := AfterSet(w, servers, iface, readOk, saveOk);
    AfterSetIs(w, servers, iface, readOk, saveOk);
    Overwritten(w.dns, iface, Static(servers), ReadDns(w, iface, readOk));
    if saveOk {
      AfterRestoreIs(w1, defaultIface, saveOk2);
    }
  }

  lemma Overwritten(m: map<string, DnsConfig>, i: string, c: DnsConfig, d: DnsConfig)
    requires i in m
    ensures m[i := c] == m <==> m[i] == c
    ensures m[i := c][i := d] == m <==> m[i] == d
  {
    assert m[i := c][i] == c && m[i := c][i := d][i] == d;
    if m[i] == c {
      assert m[i := c] == m;
    }
    if m[i] == d {
      assert m[i := c][i := d] == m;
    }
  }

  /** After a failed query the changed setting stays for good. */
  lemma UnreadSettingLost()
    ensures var w := World(Journal(false, false, Missing, "", false), map["Wi-Fi" := Dhcp]);
      AfterRestore(AfterSet(w, ["1.1.1.1"], "Wi-Fi", false, true), "Wi-Fi", true).dns != w.dns
  {
    var w := World(Journal(false, false, Missing, "", false), map["Wi-Fi" := Dhcp]);
    RestoredIff(w, ["1.1.1.1"], "Wi-Fi", false, true, "Wi-Fi", true);
  }

  /** While the journal is open, changing a second interface is undone by the next restore only if that interface
      already had the new servers: the journal records one interface. */
  lemma {:induction false} SecondInterfaceIff(w: World, original: map<string, DnsConfig>, servers: seq<string>,
                                              iface: string, defaultIface: string, saveOk: bool)
    requires Recoverable(w, original) && w.journal.dnsChanged
    requires servers != [] && iface in original && iface != w.journal.iface
    ensures AfterRestore(AfterSet(w, servers, iface, true, true), defaultIface, saveOk).dns == original
       <==> original[iface] == Static(servers)
  {
    var w1 := AfterSet(w, servers, iface, true, true);
    AfterSetIs(w, servers, iface, true, true);
    AfterRestoreIs(w1, defaultIface, saveOk);
    TwoUpdates(w.dns, original, w.journal.iface, iface, Static(servers));
  }

  /** Ethernet, changed while the journal is open for Wi-Fi, is not restored. */
  lemma EthernetNotRestored()
    ensures var original := map["Wi-Fi" := Dhcp, "Ethernet" := Dhcp];
      var w := World(Journal(true, false, Saved(Dhcp), "Wi-Fi", false), original["Wi-Fi" := Static(["1.1.1.1"])]);
      AfterRestore(AfterSet(w, ["1.1.1.1"], "Ethernet", true, true), "Ethernet", true).dns != original
  {
    var original := map["Wi-Fi" := Dhcp, "Ethernet" := Dhcp];
    var w := World(Journal(true, false, Saved(Dhcp), "Wi-Fi", false), original["Wi-Fi" := Static(["1.1.1.1"])]);
    assert Recoverable(w, original);
    SecondInterfaceIff(w, original, ["1.1.1.1"], "Ethernet", "Ethernet", true);
  }

  lemma TwoUpdates(m: map<string, DnsConfig>, original: map<string, DnsConfig>, i: string, j: string, c: DnsConfig)
    requires i in original && j in original && i != j && m.Keys == original.Keys
    requires forall k | k in original && k != i :: m[k] == original[k]
    ensures m[j := c][i := original[i]] == original <==> original[j] == c
  {
    var r := m[j := c][i := original[i]];
    assert r[j] == c;
    assert forall k | k in original && k != j :: r[k] == original[k];
  }
}
