/** The bypass executor: candidates in three score-sorted tiers, tried until one connects (BypssEng.py). */
module Executor {
  import opened Text
  import opened Sequences
  import opened Sorting
  import opened Connection
  import opened Interleaving
  import opened Telemetry
  import opened Scorer

  /** Parsed credentials; `detail` stands for everything but the protocol. */
  datatype Creds = Creds(protocol: string, detail: string)

  datatype Scored = Scored(creds: Creds, score: real)

  /** The unified configuration after parsing; None marks an unsupported link. */
  datatype Unified = Unified(personal: seq<Option<Creds>>, collected: seq<Option<Creds>>, worker: Option<Creds>,
                             warp: Option<Creds>, psiphon: bool, dnstt: Option<Creds>)

  function Supported(links: seq<Option<Creds>>): seq<Creds> {
    if links == [] then [] else Listed(links[0]) + Supported(links[1..])
  }

  function Listed(c: Option<Creds>): seq<Creds> {
    match c case None => [] case Some(x) => [x]
  }

  const TOR: seq<Creds> := [Creds("tor_proxy", ""), Creds("tor_snowflake", "")]

  function LastTier(u: Unified): seq<Creds> {
    Listed(u.warp) + (if u.psiphon then [Creds("psiphon", "")] else []) + Listed(u.dnstt) + TOR
  }

  type Rates = string -> real

  ghost predicate ValidRates(rates: Rates) { forall p :: 0.0 <= rates(p) <= 1.0 }

  function ScoreOf(c: Creds, s: NetStates, rates: Rates): real
    requires ValidRates(rates) && s.latency >= 0.0 && s.throughput >= 0.0
  {
    Score(c.protocol, s, rates(c.protocol))
  }

  function ScoreValue(x: Scored): real { x.score }

  /** scored.sort(key=score, reverse=True): descending, equal scores in their original order. */
  function Sorted(xs: seq<Scored>): (r: seq<Scored>)
    ensures |r| == |xs|
  {
    if xs == [] then [] else Insert(ScoreValue, xs[0], Sorted(xs[1..]))
  }

  function WithScore(xs: seq<Scored>, v: real): seq<Scored> {
    if xs == [] then [] else (if xs[0].score == v then [xs[0]] else []) + WithScore(xs[1..], v)
  }

  lemma WithScoreCons(x: Scored, xs: seq<Scored>, v: real)
    ensures WithScore([x] + xs, v) == (if x.score == v then [x] else []) + WithScore(xs, v)
  {
    assert ([x] + xs)[1..] == xs;
  }

  lemma {:induction false} InsertWithScore(x: Scored, xs: seq<Scored>, v: real)
    ensures WithScore(Insert(ScoreValue, x, xs), v) == (if x.score == v then [x] else []) + WithScore(xs, v)
  {
    if xs == [] || x.score >= xs[0].score {
      WithScoreCons(x, xs, v);
    } else {
      InsertWithScore(x, xs[1..], v);
      WithScoreCons(xs[0], Insert(ScoreValue, x, xs[1..]), v);
      WithScoreCons(xs[0], xs[1..], v);
      assert [xs[0]] + xs[1..] == xs;
    }
  }

  lemma {:induction false} SortedPermutes(xs: seq<Scored>)
    ensures Descending(ScoreValue, Sorted(xs)) && multiset(Sorted(xs)) == multiset(xs)
  {
    if xs != [] {
      SortedPermutes(xs[1..]);
      InsertDescending(ScoreValue, xs[0], Sorted(xs[1..]));
      InsertMembers(ScoreValue, xs[0], Sorted(xs[1..]));
      HeadAndTail(xs);
    }
  }

  lemma {:induction false} SortedKeepsOrder(xs: seq<Scored>, v: real)
    ensures WithScore(Sorted(xs), v) == WithScore(xs, v)
  {
    if xs != [] {
      SortedKeepsOrder(xs[1..], v);
      InsertWithScore(xs[0], Sorted(xs[1..]), v);
    }
  }

  /** The sort is a stable descending permutation. */
  lemma SortedIsStable(xs: seq<Scored>, v: real)
    ensures Descending(ScoreValue, Sorted(xs)) && multiset(Sorted(xs)) == multiset(xs)
    ensures WithScore(Sorted(xs), v) == WithScore(xs, v)
  {
    SortedPermutes(xs);
    SortedKeepsOrder(xs, v);
  }

  function ScoredTier(tier: seq<Creds>, s: NetStates, rates: Rates): seq<Scored>
    requires ValidRates(rates) && s.latency >= 0.0 && s.throughput >= 0.0
  {
    seq(|tier|, i requires 0 <= i < |tier| => Scored(tier[i], ScoreOf(tier[i], s, rates)))
  }

  /** ordered_candidates. */
  function Ordered(u: Unified, s: NetStates, rates: Rates): seq<Scored>
    requires ValidRates(rates) && s.latency >= 0.0 && s.throughput >= 0.0
  {
    Sorted(ScoredTier(Supported(u.personal), s, rates))
    + Sorted(ScoredTier(Supported(u.collected) + Listed(u.worker), s, rates))
    + Sorted(ScoredTier(LastTier(u), s, rates))
  }

  /** score_all. */
  method ScoreAll(tier: seq<Creds>, s: NetStates, rates: Rates) returns (scored: seq<Scored>)
    requires ValidRates(rates) && s.latency >= 0.0 && s.throughput >= 0.0
    ensures scored == Sorted(ScoredTier(tier, s, rates))
  {
    scored := [];
    for i := 0 to |tier|
      invariant scored == ScoredTier(tier, s, rates)[..i]
    {
      var score, _ := ScoreStrategy(tier[i].protocol, s, rates(tier[i].protocol));
      scored := scored + [Scored(tier[i], score)];
    }
    assert ScoredTier(tier, s, rates)[..|tier|] == ScoredTier(tier, s, rates);
    scored := Sorted(scored);
  }

  method OrderCandidates(u: Unified, s: NetStates, rates: Rates) returns (ordered: seq<Scored>)
    requires ValidRates(rates) && s.latency >= 0.0 && s.throughput >= 0.0
    ensures ordered == Ordered(u, s, rates)
  {
    ordered := ScoreAll(Supported(u.personal), s, rates);
    var second := ScoreAll(Supported(u.collected) + Listed(u.worker), s, rates);
    var third := ScoreAll(LastTier(u), s, rates);
    ordered := ordered + second + third;
  }

  /** `pos` says which entry of `links` each element of `tier` comes from. The tier holds every supported entry once,
      with the score of its protocol, higher scores first and equal scores in the order of `links`. */
  ghost predicate Arranged(tier: seq<Scored>, links: seq<Option<Creds>>, pos: seq<nat>, s: NetStates, rates: Rates)
    requires ValidRates(rates) && s.latency >= 0.0 && s.throughput >= 0.0
  {
    && |pos| == |tier|
    && (forall k | 0 <= k < |tier| :: pos[k] < |links| && links[pos[k]] == Some(tier[k].creds))
    && (forall k | 0 <= k < |tier| ::
          tier[k].score == Score(tier[k].creds.protocol, s, rates(tier[k].creds.protocol)))
    && (forall i {:trigger i in pos} | 0 <= i < |links| && links[i].Some? :: i in pos)
    && (forall k, l | 0 <= k < l < |tier| ::
          tier[k].score > tier[l].score || (tier[k].score == tier[l].score && pos[k] < pos[l]))
  }

  ghost predicate IsTier(tier: seq<Scored>, links: seq<Option<Creds>>, s: NetStates, rates: Rates)
    requires ValidRates(rates) && s.latency >= 0.0 && s.throughput >= 0.0
  {
    exists pos: seq<nat> :: Arranged(tier, links, pos, s, rates)
  }

  /** `pos` lists in order the supported entries of `links`. */
  ghost predicate Lists(r: seq<Creds>, links: seq<Option<Creds>>, pos: seq<nat>) {
    && |pos| == |r|
    && (forall k | 0 <= k < |r| :: pos[k] < |links| && links[pos[k]] == Some(r[k]))
    && (forall k, l | 0 <= k < l < |r| :: pos[k] < pos[l])
    && (forall i {:trigger i in pos} | 0 <= i < |links| && links[i].Some? :: i in pos)
  }

  lemma {:induction false} SupportedSnoc(links: seq<Option<Creds>>, c: Option<Creds>)
    ensures Supported(links + [c]) == Supported(links) + Listed(c)
  {
    if links == [] {
      assert Supported([]) == [];
    } else {
      SupportedSnoc(links[1..], c);
      assert (links + [c])[1..] == links[1..] + [c];
    }
  }

  lemma {:induction false} SupportedPositions(links: seq<Option<Creds>>) returns (pos: seq<nat>)
    ensures Lists(Supported(links), links, pos)
  {
    if links == [] {
      pos := [];
    } else {
      var n := |links| - 1;
      var rest := SupportedPositions(links[..n]);
      SupportedSnoc(links[..n], links[n]);
      FrontAndLast(links);
      pos := rest + if links[n].Some? then [n] else [];
    }
  }

  /** `perm` sorts `xs` into `ys`, keeping the order of equal scores. */
  ghost predicate SortsBy(xs: seq<Scored>, ys: seq<Scored>, perm: seq<nat>) {
    && |perm| == |ys| == |xs|
    && (forall k | 0 <= k < |ys| :: perm[k] < |xs| && ys[k] == xs[perm[k]])
    && (forall k, l | 0 <= k < l < |ys| ::
          ys[k].score > ys[l].score || (ys[k].score == ys[l].score && perm[k] < perm[l]))
    && (forall i | 0 <= i < |xs| :: i in perm)
  }

  function Shifted(pos: seq<nat>): (r: seq<nat>)
    ensures |r| == |pos| && forall k | 0 <= k < |r| :: r[k] == pos[k] + 1
  {
    seq(|pos|, k requires 0 <= k < |pos| => pos[k] + 1)
  }

  lemma ShiftedHas(pos: seq<nat>, i: nat)
    requires i in pos
    ensures i + 1 in Shifted(pos)
  {
    var k :| 0 <= k < |pos| && pos[k] == i;
    assert Shifted(pos)[k] == i + 1;
  }

  lemma {:induction false} SortedBy(xs: seq<Scored>) returns (perm: seq<nat>)
    ensures SortsBy(xs, Sorted(xs), perm)
  {
    if xs == [] {
      perm := [];
    } else {
      var rest := SortedBy(xs[1..]);
      var p := InsertAt(ScoreValue, xs[0], Sorted(xs[1..]));
      perm := InsertedPositions(xs, Sorted(xs[1..]), rest, p);
    }
  }

  /** `r` is `ys` with `x` at position `p`. */
  ghost predicate IsInserted<T>(r: seq<T>, ys: seq<T>, p: nat, x: T)
    requires p <= |ys|
  {
    |r| == |ys| + 1 && r[p] == x && (forall k | 0 <= k < p :: r[k] == ys[k])
    && (forall k | p < k < |r| :: r[k] == ys[k - 1])
  }

  lemma InsertedPositions(xs: seq<Scored>, ys: seq<Scored>, rest: seq<nat>, p: nat) returns (perm: seq<nat>)
    requires xs != [] && SortsBy(xs[1..], ys, rest) && p <= |ys|
    requires forall i | 0 <= i < p :: ys[i].score > xs[0].score
    requires p < |ys| ==> xs[0].score >= ys[p].score
    ensures SortsBy(xs, ys[..p] + [xs[0]] + ys[p..], perm)
  {
    var r := ys[..p] + [xs[0]] + ys[p..];
    perm := Shifted(rest)[..p] + [0] + Shifted(rest)[p..];
    InsertedIs(ys, p, xs[0]);
    InsertedIs(Shifted(rest), p, 0);
    InsertedCovers(rest, p, |xs|);
    InsertedInOrder(xs, ys, rest, p, r, perm);
  }

  lemma InsertedIs<T>(ys: seq<T>, p: nat, x: T)
    requires p <= |ys|
    ensures IsInserted(ys[..p] + [x] + ys[p..], ys, p, x)
  {
  }

  lemma InsertedCovers(rest: seq<nat>, p: nat, n: nat)
    requires p <= |rest| && forall i | 0 <= i < n - 1 :: i in rest
    ensures forall i | 0 <= i < n :: i in Shifted(rest)[..p] + [0] + Shifted(rest)[p..]
  {
    forall i | 0 <= i < n ensures i in Shifted(rest)[..p] + [0] + Shifted(rest)[p..] {
      if i > 0 {
        assert (i - 1) in rest;
        ShiftedHas(rest, i - 1);
        StillIn(Shifted(rest), p, 0, i);
      }
    }
  }

  lemma StillIn(pos: seq<nat>, p: nat, x: nat, i: nat)
    requires p <= |pos| && i in pos
    ensures i in pos[..p] + [x] + pos[p..]
  {
    assert pos == pos[..p] + pos[p..];
  }

  lemma InsertedInOrder(xs: seq<Scored>, ys: seq<Scored>, rest: seq<nat>, p: nat, r: seq<Scored>, perm: seq<nat>)
    requires xs != [] && SortsBy(xs[1..], ys, rest) && p <= |ys|
    requires IsInserted(r, ys, p, xs[0]) && IsInserted(perm, Shifted(rest), p, 0)
    requires forall i | 0 <= i < p :: ys[i].score > xs[0].score
    requires p < |ys| ==> xs[0].score >= ys[p].score
    ensures forall k | 0 <= k < |r| :: perm[k] < |xs| && r[k] == xs[perm[k]]
    ensures forall k, l | 0 <= k < l < |r| ::
              r[k].score > r[l].score || (r[k].score == r[l].score && perm[k] < perm[l])
  {
    forall k, l | 0 <= k < l < |r|
      ensures r[k].score > r[l].score || (r[k].score == r[l].score && perm[k] < perm[l])
    {
      InOrder(xs, ys, rest, p, r, perm, k, l);
    }
  }

  lemma InOrder(xs: seq<Scored>, ys: seq<Scored>, rest: seq<nat>, p: nat, r: seq<Scored>, perm: seq<nat>, k: nat,
                l: nat)
    requires xs != [] && SortsBy(xs[1..], ys, rest) && p <= |ys| && k < l < |r|
    requires IsInserted(r, ys, p, xs[0]) && IsInserted(perm, Shifted(rest), p, 0)
    requires forall i | 0 <= i < p :: ys[i].score > xs[0].score
    requires p < |ys| ==> xs[0].score >= ys[p].score
    ensures r[k].score > r[l].score || (r[k].score == r[l].score && perm[k] < perm[l])
  {
    if k == p {
      assert ys[p].score >= ys[l - 1].score;
    }
  }

  lemma SortedTier(links: seq<Option<Creds>>, s: NetStates, rates: Rates)
    requires ValidRates(rates) && s.latency >= 0.0 && s.throughput >= 0.0
    ensures IsTier(Sorted(ScoredTier(Supported(links), s, rates)), links, s, rates)
  {
    var xs := ScoredTier(Supported(links), s, rates);
    var pos := SupportedPositions(links);
    var perm := SortedBy(xs);
    var both := SortedPositions(links, Supported(links), xs, Sorted(xs), pos, perm);
    assert Arranged(Sorted(xs), links, both, s, rates);
  }

  /** The positions of a sorted list of the supported entries. */
  lemma SortedPositions(links: seq<Option<Creds>>, cs: seq<Creds>, xs: seq<Scored>, ys: seq<Scored>, pos: seq<nat>,
                        perm: seq<nat>) returns (both: seq<nat>)
    requires Lists(cs, links, pos) && SortsBy(xs, ys, perm)
    requires |xs| == |cs| && forall k | 0 <= k < |xs| :: xs[k].creds == cs[k]
    ensures |both| == |ys| && forall k | 0 <= k < |ys| :: both[k] < |links| && links[both[k]] == Some(ys[k].creds)
    ensures forall i {:trigger i in both} | 0 <= i < |links| && links[i].Some? :: i in both
    ensures forall k, l | 0 <= k < l < |ys| ::
              ys[k].score > ys[l].score || (ys[k].score == ys[l].score && both[k] < both[l])
  {
    both := seq(|perm|, k requires 0 <= k < |perm| => pos[perm[k]]);
    forall i | 0 <= i < |links| && links[i].Some? ensures i in both {
      assert i in pos;
      var j :| 0 <= j < |pos| && pos[j] == i;
      assert j in perm;
      var k :| 0 <= k < |perm| && perm[k] == j;
      assert both[k] == i;
    }
  }

  /** The candidates of the last tier, None where one is not configured. */
  function Fallbacks(u: Unified): seq<Option<Creds>> {
    [u.warp, if u.psiphon then Some(Creds("psiphon", "")) else None, u.dnstt,
     Some(Creds("tor_proxy", "")), Some(Creds("tor_snowflake", ""))]
  }

  lemma {:induction false} ThreeSupported(a: Option<Creds>, b: Option<Creds>, c: Option<Creds>)
    ensures Supported([a, b, c]) == Listed(a) + Listed(b) + Listed(c)
  {
    assert Supported([c]) == Listed(c) + Supported([]) by { assert [c][1..] == []; }
    assert Supported([b, c]) == Listed(b) + Supported([c]) by { assert [b, c][1..] == [c]; }
    assert [a, b, c][1..] == [b, c];
    Regroup(Listed(a), Listed(b), Listed(c));
  }

  lemma {:induction false} FiveSupported(three: seq<Option<Creds>>, d: Option<Creds>, e: Option<Creds>)
    ensures Supported(three + [d] + [e]) == Supported(three) + (Listed(d) + Listed(e))
  {
    SupportedSnoc(three, d);
    SupportedSnoc(three + [d], e);
    Regroup(Supported(three), Listed(d), Listed(e));
  }

  lemma FallbacksAre(u: Unified)
    ensures Supported(Fallbacks(u)) == LastTier(u)
  {
    var f := Fallbacks(u);
    ThreeSupported(f[0], f[1], f[2]);
    FiveSupported([f[0], f[1], f[2]], f[3], f[4]);
    assert f == [f[0], f[1], f[2]] + [f[3]] + [f[4]];
    assert Listed(f[3]) + Listed(f[4]) == TOR;
  }

  /** The candidates are the supported personal links, then the collected ones and the worker, then the fallbacks; each
      of the three parts is in descending order of the scores, and keeps the order of the configuration among equals. */
  lemma TierOrder(u: Unified, s: NetStates, rates: Rates) returns (m: nat, n: nat)
    requires ValidRates(rates) && s.latency >= 0.0 && s.throughput >= 0.0
    ensures var o := Ordered(u, s, rates);
      && m <= n <= |o|
      && IsTier(o[..m], u.personal, s, rates)
      && IsTier(o[m..n], u.collected + [u.worker], s, rates)
      && IsTier(o[n..], Fallbacks(u), s, rates)
  {
    var a := Sorted(ScoredTier(Supported(u.personal), s, rates));
    var b := Sorted(ScoredTier(Supported(u.collected) + Listed(u.worker), s, rates));
    var c := Sorted(ScoredTier(LastTier(u), s, rates));
    m, n := |a|, |a| + |b|;
    assert (a + b + c)[..m] == a && (a + b + c)[m..n] == b && (a + b + c)[n..] == c;
    SortedTier(u.personal, s, rates);
    SortedTier(u.collected + [u.worker], s, rates);
    SupportedSnoc(u.collected, u.worker);
    SortedTier(Fallbacks(u), s, rates);
    FallbacksAre(u);
  }

  const ALWAYS: set<string> := {"tor_proxy", "tor_snowflake", "psiphon", "dnstt", "warp"}

  predicate Eligible(c: Scored) { c.score > 0.1 || c.creds.protocol in ALWAYS }

  function Filter(keep: Scored -> bool, cs: seq<Scored>): (r: seq<Scored>)
    ensures |r| <= |cs|
  {
    if cs == [] then []
    else Filter(keep, cs[..|cs| - 1]) + if keep(cs[|cs| - 1]) then [cs[|cs| - 1]] else []
  }

  function Filtered(cs: seq<Scored>): (r: seq<Scored>)
    ensures |r| <= |cs|
  {
    Filter(Eligible, cs)
  }

  lemma {:induction false} FilterMembers(keep: Scored -> bool, cs: seq<Scored>, c: Scored)
    ensures c in Filter(keep, cs) <==> c in cs && keep(c)
  {
    if cs != [] {
      var n := |cs| - 1;
      FilterMembers(keep, cs[..n], c);
      assert cs == cs[..n] + [cs[n]];
    }
  }

  datatype Record = Record(strategy: string, condition: string, success: bool)

  /** The executor's progress over the eligible candidates. */
  datatype Progress = Progress(world: World, records: seq<Record>, alternatives: map<string, real>,
                               selected: Option<string>)

  /** How an attempt ends. */
  datatype Answer = Answer(ok: bool, world: World)

  /** What the executor is given to connect with. */
  type Connecting = (World, Plan) -> Answer

  /** execute_bypass_and_connect. */
  const CONNECT: Connecting := (w: World, plan: Plan) => Answer(Ok(w, plan), Final(w, plan))

  /** The progress after considering the first `k` eligible candidates. */
  function Tries(connect: Connecting, w: World, es: seq<Scored>, condition: string, plans: seq<Plan>, k: nat): Progress
    requires k <= |es| && k <= |plans|
  {
    if k == 0 then Progress(w, [], map[], None)
    else
      var t := Tries(connect, w, es, condition, plans, k - 1);
      if t.selected.Some? then t else Tried(connect, t, es[k - 1], condition, plans[k - 1])
  }

  /** One attempt and its record. */
  function Tried(connect: Connecting, t: Progress, c: Scored, condition: string, plan: Plan): Progress {
    var a, strategy := connect(t.world, plan), c.creds.protocol;
    Progress(a.world, t.records + [Record(strategy, condition, a.ok)],
             if a.ok then t.alternatives else t.alternatives[strategy := c.score],
             if a.ok then Some(strategy) else None)
  }

  /** The attempts one after the other. */
  function Chain(connect: Connecting, w: World, plans: seq<Plan>): World {
    if plans == [] then w else connect(Chain(connect, w, plans[..|plans| - 1]), plans[|plans| - 1]).world
  }

  class BypassExecutor {
    const connector: Connector
    var records: seq<Record>

    constructor (connector: Connector)
      ensures this.connector == connector && records == []
    {
      this.connector, records := connector, [];
    }

    /** The candidates of a configuration, ordered and tried. */
    method Run(u: Unified, s: NetStates, rates: Rates, condition: string, plans: seq<Plan>)
      returns (selected: Option<string>, alternatives: map<string, real>)
      requires ValidRates(rates) && s.latency >= 0.0 && s.throughput >= 0.0
      requires |plans| >= |Filtered(Ordered(u, s, rates))|
      modifies `records, connector.pm, connector.session, connector.net
      ensures var es := Filtered(Ordered(u, s, rates));
        var t := Tries(CONNECT, old(connector.Snapshot()), es, condition, plans, |es|);
        && connector.Snapshot() == t.world && records == old(records) + t.records
        && selected == t.selected && alternatives == t.alternatives
    {
      var candidates := OrderCandidates(u, s, rates);
      selected, alternatives := Execute(candidates, condition, plans);
    }

    /** The loop over the ordered candidates; `plans` are the environments of the successive attempts. */
    method Execute(candidates: seq<Scored>, condition: string, plans: seq<Plan>)
      returns (selected: Option<string>, alternatives: map<string, real>)
      requires |plans| >= |Filtered(candidates)|
      modifies `records, connector.pm, connector.session, connector.net
      ensures var es := Filtered(candidates);
        var t := Tries(CONNECT, old(connector.Snapshot()), es, condition, plans, |es|);
        && connector.Snapshot() == t.world && records == old(records) + t.records
        && selected == t.selected && alternatives == t.alternatives
    {
      ghost var w, es := connector.Snapshot(), Filtered(candidates);
      ghost var t := Tries(CONNECT, w, es, condition, plans, 0);
      assert candidates[..|candidates|] == candidates;
      var k := 0;
      alternatives := map[];
      for i := 0 to |candidates|
        invariant k == |Filter(Eligible, candidates[..i])| <= |es|
        invariant t == Tries(CONNECT, w, es, condition, plans, k) && t.selected == None
        invariant && connector.Snapshot() == t.world && records == old(records) + t.records
                  && alternatives == t.alternatives
      {
        FilterStep(Eligible, candidates, i);
        var c := candidates[i];
        if Eligible(c) {
          assert es[k] == c;
          selected, alternatives := TryCandidate(t, old(records), c, condition, plans[k], alternatives);
          t, k := Tried(CONNECT, t, c, condition, plans[k]), k + 1;
          assert t == Tries(CONNECT, w, es, condition, plans, k);
          if selected.Some? {
            OnceSelected(CONNECT, w, es, condition, plans, k, |es|);
            return;
          }
        }
      }
      selected := None;
    }

    method TryCandidate(ghost t: Progress, ghost before: seq<Record>, c: Scored, condition: string, plan: Plan,
                        alternatives: map<string, real>) returns (selected: Option<string>, others: map<string, real>)
      requires connector.Snapshot() == t.world && records == before + t.records && alternatives == t.alternatives
      modifies `records, connector.pm, connector.session, connector.net
      ensures var u := Tried(CONNECT, t, c, condition, plan);
        && connector.Snapshot() == u.world && records == before + u.records
        && selected == u.selected && others == u.alternatives
    {
      var strategy := c.creds.protocol;
      var success := connector.ExecuteBypassAndConnect(plan);
      records := records + [Record(strategy, condition, success)];
      if success {
        selected, others := Some(strategy), alternatives;
      } else {
        selected, others := None, alternatives[strategy := c.score];
      }
    }
  }

  lemma {:induction false} OnceSelected(connect: Connecting, w: World, es: seq<Scored>, condition: string,
                                        plans: seq<Plan>, k: nat, n: nat)
    requires k <= n <= |es| && n <= |plans| && Tries(connect, w, es, condition, plans, k).selected.Some?
    ensures Tries(connect, w, es, condition, plans, n) == Tries(connect, w, es, condition, plans, k)
  {
    if k < n {
      OnceSelected(connect, w, es, condition, plans, k, n - 1);
    }
  }

  lemma {:induction false} FilterPrefix(keep: Scored -> bool, cs: seq<Scored>, i: nat)
    requires i <= |cs|
    ensures Filter(keep, cs[..i]) <= Filter(keep, cs)
    decreases |cs|
  {
    if i == |cs| {
      assert cs[..i] == cs;
    } else {
      var n := |cs| - 1;
      assert cs[..n][..i] == cs[..i];
      FilterPrefix(keep, cs[..n], i);
    }
  }

  /** `pos` lists in order the positions of the elements to keep. */
  ghost predicate Keeps(keep: Scored -> bool, cs: seq<Scored>, r: seq<Scored>, pos: seq<nat>) {
    && |pos| == |r|
    && (forall k | 0 <= k < |r| :: pos[k] < |cs| && r[k] == cs[pos[k]])
    && (forall k, l | 0 <= k < l < |r| :: pos[k] < pos[l])
    && (forall i {:trigger i in pos} | 0 <= i < |cs| && keep(cs[i]) :: i in pos)
  }

  /** Filtering keeps the order. */
  lemma {:induction false} FilterPositions(keep: Scored -> bool, cs: seq<Scored>) returns (pos: seq<nat>)
    ensures Keeps(keep, cs, Filter(keep, cs), pos)
  {
    if cs == [] {
      pos := [];
    } else {
      var n := |cs| - 1;
      pos := FilterPositions(keep, cs[..n]);
      pos := KeepsSnoc(keep, cs, Filter(keep, cs[..n]), pos);
    }
  }

  lemma KeepsSnoc(keep: Scored -> bool, cs: seq<Scored>, r: seq<Scored>, before: seq<nat>) returns (pos: seq<nat>)
    requires cs != [] && Keeps(keep, cs[..|cs| - 1], r, before)
    ensures Keeps(keep, cs, r + if keep(cs[|cs| - 1]) then [cs[|cs| - 1]] else [], pos)
  {
    var n := |cs| - 1;
    assert forall i | 0 <= i < n && keep(cs[i]) :: cs[..n][i] == cs[i] && i in before;
    if keep(cs[n]) {
      pos := before + [n];
    } else {
      pos := before;
      assert r + [] == r;
    }
  }

  lemma FilterStep(keep: Scored -> bool, cs: seq<Scored>, i: nat)
    requires i < |cs|
    ensures Filter(keep, cs[..i + 1]) == Filter(keep, cs[..i]) + if keep(cs[i]) then [cs[i]] else []
    ensures |Filter(keep, cs[..i + 1])| <= |Filter(keep, cs)|
    ensures keep(cs[i]) ==> |Filter(keep, cs[..i])| < |Filter(keep, cs)|
                            && Filter(keep, cs)[|Filter(keep, cs[..i])|] == cs[i]
  {
    var c := cs[..i + 1];
    assert c[..i] == cs[..i] && c[i] == cs[i];
    FilterPrefix(keep, cs, i + 1);
  }

  /** How far the executor got: it made |t.records| attempts, up to `k` candidates or to the first success. */
  lemma {:induction false} Attempted(connect: Connecting, w: World, es: seq<Scored>, condition: string,
                                     plans: seq<Plan>, k: nat)
    requires k <= |es| && k <= |plans|
    ensures var t := Tries(connect, w, es, condition, plans, k);
      var n := |t.records|;
      && n <= k && t.world == Chain(connect, w, plans[..n])
      && (if t.selected.Some? then n > 0 && t.records[n - 1].success && t.selected.value == es[n - 1].creds.protocol
          else n == k)
  {
    if k > 0 {
      Attempted(connect, w, es, condition, plans, k - 1);
      var t := Tries(connect, w, es, condition, plans, k - 1);
      if t.selected.None? {
        ChainStep(connect, w, plans, k - 1);
        assert Tries(connect, w, es, condition, plans, k) == Tried(connect, t, es[k - 1], condition, plans[k - 1]);
      }
    }
  }

  /** The record of attempt `i` names candidate `i` and says whether that attempt, after the earlier ones, connected. */
  lemma {:induction false} RecordAt(connect: Connecting, w: World, es: seq<Scored>, condition: string,
                                    plans: seq<Plan>, k: nat, i: nat)
    requires k <= |es| && k <= |plans| && i < |Tries(connect, w, es, condition, plans, k).records| <= k
    ensures Tries(connect, w, es, condition, plans, k).records[i]
         == Record(es[i].creds.protocol, condition, connect(Chain(connect, w, plans[..i]), plans[i]).ok)
  {
    var t := Tries(connect, w, es, condition, plans, k - 1);
    Attempted(connect, w, es, condition, plans, k - 1);
    if t.selected.None? {
      assert Tries(connect, w, es, condition, plans, k) == Tried(connect, t, es[k - 1], condition, plans[k - 1]);
      TriedRecords(connect, t, es[k - 1], condition, plans[k - 1]);
    }
    if i < |t.records| {
      RecordAt(connect, w, es, condition, plans, k - 1, i);
    }
  }

  /** Only the last attempt may have connected, and only if a strategy was selected. */
  lemma {:induction false} EarlierFailed(connect: Connecting, w: World, es: seq<Scored>, condition: string,
                                         plans: seq<Plan>, k: nat, i: nat)
    requires k <= |es| && k <= |plans| && i < |Tries(connect, w, es, condition, plans, k).records|
    requires i < |Tries(connect, w, es, condition, plans, k).records| - 1
             || Tries(connect, w, es, condition, plans, k).selected.None?
    ensures !Tries(connect, w, es, condition, plans, k).records[i].success
  {
    var t := Tries(connect, w, es, condition, plans, k - 1);
    if t.selected.Some? {
      EarlierFailed(connect, w, es, condition, plans, k - 1, i);
    } else {
      TriedRecords(connect, t, es[k - 1], condition, plans[k - 1]);
      if i < |t.records| {
        EarlierFailed(connect, w, es, condition, plans, k - 1, i);
      }
    }
  }

  /** The last failure of `strategy` among `records`, which the candidates `es` correspond to. */
  ghost predicate LastFailure(records: seq<Record>, es: seq<Scored>, strategy: string, condition: string, score: real)
    requires |records| <= |es|
  {
    exists j | 0 <= j < |records| ::
      records[j] == Record(strategy, condition, false) && es[j].score == score
      && forall i | j < i < |records| :: records[i] != Record(strategy, condition, false)
  }

  lemma TriedRecords(connect: Connecting, t: Progress, c: Scored, condition: string, plan: Plan)
    ensures var u := Tried(connect, t, c, condition, plan);
      u.records == t.records + [Record(c.creds.protocol, condition, connect(t.world, plan).ok)]
      && u.selected.Some? == connect(t.world, plan).ok
  {
  }

  /** The attempts are the eligible candidates in order, cut after the first that connects: one record each, all
      failures but the last, and nothing skipped when none connects. */
  lemma CutAfterSuccess(connect: Connecting, w: World, es: seq<Scored>, condition: string, plans: seq<Plan>, k: nat)
    requires k <= |es| && k <= |plans|
    ensures var t := Tries(connect, w, es, condition, plans, k);
      var n := |t.records|;
      && n <= k && t.world == Chain(connect, w, plans[..n])
      && (forall i | 0 <= i < n ::
            t.records[i]
            == Record(es[i].creds.protocol, condition, connect(Chain(connect, w, plans[..i]), plans[i]).ok))
      && (forall i | 0 <= i < n - 1 :: !t.records[i].success)
      && (if t.selected.Some? then n > 0 && t.records[n - 1].success && t.selected.value == es[n - 1].creds.protocol
          else n == k && forall i | 0 <= i < n :: !t.records[i].success)
  {
    Attempted(connect, w, es, condition, plans, k);
    var t := Tries(connect, w, es, condition, plans, k);
    forall i | 0 <= i < |t.records|
      ensures t.records[i]
           == Record(es[i].creds.protocol, condition, connect(Chain(connect, w, plans[..i]), plans[i]).ok)
      ensures i < |t.records| - 1 || t.selected.None? ==> !t.records[i].success
    {
      RecordAt(connect, w, es, condition, plans, k, i);
      if i < |t.records| - 1 || t.selected.None? {
        EarlierFailed(connect, w, es, condition, plans, k, i);
      }
    }
  }

  lemma ChainStep(connect: Connecting, w: World, plans: seq<Plan>, k: nat)
    requires k < |plans|
    ensures Chain(connect, w, plans[..k + 1]) == connect(Chain(connect, w, plans[..k]), plans[k]).world
  {
    assert plans[..k + 1][..k] == plans[..k];
  }

  /** The executor's attempts are a serial run of the interleaving model: what holds there of every run in lock order
      holds of the executor. */
  lemma {:induction false} ChainIsSerial(w: World, plans: seq<Plan>)
    ensures Chain(CONNECT, w, plans) == Serial(w, plans)
  {
    if plans != [] {
      ChainIsSerial(w, plans[..|plans| - 1]);
    }
  }

  lemma {:induction false} SortedMembers(xs: seq<Scored>, x: Scored)
    ensures x in Sorted(xs) <==> x in xs
  {
    if xs != [] {
      SortedMembers(xs[1..], x);
      InsertMembers(ScoreValue, xs[0], Sorted(xs[1..]));
      var r := Insert(ScoreValue, xs[0], Sorted(xs[1..]));
      assert x in r <==> x in multiset(r);
      assert x in Sorted(xs[1..]) <==> x in multiset(Sorted(xs[1..]));
      assert xs == [xs[0]] + xs[1..];
    }
  }

  /** A candidate of the last tier keeps its place among the eligible ones if its protocol is always eligible. */
  lemma LastTierEligible(u: Unified, s: NetStates, rates: Rates, c: Creds)
    requires ValidRates(rates) && s.latency >= 0.0 && s.throughput >= 0.0
    requires c in LastTier(u) && c.protocol in ALWAYS
    ensures Scored(c, ScoreOf(c, s, rates)) in Filtered(Ordered(u, s, rates))
  {
    var x, tier := Scored(c, ScoreOf(c, s, rates)), ScoredTier(LastTier(u), s, rates);
    var i :| 0 <= i < |LastTier(u)| && LastTier(u)[i] == c;
    assert tier[i] == x;
    SortedMembers(tier, x);
    assert x in Ordered(u, s, rates);
    FilterMembers(Eligible, Ordered(u, s, rates), x);
  }

  /** A run that connects nowhere has tried both Tor candidates, whatever is configured. */
  lemma TorTriedBeforeGivingUp(u: Unified, s: NetStates, rates: Rates, connect: Connecting, w: World,
                               condition: string, plans: seq<Plan>)
    requires ValidRates(rates) && s.latency >= 0.0 && s.throughput >= 0.0
    requires var es := Filtered(Ordered(u, s, rates));
      |plans| >= |es| && Tries(connect, w, es, condition, plans, |es|).selected == None
    ensures var es := Filtered(Ordered(u, s, rates));
      var records := Tries(connect, w, es, condition, plans, |es|).records;
      Record("tor_proxy", condition, false) in records && Record("tor_snowflake", condition, false) in records
  {
    var es := Filtered(Ordered(u, s, rates));
    CutAfterSuccess(connect, w, es, condition, plans, |es|);
    assert TOR[0] in TOR && TOR[1] in TOR;
    LastTierEligible(u, s, rates, TOR[0]);
    LastTierEligible(u, s, rates, TOR[1]);
    var i :| 0 <= i < |es| && es[i].creds == TOR[0];
    var j :| 0 <= j < |es| && es[j].creds == TOR[1];
    var records := Tries(connect, w, es, condition, plans, |es|).records;
    assert records[i] in records && records[j] in records;
  }

  lemma {:induction false} TierFrom(tier: seq<Scored>, links: seq<Option<Creds>>, s: NetStates, rates: Rates, x: Scored)
    requires ValidRates(rates) && s.latency >= 0.0 && s.throughput >= 0.0 && IsTier(tier, links, s, rates) && x in tier
    ensures Some(x.creds) in links
  {
    var pos: seq<nat> :| Arranged(tier, links, pos, s, rates);
    var k :| 0 <= k < |tier| && tier[k] == x;
    assert links[pos[k]] == Some(x.creds);
  }

  lemma {:induction false} TierHas(tier: seq<Scored>, links: seq<Option<Creds>>, s: NetStates, rates: Rates, c: Creds)
    requires ValidRates(rates) && s.latency >= 0.0 && s.throughput >= 0.0 && IsTier(tier, links, s, rates)
    requires Some(c) in links
    ensures Scored(c, Score(c.protocol, s, rates(c.protocol))) in tier
  {
    var pos: seq<nat> :| Arranged(tier, links, pos, s, rates);
    var i :| 0 <= i < |links| && links[i] == Some(c);
    assert i in pos;
    var k :| 0 <= k < |pos| && pos[k] == i;
    assert tier[k] == Scored(c, Score(c.protocol, s, rates(c.protocol)));
  }

  /** A candidate is skipped exactly when its score is at most 0.1 and its protocol none of five. */
  lemma EligibleIff(x: Scored)
    ensures Eligible(x)
       <==> x.score > 0.1 || x.creds.protocol in {"tor_proxy", "tor_snowflake", "psiphon", "dnstt", "warp"}
  {
  }

  /** The candidates are exactly the configured entries and the fallbacks that are eligible with their score. */
  lemma {:induction false} CandidateIff(u: Unified, s: NetStates, rates: Rates, c: Creds)
    requires ValidRates(rates) && s.latency >= 0.0 && s.throughput >= 0.0
    ensures Scored(c, Score(c.protocol, s, rates(c.protocol))) in Filtered(Ordered(u, s, rates))
       <==> (Some(c) in u.personal || Some(c) in u.collected + [u.worker] || Some(c) in Fallbacks(u))
            && Eligible(Scored(c, Score(c.protocol, s, rates(c.protocol))))
  {
    FilterMembers(Eligible, Ordered(u, s, rates), Scored(c, Score(c.protocol, s, rates(c.protocol))));
    var m, n := TierOrder(u, s, rates);
    ThreeTiers(Ordered(u, s, rates), m, n, u.personal, u.collected + [u.worker], Fallbacks(u), s, rates, c);
  }

  lemma {:induction false} ThreeTiers(o: seq<Scored>, m: nat, n: nat, first: seq<Option<Creds>>,
                                      second: seq<Option<Creds>>, third: seq<Option<Creds>>, s: NetStates,
                                      rates: Rates, c: Creds)
    requires ValidRates(rates) && s.latency >= 0.0 && s.throughput >= 0.0 && m <= n <= |o|
    requires IsTier(o[..m], first, s, rates) && IsTier(o[m..n], second, s, rates) && IsTier(o[n..], third, s, rates)
    ensures Scored(c, Score(c.protocol, s, rates(c.protocol))) in o
       <==> Some(c) in first || Some(c) in second || Some(c) in third
  {
    assert o == o[..m] + o[m..n] + o[n..];
    TierIff(o[..m], first, s, rates, c);
    TierIff(o[m..n], second, s, rates, c);
    TierIff(o[n..], third, s, rates, c);
  }

  lemma {:induction false} TierIff(tier: seq<Scored>, links: seq<Option<Creds>>, s: NetStates, rates: Rates, c: Creds)
    requires ValidRates(rates) && s.latency >= 0.0 && s.throughput >= 0.0 && IsTier(tier, links, s, rates)
    ensures Scored(c, Score(c.protocol, s, rates(c.protocol))) in tier <==> Some(c) in links
  {
    var x := Scored(c, Score(c.protocol, s, rates(c.protocol)));
    if x in tier {
      TierFrom(tier, links, s, rates, x);
    }
    if Some(c) in links {
      TierHas(tier, links, s, rates, c);
    }
  }

  /** An earlier attempt, before number `i`, was made with `c` and failed. */
  ghost predicate FailedEarlier(records: seq<Record>, es: seq<Scored>, i: nat, c: Creds, condition: string)
    requires i < |records| <= |es|
  {
    exists j | 0 <= j < i :: es[j].creds == c && records[j] == Record(c.protocol, condition, false)
  }

  lemma FrontPosition(o: seq<Scored>, m: nat, i: nat, x: Scored) returns (j: nat)
    requires m <= |o| && x in o[..m] && Eligible(x) && i < |Filtered(o)| && Filtered(o)[i] !in o[..m]
    ensures j < i && Filtered(o)[j] == x
  {
    var front := Filter(Eligible, o[..m]);
    FilterPrefix(Eligible, o, m);
    FilterMembers(Eligible, o[..m], x);
    j :| 0 <= j < |front| && front[j] == x;
    if i < |front| {
      FilterMembers(Eligible, o[..m], front[i]);
      assert false;
    }
  }

  /** The candidates up to position `m` are tried before the others. */
  lemma {:induction false} FrontFirst(o: seq<Scored>, m: nat, connect: Connecting, w: World, condition: string,
                                      plans: seq<Plan>, i: nat, x: Scored)
    requires m <= |o| && |plans| >= |Filtered(o)| && x in o[..m] && Eligible(x)
    requires i < |Tries(connect, w, Filtered(o), condition, plans, |Filtered(o)|).records|
    requires i < |Filtered(o)| && Filtered(o)[i] !in o[..m]
    ensures var records := Tries(connect, w, Filtered(o), condition, plans, |Filtered(o)|).records;
      |records| <= |Filtered(o)| && FailedEarlier(records, Filtered(o), i, x.creds, condition)
  {
    var es := Filtered(o);
    var j := FrontPosition(o, m, i, x);
    CutAfterSuccess(connect, w, es, condition, plans, |es|);
    assert es[j].creds == x.creds;
  }

  /** The tiers are tried in order: by the time a link that is not personal is tried, every eligible personal one was
      tried and failed, and a fallback is tried only after every eligible link and worker failed. */
  lemma TiersInOrder(u: Unified, s: NetStates, rates: Rates, connect: Connecting, w: World, condition: string,
                     plans: seq<Plan>, i: nat, c: Creds)
    requires ValidRates(rates) && s.latency >= 0.0 && s.throughput >= 0.0
    requires |plans| >= |Filtered(Ordered(u, s, rates))|
    requires var es := Filtered(Ordered(u, s, rates)); i < |Tries(connect, w, es, condition, plans, |es|).records|
    requires Score(c.protocol, s, rates(c.protocol)) > 0.1
             || c.protocol in {"tor_proxy", "tor_snowflake", "psiphon", "dnstt", "warp"}
    ensures var es := Filtered(Ordered(u, s, rates));
      var records := Tries(connect, w, es, condition, plans, |es|).records;
      && i < |records| <= |es|
      && (Some(c) in u.personal && Some(es[i].creds) !in u.personal ==> FailedEarlier(records, es, i, c, condition))
      && (Some(c) in u.personal + u.collected + [u.worker]
          && Some(es[i].creds) !in u.personal + u.collected + [u.worker] ==>
            FailedEarlier(records, es, i, c, condition))
  {
    var o := Ordered(u, s, rates);
    var es := Filtered(o);
    var x := Scored(c, Score(c.protocol, s, rates(c.protocol)));
    CutAfterSuccess(connect, w, es, condition, plans, |es|);
    var m, n := TierOrder(u, s, rates);
    if Some(c) in u.personal && Some(es[i].creds) !in u.personal {
      TierHas(o[..m], u.personal, s, rates, c);
      if es[i] in o[..m] {
        TierFrom(o[..m], u.personal, s, rates, es[i]);
        assert false;
      }
      FrontFirst(o, m, connect, w, condition, plans, i, x);
    }
    var links := u.personal + u.collected + [u.worker];
    if Some(c) in links && Some(es[i].creds) !in links {
      FirstTwo(o, m, n, u, s, rates, c, es[i]);
      FrontFirst(o, n, connect, w, condition, plans, i, x);
    }
  }

  lemma {:induction false} FirstTwo(o: seq<Scored>, m: nat, n: nat, u: Unified, s: NetStates, rates: Rates, c: Creds,
                                    y: Scored)
    requires ValidRates(rates) && s.latency >= 0.0 && s.throughput >= 0.0 && m <= n <= |o|
    requires IsTier(o[..m], u.personal, s, rates) && IsTier(o[m..n], u.collected + [u.worker], s, rates)
    requires Some(c) in u.personal + u.collected + [u.worker]
    requires Some(y.creds) !in u.personal + u.collected + [u.worker]
    ensures Scored(c, Score(c.protocol, s, rates(c.protocol))) in o[..n] && y !in o[..n]
  {
    assert o[..n] == o[..m] + o[m..n];
    if Some(c) in u.personal {
      TierHas(o[..m], u.personal, s, rates, c);
    } else {
      TierHas(o[m..n], u.collected + [u.worker], s, rates, c);
    }
    if y in o[..m] {
      TierFrom(o[..m], u.personal, s, rates, y);
      assert false;
    }
    if y in o[m..n] {
      TierFrom(o[m..n], u.collected + [u.worker], s, rates, y);
      assert false;
    }
  }

  ghost predicate AlternativesOf(t: Progress, es: seq<Scored>, condition: string, strategy: string) {
    && |t.records| <= |es|
    && (strategy in t.alternatives <==> Record(strategy, condition, false) in t.records)
    && (strategy in t.alternatives ==> LastFailure(t.records, es, strategy, condition, t.alternatives[strategy]))
  }

  lemma TriedAlternatives(connect: Connecting, t: Progress, es: seq<Scored>, condition: string, plan: Plan,
                          strategy: string)
    requires |t.records| < |es| && AlternativesOf(t, es, condition, strategy)
    ensures AlternativesOf(Tried(connect, t, es[|t.records|], condition, plan), es, condition, strategy)
  {
    var u, n := Tried(connect, t, es[|t.records|], condition, plan), |t.records|;
    assert u.records == t.records + [u.records[n]] && u.records[n].condition == condition;
    if u.records[n] == Record(strategy, condition, false) {
      assert LastFailure(u.records, es, strategy, condition, u.alternatives[strategy]);
    } else if strategy in t.alternatives {
      assert u.alternatives[strategy] == t.alternatives[strategy];
      var j :| 0 <= j < n && t.records[j] == Record(strategy, condition, false)
               && es[j].score == t.alternatives[strategy]
               && forall i | j < i < n :: t.records[i] != Record(strategy, condition, false);
      assert u.records[j] == t.records[j];
    }
  }

  /** The alternatives of an explanation: the strategies that failed, each with the score of its last candidate. */
  lemma {:induction false} AlternativesAre(connect: Connecting, w: World, es: seq<Scored>, condition: string,
                                           plans: seq<Plan>, k: nat, strategy: string)
    requires k <= |es| && k <= |plans|
    ensures AlternativesOf(Tries(connect, w, es, condition, plans, k), es, condition, strategy)
  {
    if k > 0 {
      AlternativesAre(connect, w, es, condition, plans, k - 1, strategy);
      Attempted(connect, w, es, condition, plans, k - 1);
      var t := Tries(connect, w, es, condition, plans, k - 1);
      if t.selected.None? {
        assert Tries(connect, w, es, condition, plans, k) == Tried(connect, t, es[k - 1], condition, plans[k - 1]);
        TriedAlternatives(connect, t, es, condition, plans[k - 1], strategy);
      }
    }
  }

  /** With UDP dropped, a strategy without TCP is tried exactly when it is among the always-eligible ones: hysteria2
      and tuic are skipped, warp and dnstt are still tried. */
  lemma UdpDroppedIff(c: Creds, s: NetStates, rates: Rates)
    requires ValidRates(rates) && s.latency >= 0.0 && s.throughput >= 0.0
    requires s.udp == "udp_dropped" && c.protocol in {"hysteria2", "tuic", "warp", "dnstt"}
    ensures Eligible(Scored(c, ScoreOf(c, s, rates))) <==> c.protocol in {"warp", "dnstt"}
  {
    assert !Capabilities(c.protocol).tcp;
  }

  /** No attempt under dropped UDP is made with hysteria2 or tuic. */
  lemma NoUdpAttempts(u: Unified, s: NetStates, rates: Rates, connect: Connecting, w: World, condition: string,
                      plans: seq<Plan>)
    requires ValidRates(rates) && s.latency >= 0.0 && s.throughput >= 0.0 && s.udp == "udp_dropped"
    requires |plans| >= |Filtered(Ordered(u, s, rates))|
    ensures var es := Filtered(Ordered(u, s, rates));
      forall r | r in Tries(connect, w, es, condition, plans, |es|).records :: r.strategy !in {"hysteria2", "tuic"}
  {
    var es := Filtered(Ordered(u, s, rates));
    var records := Tries(connect, w, es, condition, plans, |es|).records;
    CutAfterSuccess(connect, w, es, condition, plans, |es|);
    forall r | r in records ensures r.strategy !in {"hysteria2", "tuic"} {
      var i :| 0 <= i < |records| && records[i] == r;
      OrderedScores(u, s, rates, es[i]);
      UdpDroppedOrNot(es[i].creds, s, rates);
    }
  }

  lemma UdpDroppedOrNot(c: Creds, s: NetStates, rates: Rates)
    requires ValidRates(rates) && s.latency >= 0.0 && s.throughput >= 0.0 && s.udp == "udp_dropped"
    ensures Eligible(Scored(c, ScoreOf(c, s, rates))) ==> c.protocol !in {"hysteria2", "tuic"}
  {
    if c.protocol in {"hysteria2", "tuic"} {
      UdpDroppedIff(c, s, rates);
    }
  }

  /** Eligible candidates carry the score of their protocol. */
  lemma OrderedScores(u: Unified, s: NetStates, rates: Rates, x: Scored)
    requires ValidRates(rates) && s.latency >= 0.0 && s.throughput >= 0.0 && x in Filtered(Ordered(u, s, rates))
    ensures Eligible(x) && x == Scored(x.creds, ScoreOf(x.creds, s, rates))
  {
    FilterMembers(Eligible, Ordered(u, s, rates), x);
    SortedMembers(ScoredTier(Supported(u.personal), s, rates), x);
    SortedMembers(ScoredTier(Supported(u.collected) + Listed(u.worker), s, rates), x);
    SortedMembers(ScoredTier(LastTier(u), s, rates), x);
  }

  /** The tracked processes are those of `created` that were neither told to stop nor ended. */
  ghost predicate Accounted(w: World, created: seq<Proc>) {
    forall p :: p in w.active <==> p in created && !Stopped(w, p)
  }

  /** No attempt of the run connects. */
  predicate AllFail(connect: Connecting, w: World, plans: seq<Plan>) {
    plans == []
    || (AllFail(connect, w, plans[..|plans| - 1])
        && !connect(Chain(connect, w, plans[..|plans| - 1]), plans[|plans| - 1]).ok)
  }

  /** Whatever the executor's answer, the processes its run created that are still to be stopped are exactly the
      tracked ones. */
  lemma {:induction false} ExecutorAccounting(w: World, es: seq<Scored>, condition: string, plans: seq<Plan>, k: nat)
    requires WellNumbered(w) && k <= |es| && k <= |plans| && Tries(CONNECT, w, es, condition, plans, k).records != []
    ensures var t := Tries(CONNECT, w, es, condition, plans, k);
      |t.records| <= k && Accounted(t.world, CreatedBy(w, plans[..|t.records|]))
  {
    AllButLastFail(CONNECT, w, es, condition, plans, k);
    RunAccounting(w, plans[..|Tries(CONNECT, w, es, condition, plans, k).records|]);
  }

  /** The same in every interleaving in which the executor's attempts hold the lock one after the other and processes
      end by themselves at any moment: of the processes the run created, those neither told to stop nor ended are
      tracked, and nothing else is. */
  lemma AccountingWithExits(w0: World, run: seq<System>, steps: seq<Step>, i: nat, es: seq<Scored>, condition: string,
                            plans: seq<Plan>, k: nat)
    requires IsRun(w0, run, steps) && i < |run| && run[i].holder == None && WellNumbered(w0)
    requires k <= |es| && k <= |plans| && Tries(CONNECT, w0, es, condition, plans, k).records != []
    requires |Tries(CONNECT, w0, es, condition, plans, k).records| <= |plans|
    requires run[i].log == plans[..|Tries(CONNECT, w0, es, condition, plans, k).records|]
    ensures var w, created := run[i].world, CreatedBy(w0, run[i].log);
      && (forall p | p in w.active :: p in created && p !in w.told)
      && (forall p | p in created && !Stopped(w, p) :: p in w.active)
  {
    Serialisable(w0, run, steps, i);
    ChainIsSerial(w0, run[i].log);
    Attempted(CONNECT, w0, es, condition, plans, k);
    ExecutorAccounting(w0, es, condition, plans, k);
    var t := Tries(CONNECT, w0, es, condition, plans, k);
    assert Covers(run[i].world, t.world) && Accounted(t.world, CreatedBy(w0, run[i].log));
  }

  lemma AllButLastFail(connect: Connecting, w: World, es: seq<Scored>, condition: string, plans: seq<Plan>, k: nat)
    requires k <= |es| && k <= |plans| && Tries(connect, w, es, condition, plans, k).records != []
    ensures var t := Tries(connect, w, es, condition, plans, k);
      |t.records| <= k && t.world == Chain(connect, w, plans[..|t.records|])
      && AllFail(connect, w, plans[..|t.records|][..|t.records| - 1])
  {
    var n := |Tries(connect, w, es, condition, plans, k).records|;
    Attempted(connect, w, es, condition, plans, k);
    FailedBefore(connect, w, es, condition, plans, k);
    assert plans[..n][..n - 1] == plans[..n - 1];
    if Tries(connect, w, es, condition, plans, k).selected.None? {
      AllFailPrefix(connect, w, plans[..n]);
    }
  }

  lemma AllFailPrefix(connect: Connecting, w: World, plans: seq<Plan>)
    requires plans != [] && AllFail(connect, w, plans)
    ensures AllFail(connect, w, plans[..|plans| - 1])
  {
  }

  lemma {:induction false} FailedBefore(connect: Connecting, w: World, es: seq<Scored>, condition: string,
                                        plans: seq<Plan>, k: nat)
    requires k <= |es| && k <= |plans|
    ensures var t := Tries(connect, w, es, condition, plans, k);
      var n := if t.selected.Some? then |t.records| - 1 else k;
      0 <= n <= |plans| && AllFail(connect, w, plans[..n])
  {
    if k > 0 {
      FailedBefore(connect, w, es, condition, plans, k - 1);
      Attempted(connect, w, es, condition, plans, k - 1);
      if Tries(connect, w, es, condition, plans, k - 1).selected.None? {
        assert plans[..k][..k - 1] == plans[..k - 1];
      }
    }
  }

  /** The processes that a sequence of attempts creates. */
  function CreatedBy(w: World, plans: seq<Plan>): seq<Proc> {
    if plans == [] then []
    else
      var n := |plans| - 1;
      CreatedBy(w, plans[..n]) + Procs(Chain(CONNECT, w, plans[..n]).next, Created(plans[n]))
  }

  /** An answer carries the new ports, or the old ones with nothing tracked. */
  predicate PortRule(v: World, plan: Plan, a: Answer) {
    && WellNumbered(a.world)
    && (if a.ok then a.world.http == Some(plan.newHttp) && a.world.socks == Some(plan.newSocks)
        else a.world.http == v.http && a.world.socks == v.socks && a.world.active == [])
  }

  ghost predicate KeepsPortRule(connect: Connecting) {
    forall v, plan :: WellNumbered(v) ==> PortRule(v, plan, connect(v, plan))
  }

  lemma ConnectKeepsPortRule()
    ensures KeepsPortRule(CONNECT)
  {
    forall v, plan | WellNumbered(v) ensures PortRule(v, plan, CONNECT(v, plan)) {
      WellNumberedKept(v, plan);
      if Ok(v, plan) {
        TrueReturn(v, plan);
      } else {
        FalseReturn(v, plan);
      }
    }
  }

  ghost predicate PortsAfter(w: World, t: Progress, plans: seq<Plan>) {
    var n := |t.records|;
    if t.selected.Some? then
      0 < n <= |plans| && t.world.http == Some(plans[n - 1].newHttp) && t.world.socks == Some(plans[n - 1].newSocks)
    else t.world.http == w.http && t.world.socks == w.socks && (n > 0 ==> t.world.active == [])
  }

  lemma {:induction false} PortsKept(connect: Connecting, w: World, es: seq<Scored>, condition: string,
                                     plans: seq<Plan>, k: nat)
    requires WellNumbered(w) && KeepsPortRule(connect) && k <= |es| && k <= |plans|
    ensures var t := Tries(connect, w, es, condition, plans, k); WellNumbered(t.world) && PortsAfter(w, t, plans)
  {
    if k > 0 {
      PortsKept(connect, w, es, condition, plans, k - 1);
      Attempted(connect, w, es, condition, plans, k - 1);
      var t := Tries(connect, w, es, condition, plans, k - 1);
      if t.selected.None? {
        assert PortRule(t.world, plans[k - 1], connect(t.world, plans[k - 1]));
      }
    }
  }

  /** Attempt `i` is the first to connect. */
  predicate FirstConnects(connect: Connecting, w: World, plans: seq<Plan>, i: nat)
    requires i < |plans|
  {
    connect(Chain(connect, w, plans[..i]), plans[i]).ok && AllFail(connect, w, plans[..i])
  }

  lemma {:induction false} AllFailAt(connect: Connecting, w: World, plans: seq<Plan>, m: nat, i: nat)
    requires i < m <= |plans| && AllFail(connect, w, plans[..m])
    ensures !connect(Chain(connect, w, plans[..i]), plans[i]).ok
  {
    assert plans[..m][..m - 1] == plans[..m - 1];
    if i < m - 1 {
      AllFailAt(connect, w, plans, m - 1, i);
    }
  }

  /** The executor selects exactly when some attempt is the first to connect, and stops there. */
  lemma SelectedIff(connect: Connecting, w: World, es: seq<Scored>, condition: string, plans: seq<Plan>, k: nat, i: nat)
    requires i < k <= |es| && k <= |plans|
    ensures var t := Tries(connect, w, es, condition, plans, k);
      FirstConnects(connect, w, plans, i) <==> t.selected.Some? && |t.records| == i + 1
  {
    var t := Tries(connect, w, es, condition, plans, k);
    var n := |t.records|;
    Attempted(connect, w, es, condition, plans, k);
    FailedBefore(connect, w, es, condition, plans, k);
    if t.selected.None? {
      AllFailAt(connect, w, plans, k, i);
    } else {
      RecordAt(connect, w, es, condition, plans, k, n - 1);
      if i < n - 1 {
        AllFailAt(connect, w, plans, n - 1, i);
      } else if i > n - 1 && AllFail(connect, w, plans[..i]) {
        AllFailAt(connect, w, plans, i, n - 1);
        assert false;
      }
    }
  }

  /** The ports after a run: those of the attempt that connected, or else those from before the run. The engine's
      health probe, which keeps the HTTP port `probe` it copied before the run, is therefore out of date exactly when
      the first attempt to connect did so on another port. */
  lemma RunPorts(w: World, es: seq<Scored>, condition: string, plans: seq<Plan>, k: nat, probe: Port)
    requires WellNumbered(w) && k <= |es| && k <= |plans| && w.http == Some(probe)
    ensures var t := Tries(CONNECT, w, es, condition, plans, k);
      && PortsAfter(w, t, plans)
      && (t.world.http != Some(probe) <==> t.selected.Some? && plans[|t.records| - 1].newHttp != probe)
      && (t.world.http != Some(probe)
          <==> exists i | 0 <= i < k :: FirstConnects(CONNECT, w, plans, i) && plans[i].newHttp != probe)
  {
    ConnectKeepsPortRule();
    PortsKept(CONNECT, w, es, condition, plans, k);
    Attempted(CONNECT, w, es, condition, plans, k);
    forall i | 0 <= i < k
      ensures var t := Tries(CONNECT, w, es, condition, plans, k);
        FirstConnects(CONNECT, w, plans, i) <==> t.selected.Some? && |t.records| == i + 1
    {
      SelectedIff(CONNECT, w, es, condition, plans, k, i);
    }
    var t := Tries(CONNECT, w, es, condition, plans, k);
    if t.selected.Some? {
      assert FirstConnects(CONNECT, w, plans, |t.records| - 1);
    }
  }

  /** A first attempt that connects on port 2081 leaves a probe of port 1081 out of date. */
  lemma ProbeOutOfDate()
    ensures var w := World([], {}, {}, 0, Some(1080), Some(1081), [1080, 1081], Proxy(false, None));
      var plan := Plan(false, 2080, 2081, true, true, Some(["xray"]), None, [Reached(Enabled, None)], true);
      var t := Tries(CONNECT, w, [Scored(Creds("vless", ""), 0.5)], "dpi_filtering", [plan], 1);
      t.selected == Some("vless") && t.world.http == Some(2081)
  {
    var w := World([], {}, {}, 0, Some(1080), Some(1081), [1080, 1081], Proxy(false, None));
    var plan := Plan(false, 2080, 2081, true, true, Some(["xray"]), None, [Reached(Enabled, None)], true);
    var es := [Scored(Creds("vless", ""), 0.5)];
    assert Tries(CONNECT, w, es, "dpi_filtering", [plan], 0) == Progress(w, [], map[], None);
    assert Ok(w, plan) by {
      assert Checking(w, plan, Procs(w.next, ["xray"]), 0, false).1;
    }
    TrueReturn(w, plan);
  }

  /** The accounting of successive attempts, all but the last of which fail. */
  lemma RunAccounting(w: World, plans: seq<Plan>)
    requires WellNumbered(w) && plans != []
    requires AllFail(CONNECT, w, plans[..|plans| - 1])
    ensures Accounted(Chain(CONNECT, w, plans), CreatedBy(w, plans))
  {
    var n := |plans| - 1;
    EarlierStopped(w, plans[..n]);
    LastAccounting(Chain(CONNECT, w, plans[..n]), plans[n], CreatedBy(w, plans[..n]));
  }

  /** The accounting of one attempt after others whose processes have all been stopped. */
  lemma LastAccounting(v: World, plan: Plan, earlier: seq<Proc>)
    requires WellNumbered(v) && forall p | p in earlier :: Stopped(v, p)
    ensures Accounted(CONNECT(v, plan).world, earlier + Procs(v.next, Created(plan)))
  {
    WellNumberedKept(v, plan);
    if Ok(v, plan) {
      TrueReturn(v, plan);
      CreatedWhenOk(v, plan);
    } else {
      FalseReturn(v, plan);
    }
  }

  lemma CreatedWhenOk(v: World, plan: Plan)
    requires Ok(v, plan)
    ensures plan.commands == Some(Created(plan))
  {
    FinalIs(v, plan);
  }

  lemma {:induction false} EarlierStopped(w: World, plans: seq<Plan>)
    requires WellNumbered(w) && AllFail(CONNECT, w, plans)
    ensures WellNumbered(Chain(CONNECT, w, plans))
    ensures forall p | p in CreatedBy(w, plans) :: Stopped(Chain(CONNECT, w, plans), p)
  {
    if plans != [] {
      var n := |plans| - 1;
      EarlierStopped(w, plans[..n]);
      WellNumberedKept(Chain(CONNECT, w, plans[..n]), plans[n]);
      FalseReturn(Chain(CONNECT, w, plans[..n]), plans[n]);
    }
  }
}
