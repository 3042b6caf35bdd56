/** What the recorded outcomes mean for later decisions: cycles of diagnosis, scoring, attempts and recording
    (BypssEng.py, bypsseng/engine/orchestrator.py, bypsseng/telemetry). */
module Learning {
  import opened Text
  import opened Connection
  import opened Telemetry
  import opened Scorer
  import opened Executor
  import DecisionRules

  /** One cycle: the state map that was diagnosed, the configuration, the world at its start, and the environment of
      its attempts. `now` is the time of scoring and `times` are those of recording. */
  datatype Cycle = Cycle(states: DecisionRules.States, config: Unified, world: World, plans: nat -> Plan, now: real,
                         times: nat -> real)

  /** The condition under which a cycle's outcomes are recorded. */
  function ConditionOf(c: Cycle): string {
    DecisionRules.Joined(DecisionRules.Diagnoses(c.states))
  }

  /** What scoring reads of the state map, which never holds a latency or a throughput. */
  function NetOf(c: Cycle): (s: NetStates)
    ensures s.latency >= 0.0 && s.throughput >= 0.0
  {
    NetStates(c.states.udp, c.states.dpi, c.states.speed, 500.0, 0.0)
  }

  /** The success rates read in a cycle: those recorded under its DPI state. */
  function RatesOf(rows: seq<Row>, c: Cycle): (rates: Rates)
    ensures ValidRates(rates)
  {
    strategy => Rate(Window(Matching(rows, strategy, c.states.dpi)), c.now)
  }

  function CandidatesOf(rows: seq<Row>, c: Cycle): seq<Scored> {
    Filtered(Ordered(c.config, NetOf(c), RatesOf(rows, c)))
  }

  function PlansOf(c: Cycle, n: nat): (plans: seq<Plan>)
    ensures |plans| == n
  {
    seq(n, i requires 0 <= i < n => c.plans(i))
  }

  function AttemptsOf(connect: Connecting, rows: seq<Row>, c: Cycle): Progress {
    var es := CandidatesOf(rows, c);
    Tries(connect, c.world, es, ConditionOf(c), PlansOf(c, |es|), |es|)
  }

  function RowsOf(records: seq<Record>, times: nat -> real): (rows: seq<Row>)
    ensures |rows| == |records|
  {
    seq(|records|,
        i requires 0 <= i < |records| =>
          Row(times(i), records[i].strategy, records[i].condition, records[i].success))
  }

  /** The rows a run of attempts adds: one for each, and one more when none connected. */
  function RowsAfter(t: Progress, condition: string, times: nat -> real): seq<Row> {
    RowsOf(t.records, times)
    + if t.selected.None? then [Row(times(|t.records|), "all_failed", condition, false)] else []
  }

  function Added(connect: Connecting, rows: seq<Row>, c: Cycle): seq<Row> {
    RowsAfter(AttemptsOf(connect, rows, c), ConditionOf(c), c.times)
  }

  function History(connect: Connecting, cycles: seq<Cycle>): seq<Row> {
    if cycles == [] then []
    else
      var n := |cycles| - 1;
      History(connect, cycles[..n]) + Added(connect, History(connect, cycles[..n]), cycles[n])
  }

  /** The outcomes of a run of attempts are recorded under its condition. */
  lemma {:induction false} RowsUnder(connect: Connecting, w: World, es: seq<Scored>, condition: string,
                                     plans: seq<Plan>, times: nat -> real, r: Row)
    requires |plans| == |es| && r in RowsAfter(Tries(connect, w, es, condition, plans, |es|), condition, times)
    ensures r.condition == condition
  {
    var t := Tries(connect, w, es, condition, plans, |es|);
    CutAfterSuccess(connect, w, es, condition, plans, |es|);
    if r in RowsOf(t.records, times) {
      var i :| 0 <= i < |t.records| && RowsOf(t.records, times)[i] == r;
      assert t.records[i].condition == condition;
    }
  }

  lemma {:induction false} AddedUnder(connect: Connecting, rows: seq<Row>, c: Cycle, r: Row)
    requires r in Added(connect, rows, c)
    ensures r.condition == ConditionOf(c)
  {
    var es := CandidatesOf(rows, c);
    RowsUnder(connect, c.world, es, ConditionOf(c), PlansOf(c, |es|), c.times, r);
  }

  /** Every row was recorded under the joined condition of some cycle. */
  lemma {:induction false} RecordedUnder(connect: Connecting, cycles: seq<Cycle>, r: Row)
    requires r in History(connect, cycles)
    ensures exists c | c in cycles :: r.condition == ConditionOf(c)
  {
    var n := |cycles| - 1;
    if r in History(connect, cycles[..n]) {
      RecordedUnder(connect, cycles[..n], r);
      var c :| c in cycles[..n] && r.condition == ConditionOf(c);
      assert c in cycles;
    } else {
      AddedUnder(connect, History(connect, cycles[..n]), cycles[n], r);
      assert cycles[n] in cycles;
    }
  }

  /** The values the DPI test yields. */
  const DPI_STATES: set<string> := {"dpi_none", "dpi_rst", "dpi_aggressive", "dpi_unknown"}

  /** The names of the conditions. */
  const NAMES: set<string> :=
    {"captive_portal", "dns_interference", "dpi_filtering", "bandwidth_throttling", "udp_blocking", "speed_failed"}

  lemma {:induction false} JoinedStarts(ds: seq<DecisionRules.Diagnosis>)
    requires ds != []
    ensures StartsWith(DecisionRules.Joined(ds), ds[0].condition)
  {
    if |ds| > 1 {
      var n := |ds| - 1;
      JoinedStarts(ds[..n]);
      var front, whole := DecisionRules.Joined(ds[..n]), DecisionRules.Joined(ds);
      assert whole == front + (" & " + ds[n].condition);
      assert whole[..|front|] == front;
    }
  }

  lemma FirstNamed(s: DecisionRules.States)
    ensures DecisionRules.Diagnoses(s)[0].condition in NAMES
  {
    var d := DecisionRules.Diagnoses(s)[0];
    assert d in DecisionRules.Diagnoses(s);
    DecisionRules.DiagnosedIff(s, d.condition);
  }

  /** A name and a DPI state differ within their first five characters. */
  lemma NamesDiffer(name: string, dpi: string)
    requires name in NAMES && dpi in DPI_STATES
    ensures |name| >= 5 && |dpi| >= 5 && name[..5] != dpi[..5]
  {
    assert name[..5][4] == name[4] && dpi[..5][4] == dpi[4] && name[..5][0] == name[0] && dpi[..5][0] == dpi[0];
    assert name[..5][1] == name[1] && dpi[..5][1] == dpi[1];
  }

  /** No joined condition is a DPI state. */
  lemma ConditionIsNoDpiState(c: Cycle, dpi: string)
    requires dpi in DPI_STATES
    ensures ConditionOf(c) != dpi
  {
    var ds := DecisionRules.Diagnoses(c.states);
    JoinedStarts(ds);
    FirstNamed(c.states);
    NamesDiffer(ds[0].condition, dpi);
    var name := ds[0].condition;
    assert ConditionOf(c)[..|name|][..5] == ConditionOf(c)[..5];
  }

  /** In every run the history read under a DPI state is empty: outcomes are recorded under one kind of name and looked
      up under another. */
  lemma {:induction false} NothingIsRead(connect: Connecting, cycles: seq<Cycle>, strategy: string, dpi: string)
    requires dpi in DPI_STATES
    ensures Matching(History(connect, cycles), strategy, dpi) == []
  {
    var read := Matching(History(connect, cycles), strategy, dpi);
    if read != [] {
      var x := read[0];
      MatchingIff(History(connect, cycles), strategy, dpi, x);
      RecordedUnder(connect, cycles, Row(x.ts, strategy, dpi, x.success));
      var c :| c in cycles && dpi == ConditionOf(c);
      ConditionIsNoDpiState(c, dpi);
      assert false;
    }
  }

  const NO_HISTORY: Rates := (strategy: string) => 0.0

  lemma RatesAreZero(connect: Connecting, cycles: seq<Cycle>, c: Cycle, strategy: string)
    requires c.states.dpi in DPI_STATES
    ensures RatesOf(History(connect, cycles), c)(strategy) == 0.0
  {
    NothingIsRead(connect, cycles, strategy, c.states.dpi);
  }

  lemma OrderedCongruent(u: Unified, s: NetStates, r1: Rates, r2: Rates)
    requires ValidRates(r1) && ValidRates(r2) && s.latency >= 0.0 && s.throughput >= 0.0
    requires forall p :: r1(p) == r2(p)
    ensures Ordered(u, s, r1) == Ordered(u, s, r2)
  {
    TierCongruent(Supported(u.personal), s, r1, r2);
    TierCongruent(Supported(u.collected) + Listed(u.worker), s, r1, r2);
    TierCongruent(LastTier(u), s, r1, r2);
  }

  lemma TierCongruent(tier: seq<Creds>, s: NetStates, r1: Rates, r2: Rates)
    requires ValidRates(r1) && ValidRates(r2) && s.latency >= 0.0 && s.throughput >= 0.0
    requires forall p :: r1(p) == r2(p)
    ensures ScoredTier(tier, s, r1) == ScoredTier(tier, s, r2)
  {
  }

  /** In every run the candidates of every cycle, their scores and their order are those of an engine that has no
      history at all: what earlier cycles recorded changes nothing. */
  lemma {:induction false} HistoryIsInert(connect: Connecting, cycles: seq<Cycle>, c: Cycle)
    requires c.states.dpi in DPI_STATES
    ensures ValidRates(NO_HISTORY)
    ensures CandidatesOf(History(connect, cycles), c) == Filtered(Ordered(c.config, NetOf(c), NO_HISTORY))
  {
    forall strategy ensures RatesOf(History(connect, cycles), c)(strategy) == NO_HISTORY(strategy) {
      RatesAreZero(connect, cycles, c, strategy);
    }
    OrderedCongruent(c.config, NetOf(c), RatesOf(History(connect, cycles), c), NO_HISTORY);
  }

  /** The share of history in every score. */
  lemma NoHistoryScore(strategy: string, s: NetStates)
    requires s.latency == 500.0 && s.throughput == 0.0
    ensures Score(strategy, s, 0.0) == if UdpHopeless(strategy, s) then 0.0 else Fit(strategy, s) + 0.016
  {
    assert Posterior(0.0) == 0.5 && Confidence(0.5) == 0.1;
    HealthIs(0.5, 500.0, 0.0);
  }

  /** The candidates without history: a link is tried exactly when its protocol is always tried, inspection is
      aggressive and its protocol is in the capability table, or the network is throttled and it uses UDP. */
  predicate Tried(protocol: string, s: DecisionRules.States) {
    || protocol in {"tor_proxy", "tor_snowflake", "psiphon", "dnstt", "warp"}
    || (!(s.udp == "udp_dropped" && protocol in {"hysteria2", "tuic"})
        && ((s.dpi in {"dpi_aggressive", "dpi_rst"} && protocol in LISTED)
            || (s.speed in {"throttled_intl", "speed_slow"}
                && (protocol in {"hysteria2", "tuic"} || protocol !in LISTED))))
  }

  lemma NoHistoryEligible(c: Creds, s: DecisionRules.States, net: NetStates)
    requires net == NetStates(s.udp, s.dpi, s.speed, 500.0, 0.0)
    ensures Eligible(Scored(c, Score(c.protocol, net, 0.0))) <==> Tried(c.protocol, s)
  {
    NoHistoryScore(c.protocol, net);
    CapabilitiesAre(c.protocol);
    EligibleIff(Scored(c, Score(c.protocol, net, 0.0)));
  }

  /** In every cycle of every run the candidates are decided by their protocol and the states alone. */
  lemma {:induction false} CandidatesAre(connect: Connecting, cycles: seq<Cycle>, c: Cycle, creds: Creds)
    requires c.states.dpi in DPI_STATES
    ensures (exists x | x in CandidatesOf(History(connect, cycles), c) :: x.creds == creds)
       <==> (Some(creds) in c.config.personal || Some(creds) in c.config.collected + [c.config.worker]
             || Some(creds) in Fallbacks(c.config))
            && Tried(creds.protocol, c.states)
  {
    HistoryIsInert(connect, cycles, c);
    CandidateIff(c.config, NetOf(c), NO_HISTORY, creds);
    NoHistoryEligible(creds, c.states, NetOf(c));
    var es := CandidatesOf(History(connect, cycles), c);
    forall x | x in es ensures x == Scored(x.creds, Score(x.creds.protocol, NetOf(c), 0.0)) {
      OrderedScores(c.config, NetOf(c), NO_HISTORY, x);
    }
  }

  /** Neither aggressive inspection nor throttling was found. */
  predicate Calm(s: DecisionRules.States) {
    s.dpi in {"dpi_none", "dpi_unknown"} && s.speed !in {"throttled_intl", "speed_slow"}
  }

  lemma CalmTried(protocol: string, s: DecisionRules.States)
    requires Calm(s)
    ensures s.dpi in DPI_STATES
    ensures Tried(protocol, s) <==> protocol in {"tor_proxy", "tor_snowflake", "psiphon", "dnstt", "warp"}
  {
  }

  /** Without aggressive inspection or throttling no configured link is ever tried, whatever else is blocked: only the
      five strategies that are tried whatever their score. */
  lemma {:induction false} LinksSkipped(connect: Connecting, cycles: seq<Cycle>, c: Cycle, x: Scored)
    requires Calm(c.states) && x in CandidatesOf(History(connect, cycles), c)
    ensures x.creds.protocol in {"tor_proxy", "tor_snowflake", "psiphon", "dnstt", "warp"}
  {
    CalmTried(x.creds.protocol, c.states);
    CandidatesAre(connect, cycles, c, x.creds);
  }
}
