/** The rule engine, its seven policies, and the aggregation of matched diagnoses (bypsseng/engine/rule_engine.py,
    bypsseng/decision/policies.py, bypsseng/engine/orchestrator.py). */
module DecisionRules {
  import opened Sequences
  import opened Text

  /** The state map; a missing text entry is "". */
  datatype States = States(captive: bool, dns: string, dpi: string, speed: string, udp: string)

  datatype Diagnosis = Diagnosis(condition: string, confidence: real, evidence: seq<string>, severity: string)

  /** A registered pair; None stands for a raised exception. */
  datatype Rule = Rule(condition: States -> Option<bool>, action: States -> Option<Diagnosis>)

  const FALLBACK := Diagnosis("speed_failed", 0.5, ["no_matching_rules", "undetermined_state"], "low")

  /** What one rule contributes. */
  function Contribution(r: Rule, s: States): (ds: seq<Diagnosis>)
    ensures |ds| <= 1
  {
    if r.condition(s) == Some(true) then
      match r.action(s) case None => [] case Some(d) => [d]
    else []
  }

  function Fired(rules: seq<Rule>, s: States): seq<Diagnosis> {
    if rules == [] then [] else Fired(rules[..|rules| - 1], s) + Contribution(rules[|rules| - 1], s)
  }

  class RuleEngine {
    var rules: seq<Rule>

    constructor ()
      ensures rules == []
    {
      rules := [];
    }

    method AddRule(r: Rule)
      modifies this
      ensures rules == old(rules) + [r]
    {
      rules := rules + [r];
    }

    /** The result is never empty. */
    method Evaluate(s: States) returns (diagnoses: seq<Diagnosis>)
      ensures diagnoses == if Fired(rules, s) == [] then [FALLBACK] else Fired(rules, s)
      ensures diagnoses != []
    {
      diagnoses := [];
      for i := 0 to |rules|
        invariant diagnoses == Fired(rules[..i], s)
      {
        assert rules[..i + 1][..i] == rules[..i];
        var holds := rules[i].condition(s);
        if holds == Some(true) {
          var d := rules[i].action(s);
          if d.Some? { diagnoses := diagnoses + [d.value]; }
        }
      }
      assert rules[..|rules|] == rules;
      if diagnoses == [] { diagnoses := [FALLBACK]; }
    }
  }

  const CAPTIVE_RULE := Rule(
    (s: States) => Some(s.captive),
    (s: States) => Some(Diagnosis("captive_portal", 1.0, ["captive_portal_detected"], "high")))
  const DNS_RULE := Rule(
    (s: States) => Some(s.dns in ["dns_dropped", "dns_hijacked", "udp_dns_blocked"]),
    (s: States) => Some(Diagnosis("dns_interference", 0.9, ["dns_disruption_detected", "dns_state=" + s.dns], "high")))
  const DNS_UNKNOWN_RULE := Rule(
    (s: States) => Some(s.dns == "dns_unknown"),
    (s: States) => Some(Diagnosis("dns_interference", 0.6,
                                  ["dns_state_unclear", "treating_as_potential_interference"], "medium")))
  const DPI_RULE := Rule(
    (s: States) => Some(s.dpi in ["dpi_aggressive", "dpi_rst"]),
    (s: States) => Some(Diagnosis("dpi_filtering", 0.85, ["sni_filtering_detected", "dpi_state=" + s.dpi], "high")))
  const DPI_UNKNOWN_RULE := Rule(
    (s: States) => Some(s.dpi == "dpi_unknown"),
    (s: States) => Some(Diagnosis("dpi_filtering", 0.6,
                                  ["dpi_state_unclear", "treating_as_potential_filtering"], "medium")))
  const SPEED_RULE := Rule(
    (s: States) => Some(s.speed in ["throttled_intl", "speed_slow", "intl_cut"]),
    (s: States) => Some(Diagnosis("bandwidth_throttling", 0.75,
                                  ["international_speed_low", "speed_state=" + s.speed], "medium")))
  const UDP_RULE := Rule(
    (s: States) => Some(s.udp == "udp_dropped"),
    (s: States) => Some(Diagnosis("udp_blocking", 0.8, ["udp_traffic_dropped"], "medium")))

  const POLICIES: seq<Rule> :=
    [CAPTIVE_RULE, DNS_RULE, DNS_UNKNOWN_RULE, DPI_RULE, DPI_UNKNOWN_RULE, SPEED_RULE, UDP_RULE]

  method SetupDecisionRules() returns (engine: RuleEngine)
    ensures fresh(engine) && engine.rules == POLICIES
  {
    engine := new RuleEngine();
    engine.AddRule(CAPTIVE_RULE);
    engine.AddRule(DNS_RULE);
    engine.AddRule(DNS_UNKNOWN_RULE);
    engine.AddRule(DPI_RULE);
    engine.AddRule(DPI_UNKNOWN_RULE);
    engine.AddRule(SPEED_RULE);
    engine.AddRule(UDP_RULE);
  }

  /** The diagnoses of a state map. */
  function Diagnoses(s: States): (ds: seq<Diagnosis>)
    ensures ds != []
  {
    if Fired(POLICIES, s) == [] then [FALLBACK] else Fired(POLICIES, s)
  }

  lemma {:induction false} FiredConcat(a: seq<Rule>, b: seq<Rule>, s: States)
    ensures Fired(a + b, s) == Fired(a, s) + Fired(b, s)
  {
    if b == [] {
      assert a + b == a;
    } else {
      var n := |b| - 1;
      FiredConcat(a, b[..n], s);
      OneRuleMore(a, b[..n], b[n], s);
      FrontAndLast(b);
    }
  }

  /** A diagnosis comes from a rule whose condition holds and whose action gives it; a rule that raises in its condition
      or action gives none. */
  lemma {:induction false} FiredIff(rules: seq<Rule>, s: States, d: Diagnosis)
    ensures d in Fired(rules, s)
       <==> exists r | r in rules :: r.condition(s) == Some(true) && r.action(s) == Some(d)
  {
    if rules != [] {
      var n := |rules| - 1;
      FiredIff(rules[..n], s, d);
      assert rules == rules[..n] + [rules[n]] && rules[n] in rules;
      assert forall r | r in rules[..n] :: r in rules;
    }
  }

  lemma OneRuleMore(a: seq<Rule>, b: seq<Rule>, r: Rule, s: States)
    requires Fired(a + b, s) == Fired(a, s) + Fired(b, s)
    ensures Fired(a + (b + [r]), s) == Fired(a, s) + Fired(b + [r], s)
  {
    FiredSnoc(a + b, r, s);
    FiredSnoc(b, r, s);
    Regroup(a, b, [r]);
    Regroup(Fired(a, s), Fired(b, s), Contribution(r, s));
  }

  lemma FiredSnoc(rules: seq<Rule>, r: Rule, s: States)
    ensures Fired(rules + [r], s) == Fired(rules, s) + Contribution(r, s)
  {
    assert (rules + [r])[..|rules|] == rules;
  }

  lemma FiredOne(r: Rule, s: States)
    ensures Fired([r], s) == Contribution(r, s)
  {
    assert [r][..0] == [];
    assert Fired([r], s) == Fired([r][..0], s) + Contribution(r, s);
  }

  lemma FiredTwo(a: Rule, b: Rule, s: States)
    ensures Fired([a, b], s) == Contribution(a, s) + Contribution(b, s)
  {
    assert [a, b] == [a] + [b];
    FiredConcat([a], [b], s);
    FiredOne(a, s);
    FiredOne(b, s);
  }

  function DnsSlot(s: States): seq<Diagnosis> { Contribution(DNS_RULE, s) + Contribution(DNS_UNKNOWN_RULE, s) }
  function DpiSlot(s: States): seq<Diagnosis> { Contribution(DPI_RULE, s) + Contribution(DPI_UNKNOWN_RULE, s) }

  lemma FiveSlots(a: seq<Rule>, b: seq<Rule>, c: seq<Rule>, d: seq<Rule>, e: seq<Rule>, s: States)
    ensures Fired(a + b + c + d + e, s) == Fired(a, s) + Fired(b, s) + Fired(c, s) + Fired(d, s) + Fired(e, s)
  {
    FiredConcat(a, b, s);
    FiredConcat(a + b, c, s);
    FiredConcat(a + b + c, d, s);
    FiredConcat(a + b + c + d, e, s);
  }

  /** The matched policies, one slot per subject. */
  lemma FiredBySubject(s: States)
    ensures Fired(POLICIES, s)
         == Contribution(CAPTIVE_RULE, s) + DnsSlot(s) + DpiSlot(s) + Contribution(SPEED_RULE, s)
            + Contribution(UDP_RULE, s)
  {
    assert POLICIES == [CAPTIVE_RULE] + [DNS_RULE, DNS_UNKNOWN_RULE] + [DPI_RULE, DPI_UNKNOWN_RULE] + [SPEED_RULE]
                       + [UDP_RULE];
    FiveSlots([CAPTIVE_RULE], [DNS_RULE, DNS_UNKNOWN_RULE], [DPI_RULE, DPI_UNKNOWN_RULE], [SPEED_RULE], [UDP_RULE], s);
    FiredOne(CAPTIVE_RULE, s);
    FiredTwo(DNS_RULE, DNS_UNKNOWN_RULE, s);
    FiredTwo(DPI_RULE, DPI_UNKNOWN_RULE, s);
    FiredOne(SPEED_RULE, s);
    FiredOne(UDP_RULE, s);
  }

  ghost predicate DistinctConditions(ds: seq<Diagnosis>) {
    forall i, j | 0 <= i < j < |ds| :: ds[i].condition != ds[j].condition
  }

  ghost predicate AllNamed(ds: seq<Diagnosis>, names: set<string>) {
    forall d | d in ds :: d.condition in names
  }

  lemma DistinctConcat(a: seq<Diagnosis>, b: seq<Diagnosis>, m: set<string>, n: set<string>)
    requires DistinctConditions(a) && DistinctConditions(b) && AllNamed(a, m) && AllNamed(b, n) && m !! n
    ensures DistinctConditions(a + b) && AllNamed(a + b, m + n)
  {
    assert forall i | 0 <= i < |a| :: a[i] in a;
    assert forall i | 0 <= i < |b| :: b[i] in b;
  }

  lemma SlotsNamed(s: States)
    ensures |DnsSlot(s)| <= 1 && AllNamed(DnsSlot(s), {"dns_interference"})
    ensures |DpiSlot(s)| <= 1 && AllNamed(DpiSlot(s), {"dpi_filtering"})
    ensures AllNamed(Contribution(CAPTIVE_RULE, s), {"captive_portal"})
    ensures AllNamed(Contribution(SPEED_RULE, s), {"bandwidth_throttling"})
    ensures AllNamed(Contribution(UDP_RULE, s), {"udp_blocking"})
  {
    assert s.dns == "dns_unknown" ==> s.dns !in ["dns_dropped", "dns_hijacked", "udp_dns_blocked"];
    assert s.dpi == "dpi_unknown" ==> s.dpi !in ["dpi_aggressive", "dpi_rst"];
  }

  /** No state map yields two diagnoses of the same condition. */
  lemma DiagnosesDistinct(s: States)
    ensures DistinctConditions(Diagnoses(s))
  {
    FiredBySubject(s);
    SlotsNamed(s);
    var one, two := {"captive_portal"}, {"captive_portal"} + {"dns_interference"};
    var three, four := two + {"dpi_filtering"}, two + {"dpi_filtering"} + {"bandwidth_throttling"};
    var captive, speed, udp := Contribution(CAPTIVE_RULE, s), Contribution(SPEED_RULE, s), Contribution(UDP_RULE, s);
    DistinctConcat(captive, DnsSlot(s), one, {"dns_interference"});
    DistinctConcat(captive + DnsSlot(s), DpiSlot(s), two, {"dpi_filtering"});
    DistinctConcat(captive + DnsSlot(s) + DpiSlot(s), speed, three, {"bandwidth_throttling"});
    DistinctConcat(captive + DnsSlot(s) + DpiSlot(s) + speed, udp, four, {"udp_blocking"});
  }

  ghost predicate Names(ds: seq<Diagnosis>, name: string) {
    exists d | d in ds :: d.condition == name
  }

  predicate DnsSuspect(s: States) { s.dns in {"dns_dropped", "dns_hijacked", "udp_dns_blocked", "dns_unknown"} }
  predicate DpiSuspect(s: States) { s.dpi in {"dpi_aggressive", "dpi_rst", "dpi_unknown"} }
  predicate SpeedLow(s: States) { s.speed in {"throttled_intl", "speed_slow", "intl_cut"} }

  lemma NamesConcat(a: seq<Diagnosis>, b: seq<Diagnosis>, name: string)
    ensures Names(a + b, name) <==> Names(a, name) || Names(b, name)
  {
    if d :| d in a && d.condition == name {
      assert d in a + b;
    }
    if d :| d in b && d.condition == name {
      assert d in a + b;
    }
  }

  lemma CaptiveNamed(s: States, name: string)
    ensures Names(Contribution(CAPTIVE_RULE, s), name) <==> s.captive && name == "captive_portal"
  {
    var ds := Contribution(CAPTIVE_RULE, s);
    assert s.captive ==> ds[0] in ds && ds[0].condition == "captive_portal";
  }

  lemma DnsNamed(s: States, name: string)
    ensures Names(DnsSlot(s), name) <==> DnsSuspect(s) && name == "dns_interference"
  {
    var ds := DnsSlot(s);
    assert DnsSuspect(s) ==> ds[0] in ds && ds[0].condition == "dns_interference";
  }

  lemma DpiNamed(s: States, name: string)
    ensures Names(DpiSlot(s), name) <==> DpiSuspect(s) && name == "dpi_filtering"
  {
    var ds := DpiSlot(s);
    assert DpiSuspect(s) ==> ds[0] in ds && ds[0].condition == "dpi_filtering";
  }

  lemma SpeedNamed(s: States, name: string)
    ensures Names(Contribution(SPEED_RULE, s), name) <==> SpeedLow(s) && name == "bandwidth_throttling"
  {
    var ds := Contribution(SPEED_RULE, s);
    assert SpeedLow(s) ==> ds[0] in ds && ds[0].condition == "bandwidth_throttling";
  }

  lemma UdpNamed(s: States, name: string)
    ensures Names(Contribution(UDP_RULE, s), name) <==> s.udp == "udp_dropped" && name == "udp_blocking"
  {
    var ds := Contribution(UDP_RULE, s);
    assert s.udp == "udp_dropped" ==> ds[0] in ds && ds[0].condition == "udp_blocking";
  }

  lemma FiredNamed(s: States, name: string)
    ensures Names(Fired(POLICIES, s), name)
       <==> || (s.captive && name == "captive_portal")
            || (DnsSuspect(s) && name == "dns_interference")
            || (DpiSuspect(s) && name == "dpi_filtering")
            || (SpeedLow(s) && name == "bandwidth_throttling")
            || (s.udp == "udp_dropped" && name == "udp_blocking")
  {
    FiredBySubject(s);
    var captive, speed, udp := Contribution(CAPTIVE_RULE, s), Contribution(SPEED_RULE, s), Contribution(UDP_RULE, s);
    NamesConcat(captive, DnsSlot(s), name);
    NamesConcat(captive + DnsSlot(s), DpiSlot(s), name);
    NamesConcat(captive + DnsSlot(s) + DpiSlot(s), speed, name);
    NamesConcat(captive + DnsSlot(s) + DpiSlot(s) + speed, udp, name);
    CaptiveNamed(s, name);
    DnsNamed(s, name);
    DpiNamed(s, name);
    SpeedNamed(s, name);
    UdpNamed(s, name);
  }

  /** Which conditions a state map is diagnosed with. */
  lemma DiagnosedIff(s: States, name: string)
    ensures Names(Diagnoses(s), name)
       <==> || (s.captive && name == "captive_portal")
            || (DnsSuspect(s) && name == "dns_interference")
            || (DpiSuspect(s) && name == "dpi_filtering")
            || (SpeedLow(s) && name == "bandwidth_throttling")
            || (s.udp == "udp_dropped" && name == "udp_blocking")
            || (!s.captive && !DnsSuspect(s) && !DpiSuspect(s) && !SpeedLow(s) && s.udp != "udp_dropped"
                && name == "speed_failed")
  {
    FiredNamed(s, name);
    if Fired(POLICIES, s) == [] {
      assert FALLBACK in Diagnoses(s);
      NothingFired(s);
    } else {
      var d := Fired(POLICIES, s)[0];
      assert Names(Fired(POLICIES, s), d.condition);
      FiredNamed(s, d.condition);
    }
  }

  predicate Graded(d: Diagnosis, confidence: real, severity: string) {
    d.confidence == confidence && d.severity == severity
  }

  /** The confidence and the severity of a condition: an unclear state counts for less than an observed one, which the
      evidence names. */
  predicate GradedFor(s: States, d: Diagnosis) {
    match d.condition
    case "captive_portal" => Graded(d, 1.0, "high")
    case "dns_interference" =>
      if s.dns == "dns_unknown" then Graded(d, 0.6, "medium")
      else Graded(d, 0.9, "high") && "dns_state=" + s.dns in d.evidence
    case "dpi_filtering" =>
      if s.dpi == "dpi_unknown" then Graded(d, 0.6, "medium")
      else Graded(d, 0.85, "high") && "dpi_state=" + s.dpi in d.evidence
    case "bandwidth_throttling" => Graded(d, 0.75, "medium") && "speed_state=" + s.speed in d.evidence
    case "udp_blocking" => Graded(d, 0.8, "medium")
    case _ => Graded(d, 0.5, "low")
  }

  ghost predicate AllGraded(s: States, ds: seq<Diagnosis>) {
    forall d | d in ds :: GradedFor(s, d)
  }

  lemma DnsGraded(s: States)
    ensures AllGraded(s, DnsSlot(s))
  {
  }

  lemma DpiGraded(s: States)
    ensures AllGraded(s, DpiSlot(s))
  {
  }

  lemma OthersGraded(s: States)
    ensures AllGraded(s, Contribution(CAPTIVE_RULE, s)) && AllGraded(s, Contribution(SPEED_RULE, s))
    ensures AllGraded(s, Contribution(UDP_RULE, s)) && AllGraded(s, [FALLBACK])
  {
  }

  lemma FiveGraded(s: States, a: seq<Diagnosis>, b: seq<Diagnosis>, c: seq<Diagnosis>, d: seq<Diagnosis>,
                   e: seq<Diagnosis>)
    requires AllGraded(s, a) && AllGraded(s, b) && AllGraded(s, c) && AllGraded(s, d) && AllGraded(s, e)
    ensures AllGraded(s, a + b + c + d + e)
  {
  }

  /** Every diagnosis has the confidence, the severity and the evidence of its condition. */
  lemma GradedIs(s: States)
    ensures AllGraded(s, Diagnoses(s))
  {
    FiredBySubject(s);
    DnsGraded(s);
    DpiGraded(s);
    OthersGraded(s);
    FiveGraded(s, Contribution(CAPTIVE_RULE, s), DnsSlot(s), DpiSlot(s), Contribution(SPEED_RULE, s),
               Contribution(UDP_RULE, s));
  }

  lemma NothingFired(s: States)
    requires Fired(POLICIES, s) == []
    ensures !s.captive && !DnsSuspect(s) && !DpiSuspect(s) && !SpeedLow(s) && s.udp != "udp_dropped"
  {
    FiredNamed(s, "captive_portal");
    FiredNamed(s, "dns_interference");
    FiredNamed(s, "dpi_filtering");
    FiredNamed(s, "bandwidth_throttling");
    FiredNamed(s, "udp_blocking");
  }

  function Rank(severity: string): nat {
    if severity == "low" then 1 else if severity == "medium" then 2
    else if severity == "high" then 3 else if severity == "critical" then 4 else 0
  }

  /** The combined condition: " & ".join of the conditions. */
  function Joined(ds: seq<Diagnosis>): string {
    if ds == [] then ""
    else if |ds| == 1 then ds[0].condition
    else Joined(ds[..|ds| - 1]) + " & " + ds[|ds| - 1].condition
  }

  /** Joining puts one separator between any two adjacent parts. */
  lemma {:induction false} JoinedConcat(a: seq<Diagnosis>, b: seq<Diagnosis>)
    requires a != [] && b != []
    ensures Joined(a + b) == Joined(a) + " & " + Joined(b)
  {
    var n := |b| - 1;
    assert (a + b)[..|a| + n] == a + b[..n] && (a + b)[|a| + n] == b[n];
    if n == 0 {
      assert a + b[..0] == a;
    } else {
      JoinedConcat(a, b[..n]);
      Regroup(Joined(a) + " & ", Joined(b[..n]), " & ");
      Regroup(Joined(a) + " & ", Joined(b[..n]) + " & ", b[n].condition);
    }
  }

  datatype Combined = Combined(condition: string, confidence: real, evidence: set<string>, severity: string)

  /** `c` is the largest confidence, or 0 when there is no positive one. */
  ghost predicate MaxConfidence(ds: seq<Diagnosis>, c: real) {
    && c >= 0.0
    && (forall d | d in ds :: d.confidence <= c)
    && (c == 0.0 || exists d :: d in ds && d.confidence == c)
  }

  /** `v` is a severity of the largest rank, "low" at least. */
  ghost predicate MaxSeverity(ds: seq<Diagnosis>, v: string) {
    && Rank(v) >= 1
    && (forall d | d in ds :: Rank(d.severity) <= Rank(v))
    && (v == "low" || exists d :: d in ds && d.severity == v)
  }

  function AllEvidence(ds: seq<Diagnosis>): set<string> {
    set d, e | d in ds && e in d.evidence :: e
  }

  lemma OneMore(ds: seq<Diagnosis>, d: Diagnosis)
    ensures AllEvidence(ds + [d]) == AllEvidence(ds) + set e | e in d.evidence
    ensures Joined(ds + [d]) == if ds == [] then d.condition else Joined(ds) + " & " + d.condition
  {
    var all := ds + [d];
    assert all[|ds|] == d && all[..|ds|] == ds && forall x | x in ds :: x in all;
    assert forall x | x in all :: x in ds || x == d;
  }

  lemma StillMax(ds: seq<Diagnosis>, d: Diagnosis, c: real, v: string)
    requires MaxConfidence(ds, c) && MaxSeverity(ds, v)
    ensures MaxConfidence(ds + [d], if d.confidence > c then d.confidence else c)
    ensures MaxSeverity(ds + [d], if Rank(d.severity) > Rank(v) then d.severity else v)
  {
    var all := ds + [d];
    assert all[|ds|] == d && forall x | x in ds :: x in all;
    assert forall x | x in all :: x in ds || x == d;
  }

  /** The loop of select_and_connect over the diagnoses. */
  method Combine(ds: seq<Diagnosis>) returns (r: Combined)
    ensures r.condition == Joined(ds)
    ensures MaxConfidence(ds, r.confidence) && MaxSeverity(ds, r.severity)
    ensures r.evidence == AllEvidence(ds)
  {
    var condition, confidence, severity := "", 0.0, "low";
    var evidence: set<string> := {};
    for i := 0 to |ds|
      invariant condition == Joined(ds[..i])
      invariant MaxConfidence(ds[..i], confidence) && MaxSeverity(ds[..i], severity) && evidence == AllEvidence(ds[..i])
    {
      var d := ds[i];
      assert ds[..i + 1] == ds[..i] + [d];
      assert ds[..i + 1][..i] == ds[..i];
      OneMore(ds[..i], d);
      StillMax(ds[..i], d, confidence, severity);
      condition := if i == 0 then d.condition else condition + " & " + d.condition;
      evidence := evidence + set e | e in d.evidence;
      if d.confidence > confidence { confidence := d.confidence; }
      if Rank(d.severity) > Rank(severity) { severity := d.severity; }
    }
    assert ds[..|ds|] == ds;
    r := Combined(condition, confidence, evidence, severity);
  }

  predicate Ranged(d: Diagnosis) { 0.5 <= d.confidence <= 1.0 && Rank(d.severity) in {1, 2, 3} }

  lemma SlotsRanged(s: States)
    ensures forall d | d in Contribution(CAPTIVE_RULE, s) :: Ranged(d)
    ensures forall d | d in Contribution(SPEED_RULE, s) :: Ranged(d)
    ensures forall d | d in Contribution(UDP_RULE, s) :: Ranged(d)
  {
  }

  lemma DoubtsRanged(s: States)
    ensures forall d | d in DnsSlot(s) :: Ranged(d)
    ensures forall d | d in DpiSlot(s) :: Ranged(d)
  {
  }

  /** With the seven policies the combined confidence is the confidence of a matched diagnosis: none is zero. */
  lemma PolicyConfidencePositive(s: States)
    ensures forall d | d in Diagnoses(s) :: 0.5 <= d.confidence <= 1.0 && Rank(d.severity) in {1, 2, 3}
  {
    FiredBySubject(s);
    SlotsRanged(s);
    DoubtsRanged(s);
    assert Ranged(FALLBACK);
    forall d | d in Diagnoses(s) ensures Ranged(d) {
    }
  }
}
