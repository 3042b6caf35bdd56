/** Strategy scores (bypsseng/decision/scorer.py). Floating-point numbers are modelled as reals. */
module Scorer {
  import opened Telemetry

  datatype Caps = Caps(udp: bool, tcp: bool, dpiResistance: real)

  /** STRATEGY_CAPABILITIES with the default for strategies it does not list. */
  function Capabilities(strategy: string): (c: Caps)
    ensures 0.0 <= c.dpiResistance <= 1.0
    ensures c.udp ==> c.dpiResistance <= 0.8
  {
    match strategy
    case "vless" => Caps(false, true, 0.5)
    case "trojan" => Caps(false, true, 0.2)
    case "shadowtls" => Caps(false, true, 0.8)
    case "hysteria2" => Caps(true, false, 0.8)
    case "tuic" => Caps(true, false, 0.7)
    case "tor_proxy" => Caps(false, true, 0.9)
    case "tor_snowflake" => Caps(false, true, 1.0)
    case "warp" => Caps(true, false, 0.5)
    case "naive" => Caps(false, true, 0.8)
    case "cloudflare_worker" => Caps(false, true, 0.9)
    case "psiphon" => Caps(false, true, 0.9)
    case "dnstt" => Caps(false, false, 1.0)
    case _ => Caps(true, true, 0.0)
  }

  /** The entries of the state map that scoring reads. */
  datatype NetStates = NetStates(udp: string, dpi: string, speed: string, latency: real, throughput: real)

  function Max(x: real, y: real): real { if x < y then y else x }
  function Min(x: real, y: real): real { if x < y then x else y }

  /** calculate_health_score with its default weights; availability and stability are both the posterior. */
  function Health(posterior: real, latency: real, throughput: real): (h: real)
    requires 0.0 <= posterior <= 1.0 && latency >= 0.0 && throughput >= 0.0
    ensures 0.0 <= h <= 0.65 * posterior + 0.35
  {
    var normLatency := Max(0.0, 1.0 - latency / 1000.0);
    var normThroughput := Min(1.0, throughput / 10000.0);
    var reliability := 1.0 - (1.0 - posterior);
    0.25 * posterior + 0.15 * normLatency + 0.20 * posterior + 0.20 * normThroughput + 0.20 * reliability
  }

  predicate DpiAggressive(s: NetStates) { s.dpi in ["dpi_aggressive", "dpi_rst"] }
  predicate Throttled(s: NetStates) { s.speed in ["throttled_intl", "speed_slow"] }
  predicate UdpHopeless(strategy: string, s: NetStates) { s.udp == "udp_dropped" && !Capabilities(strategy).tcp }

  /** The share of the score that does not depend on history. */
  function Fit(strategy: string, s: NetStates): real {
    (if DpiAggressive(s) then Capabilities(strategy).dpiResistance * 0.5 else 0.0)
    + if Throttled(s) && Capabilities(strategy).udp then 0.3 else 0.0
  }

  /** The score under adaptive statistics with success rate `rate`. */
  function Score(strategy: string, s: NetStates, rate: real): real
    requires 0.0 <= rate <= 1.0 && s.latency >= 0.0 && s.throughput >= 0.0
  {
    if UdpHopeless(strategy, s) then 0.0
    else
      var p := Posterior(rate);
      Fit(strategy, s) + Health(p, s.latency, s.throughput) * (0.4 * Confidence(p))
  }

  datatype Reason = NoTcp | HighResistance | LowResistance | UdpHelps | HighHistory | ModerateHistory | LowHistory

  method ScoreStrategy(strategy: string, s: NetStates, rate: real) returns (score: real, reasons: seq<Reason>)
    requires 0.0 <= rate <= 1.0 && s.latency >= 0.0 && s.throughput >= 0.0
    ensures score == Score(strategy, s, rate)
    ensures UdpHopeless(strategy, s) <==> NoTcp in reasons
    ensures UdpHelps in reasons <==> Throttled(s) && Capabilities(strategy).udp && !UdpHopeless(strategy, s)
    ensures HighResistance in reasons
       <==> DpiAggressive(s) && Capabilities(strategy).dpiResistance > 0.5 && !UdpHopeless(strategy, s)
    ensures LowResistance in reasons
       <==> DpiAggressive(s) && Capabilities(strategy).dpiResistance <= 0.5 && !UdpHopeless(strategy, s)
    ensures HighHistory in reasons <==> rate > 0.625 && !UdpHopeless(strategy, s)
    ensures ModerateHistory in reasons <==> (rate == 0.0 || 0.375 < rate <= 0.625) && !UdpHopeless(strategy, s)
    ensures LowHistory in reasons <==> 0.0 < rate <= 0.375 && !UdpHopeless(strategy, s)
  {
    var caps := Capabilities(strategy);
    score, reasons := 0.0, [];
    if s.udp == "udp_dropped" && !caps.tcp {
      reasons := [NoTcp];
      return;
    }
    if DpiAggressive(s) {
      score := score + caps.dpiResistance * 0.5;
      reasons := reasons + [if caps.dpiResistance > 0.5 then HighResistance else LowResistance];
    }
    if Throttled(s) && caps.udp {
      score := score + 0.3;
      reasons := reasons + [UdpHelps];
    }
    assert score == Fit(strategy, s);
    var posterior := Posterior(rate);
    var health := Health(posterior, s.latency, s.throughput);
    score := score + health * (0.4 * Confidence(posterior));
    HistoryOf(rate);
    reasons := reasons + [History(posterior)];
  }

  function History(posterior: real): Reason {
    if posterior > 0.6 then HighHistory else if posterior > 0.4 then ModerateHistory else LowHistory
  }

  lemma HistoryOf(rate: real)
    requires 0.0 <= rate <= 1.0
    ensures History(Posterior(rate)) == if rate > 0.625 then HighHistory
                                        else if rate == 0.0 || rate > 0.375 then ModerateHistory else LowHistory
  {
  }

  /** The table by property: which strategies use UDP, which do without TCP, and how well each resists inspection. */
  lemma CapabilitiesAre(strategy: string)
    ensures !Capabilities(strategy).tcp <==> strategy in {"hysteria2", "tuic", "warp", "dnstt"}
    ensures strategy in LISTED ==> (Capabilities(strategy).udp <==> strategy in {"hysteria2", "tuic", "warp"})
    ensures strategy !in LISTED ==> Capabilities(strategy).udp
    ensures Capabilities(strategy).dpiResistance
         == if strategy in {"tor_snowflake", "dnstt"} then 1.0
            else if strategy in {"tor_proxy", "cloudflare_worker", "psiphon"} then 0.9
            else if strategy in {"shadowtls", "hysteria2", "naive"} then 0.8
            else if strategy == "tuic" then 0.7
            else if strategy in {"vless", "warp"} then 0.5
            else if strategy == "trojan" then 0.2 else 0.0
  {
  }

  const LISTED: set<string> :=
    {"vless", "trojan", "shadowtls", "hysteria2", "tuic", "tor_proxy", "tor_snowflake", "warp", "naive",
     "cloudflare_worker", "psiphon", "dnstt"}

  /** The health of a strategy: three of its five measures are the posterior, latency counts up to one second and
      throughput up to ten thousand. */
  lemma HealthIs(posterior: real, latency: real, throughput: real)
    requires 0.0 <= posterior <= 1.0 && latency >= 0.0 && throughput >= 0.0
    ensures Health(posterior, latency, throughput)
         == 0.65 * posterior
            + (if latency >= 1000.0 then 0.0 else 0.15 - 0.15 * latency / 1000.0)
            + (if throughput >= 10000.0 then 0.2 else 0.2 * throughput / 10000.0)
  {
  }

  /** History counts by its distance from an even record, whichever way it points; an even record and one without any
      success count 0.1. */
  lemma HistoryCounts(rate: real)
    requires 0.0 <= rate <= 1.0
    ensures Confidence(Posterior(rate))
         == if rate == 0.0 || rate == 0.5 then 0.1
            else if rate > 0.5 then 1.6 * (rate - 0.5) else 1.6 * (0.5 - rate)
  {
  }

  /** Aggressive inspection adds half the strategy's resistance to its score. */
  lemma InspectionCounts(strategy: string, s: NetStates, dpi: string, rate: real)
    requires 0.0 <= rate <= 1.0 && s.latency >= 0.0 && s.throughput >= 0.0 && s.udp != "udp_dropped"
    requires s.dpi !in {"dpi_aggressive", "dpi_rst"} && dpi in {"dpi_aggressive", "dpi_rst"}
    ensures Score(strategy, s.(dpi := dpi), rate) - Score(strategy, s, rate)
         == Capabilities(strategy).dpiResistance / 2.0
  {
  }

  /** Throttling favours exactly the strategies over UDP. */
  lemma ThrottlingCounts(strategy: string, s: NetStates, speed: string, rate: real)
    requires 0.0 <= rate <= 1.0 && s.latency >= 0.0 && s.throughput >= 0.0 && s.udp != "udp_dropped"
    requires s.speed !in {"throttled_intl", "speed_slow"} && speed in {"throttled_intl", "speed_slow"}
    ensures Score(strategy, s.(speed := speed), rate) - Score(strategy, s, rate)
         == if Capabilities(strategy).udp then 0.3 else 0.0
  {
  }

  /** Dropped UDP rules out the strategies without TCP and changes nothing for the others. */
  lemma DroppedUdpCounts(strategy: string, s: NetStates, rate: real)
    requires 0.0 <= rate <= 1.0 && s.latency >= 0.0 && s.throughput >= 0.0
    ensures Score(strategy, s.(udp := "udp_dropped"), rate)
         == if Capabilities(strategy).tcp then Score(strategy, s.(udp := "udp_ok"), rate) else 0.0
  {
  }

  lemma FitBounded(strategy: string, s: NetStates)
    ensures 0.0 <= Fit(strategy, s) <= 0.7
  {
  }

  lemma ProductBounded(x: real, y: real, mx: real, my: real)
    requires 0.0 <= x <= mx && 0.0 <= y <= my
    ensures 0.0 <= x * y <= mx * my
  {
    assert mx * my - x * y == (mx - x) * my + x * (my - y);
    Product(x, y);
    Product(mx - x, my);
    Product(x, my - y);
  }

  /** Every score lies in [0, 0.9992]. */
  lemma ScoreBounded(strategy: string, s: NetStates, rate: real)
    requires 0.0 <= rate <= 1.0 && s.latency >= 0.0 && s.throughput >= 0.0
    ensures 0.0 <= Score(strategy, s, rate) <= 0.9992
  {
    var p := Posterior(rate);
    FitBounded(strategy, s);
    ProductBounded(Health(p, s.latency, s.throughput), 0.4 * Confidence(p), 0.935, 0.32);
  }

  /** The bound is reached. */
  lemma ScoreBoundReached()
    ensures Score("hysteria2", NetStates("udp_ok", "dpi_rst", "speed_slow", 0.0, 10000.0), 1.0) == 0.9992
  {
    assert Health(0.9, 0.0, 10000.0) == 0.935;
  }
}
