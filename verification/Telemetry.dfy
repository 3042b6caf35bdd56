/** The strategy history and its decayed success rate over the newest hundred outcomes (bypsseng/telemetry/storage.py,
    bypsseng/telemetry/statistics.py). Floating-point numbers are modelled as reals. */
module Telemetry {
  import opened Sorting

  datatype Row = Row(ts: real, strategy: string, condition: string, success: bool)

  datatype Sample = Sample(ts: real, success: bool)

  function Matching(rows: seq<Row>, strategy: string, condition: string): seq<Sample> {
    if rows == [] then []
    else
      var r := rows[|rows| - 1];
      Matching(rows[..|rows| - 1], strategy, condition)
      + if r.strategy == strategy && r.condition == condition then [Sample(r.ts, r.success)] else []
  }

  function TimeOf(s: Sample): real { s.ts }

  /** ORDER BY ts DESC. */
  function NewestFirst(xs: seq<Sample>): (r: seq<Sample>)
    ensures |r| == |xs| && multiset(r) == multiset(xs) && Descending(TimeOf, r)
  {
    if xs == [] then []
    else
      var n := |xs| - 1;
      var r := NewestFirst(xs[..n]);
      InsertDescending(TimeOf, xs[n], r);
      InsertMembers(TimeOf, xs[n], r);
      assert xs == xs[..n] + [xs[n]];
      Insert(TimeOf, xs[n], r)
  }

  /** LIMIT 100. */
  function Window(xs: seq<Sample>): (w: seq<Sample>)
    ensures |w| <= 100 && (w == [] <==> xs == []) && Descending(TimeOf, w)
  {
    var s := NewestFirst(xs);
    if |s| > 100 then s[..100] else s
  }

  function AgeDays(now: real, ts: real): real { (now - ts) / 86400.0 }

  function Weight(age: real): (w: real)
    ensures 0.05 <= w <= 1.0
  {
    if age < 1.0 then 1.0
    else if age < 7.0 then 0.85
    else if age < 30.0 then 0.50
    else if age < 90.0 then 0.15
    else 0.05
  }

  function WeightAt(now: real, s: Sample): real { Weight(AgeDays(now, s.ts)) }

  function Total(w: seq<Sample>, now: real): (t: real)
    ensures t >= 0.0 && (w != [] ==> t > 0.0)
  {
    if w == [] then 0.0 else Total(w[..|w| - 1], now) + WeightAt(now, w[|w| - 1])
  }

  function Successes(w: seq<Sample>, now: real): (t: real)
    ensures 0.0 <= t <= Total(w, now)
  {
    if w == [] then 0.0
    else Successes(w[..|w| - 1], now) + if w[|w| - 1].success then WeightAt(now, w[|w| - 1]) else 0.0
  }

  function Rate(w: seq<Sample>, now: real): (r: real)
    ensures 0.0 <= r <= 1.0
  {
    if w == [] then 0.0
    else
      QuotientInUnit(Successes(w, now), Total(w, now));
      Successes(w, now) / Total(w, now)
  }

  lemma QuotientInUnit(s: real, t: real)
    requires 0.0 <= s <= t && t > 0.0
    ensures 0.0 <= s / t <= 1.0
  {
  }

  class TelemetryDB {
    var connected: bool
    var rows: seq<Row>

    constructor (connected: bool)
      ensures this.connected == connected && rows == []
    {
      this.connected, rows := connected, [];
    }

    method RecordStrategyOutcome(strategy: string, condition: string, success: bool, now: real)
      modifies this
      ensures connected == old(connected)
      ensures rows == old(rows) + if connected then [Row(now, strategy, condition, success)] else []
    {
      if connected {
        rows := rows + [Row(now, strategy, condition, success)];
      }
    }

    method GetStrategySuccessRate(strategy: string, condition: string, now: real) returns (rate: real)
      ensures rate == if connected then Rate(Window(Matching(rows, strategy, condition)), now) else 0.0
    {
      if !connected { return 0.0; }
      var window := Window(Matching(rows, strategy, condition));
      if window == [] { return 0.0; }
      var total, good := 0.0, 0.0;
      for i := 0 to |window|
        invariant total == Total(window[..i], now) && good == Successes(window[..i], now)
      {
        assert window[..i + 1][..i] == window[..i];
        var weight := WeightAt(now, window[i]);
        total := total + weight;
        if window[i].success { good := good + weight; }
      }
      assert window[..|window|] == window;
      rate := if total > 0.0 then good / total else 0.0;
    }
  }

  lemma MatchingRecorded(rows: seq<Row>, r: Row)
    ensures Matching(rows + [r], r.strategy, r.condition)
         == Matching(rows, r.strategy, r.condition) + [Sample(r.ts, r.success)]
  {
    assert (rows + [r])[..|rows|] == rows;
  }

  /** Recording the outcome of another strategy or under another condition changes nothing. */
  lemma OtherRowsIgnored(rows: seq<Row>, r: Row, strategy: string, condition: string)
    requires r.strategy != strategy || r.condition != condition
    ensures Matching(rows + [r], strategy, condition) == Matching(rows, strategy, condition)
  {
    assert (rows + [r])[..|rows|] == rows;
  }

  /** The samples are exactly the outcomes recorded for the strategy under the condition. */
  lemma {:induction false} MatchingIff(rows: seq<Row>, strategy: string, condition: string, x: Sample)
    ensures x in Matching(rows, strategy, condition) <==> Row(x.ts, strategy, condition, x.success) in rows
  {
    if rows != [] {
      var n := |rows| - 1;
      MatchingIff(rows[..n], strategy, condition, x);
      assert rows == rows[..n] + [rows[n]];
    }
  }

  /** How many of the samples are successes. */
  function Wins(w: seq<Sample>): (n: nat)
    ensures n <= |w|
  {
    if w == [] then 0 else Wins(w[..|w| - 1]) + if w[|w| - 1].success then 1 else 0
  }

  function Times(v: real, n: nat): real
    decreases n
  {
    if n == 0 then 0.0 else Times(v, n - 1) + v
  }

  lemma {:induction false} TimesIs(v: real, n: nat)
    ensures Times(v, n) == v * n as real
  {
    if n > 0 {
      TimesIs(v, n - 1);
    }
  }

  lemma {:induction false} UniformSums(w: seq<Sample>, now: real, v: real)
    requires forall s | s in w :: WeightAt(now, s) == v
    ensures Total(w, now) == Times(v, |w|) && Successes(w, now) == Times(v, Wins(w))
  {
    if w != [] {
      var n := |w| - 1;
      assert w[n] in w && forall s | s in w[..n] :: s in w;
      UniformSums(w[..n], now, v);
    }
  }

  /** When all samples are of about the same age, the rate is the share of successes among them. */
  lemma {:induction false} UniformRate(w: seq<Sample>, now: real, v: real)
    requires w != [] && forall s | s in w :: WeightAt(now, s) == v
    ensures Rate(w, now) == Wins(w) as real / |w| as real
  {
    UniformSums(w, now, v);
    assert WeightAt(now, w[0]) == v;
    TimesQuotient(v, Wins(w), |w|);
  }

  lemma {:induction false} TimesQuotient(v: real, m: nat, n: nat)
    requires v > 0.0 && n > 0
    ensures Times(v, n) > 0.0 && Times(v, m) / Times(v, n) == m as real / n as real
  {
    TimesIs(v, m);
    TimesIs(v, n);
    SameQuotient(Times(v, m), Times(v, n), v, m as real, n as real);
  }

  lemma SameQuotient(s: real, t: real, v: real, a: real, b: real)
    requires v > 0.0 && b > 0.0 && s == v * a && t == v * b
    ensures t > 0.0 && s / t == a / b
  {
    var q := a / b;
    assert q * b == a;
    Swapped(v, q, b);
    Product(v, b);
    QuotientIs(s, t, q);
  }

  lemma Swapped(v: real, q: real, b: real)
    ensures v * (q * b) == q * (v * b)
  {
  }

  lemma QuotientIs(s: real, t: real, q: real)
    requires t > 0.0 && s == q * t
    ensures s / t == q
  {
  }

  /** Two ages weigh the same exactly when none of the four limits separates them. */
  lemma WeightSteps(a: real, b: real)
    ensures Weight(a) == Weight(b)
       <==> (a < 1.0 <==> b < 1.0) && (a < 7.0 <==> b < 7.0) && (a < 30.0 <==> b < 30.0) && (a < 90.0 <==> b < 90.0)
    ensures Weight(0.0) == 1.0 && Weight(1.0) == 0.85 && Weight(7.0) == 0.5 && Weight(30.0) == 0.15
    ensures Weight(90.0) == 0.05
  {
  }

  /** The limits in seconds: one day, a week, thirty days and ninety. */
  lemma AgeLimits(now: real, s: Sample)
    ensures WeightAt(now, s) == 1.0 <==> now - s.ts < 86400.0
    ensures WeightAt(now, s) >= 0.85 <==> now - s.ts < 604800.0
    ensures WeightAt(now, s) >= 0.5 <==> now - s.ts < 2592000.0
    ensures WeightAt(now, s) >= 0.15 <==> now - s.ts < 7776000.0
  {
    var age := now - s.ts;
    assert age / 86400.0 < 7.0 <==> age < 604800.0;
    assert age / 86400.0 < 30.0 <==> age < 2592000.0;
    assert age / 86400.0 < 90.0 <==> age < 7776000.0;
  }

  ghost predicate NewerThanAll(x: Sample, xs: seq<Sample>) {
    forall s | s in xs :: x.ts > s.ts
  }

  /** A strictly newer sample heads the window and pushes the last one out of a full window. */
  lemma WindowShifts(xs: seq<Sample>, x: Sample)
    requires NewerThanAll(x, xs)
    ensures var w := Window(xs);
      Window(xs + [x]) == [x] + if |w| == 100 then w[..99] else w
  {
    NewestLeads(xs, x);
    var s := NewestFirst(xs);
    if |s| >= 100 {
      assert ([x] + s)[..100] == [x] + s[..99];
      assert |s| > 100 ==> s[..100][..99] == s[..99];
    }
  }

  lemma NewestLeads(xs: seq<Sample>, x: Sample)
    requires NewerThanAll(x, xs)
    ensures NewestFirst(xs + [x]) == [x] + NewestFirst(xs)
  {
    var s := NewestFirst(xs);
    assert (xs + [x])[..|xs|] == xs;
    if s != [] {
      assert s[0] in multiset(s);
      assert s[0] in xs;
    }
  }

  lemma {:induction false} SumsOfCons(x: Sample, w: seq<Sample>, now: real)
    ensures Total([x] + w, now) == WeightAt(now, x) + Total(w, now)
    ensures Successes([x] + w, now) == (if x.success then WeightAt(now, x) else 0.0) + Successes(w, now)
  {
    if w == [] {
      assert [x] + w == [x];
      assert [x][..0] == [];
      assert Total([x][..0], now) == 0.0 && Successes([x][..0], now) == 0.0;
    } else {
      var n := |w| - 1;
      assert ([x] + w)[..n + 1] == [x] + w[..n];
      SumsOfCons(x, w[..n], now);
    }
  }

  /** Adding weight `a` at the top and dropping weight `b <= a` at the bottom: a success on top never lowers the
      quotient, a failure never raises it. `s` and `t` are the sums without the dropped sample. */
  lemma Shift(s: real, t: real, a: real, b: real, dropGood: bool, newGood: bool)
    requires 0.0 <= s <= t && a > 0.0 && 0.0 <= b <= a && t + b > 0.0
    ensures var before := (s + if dropGood then b else 0.0) / (t + b);
      var after := (s + if newGood then a else 0.0) / (t + a);
      if newGood then after >= before else after <= before
  {
    var d := if dropGood then b else 0.0;
    if newGood {
      Gained(s, t, a, b, d);
    } else {
      Lost(s, t, a, b, d);
    }
  }

  lemma Gained(s: real, t: real, a: real, b: real, d: real)
    requires 0.0 <= s <= t && a > 0.0 && 0.0 <= b <= a && t + b > 0.0 && d in {0.0, b}
    ensures (s + d) / (t + b) <= (s + a) / (t + a)
  {
    Gain(s, t, a, b, d);
    Cross(s + d, t + b, s + a, t + a);
  }

  lemma Lost(s: real, t: real, a: real, b: real, d: real)
    requires 0.0 <= s <= t && a > 0.0 && 0.0 <= b <= a && t + b > 0.0 && d in {0.0, b}
    ensures s / (t + a) <= (s + d) / (t + b)
  {
    Loss(s, t, a, b, d);
    Cross(s, t + a, s + d, t + b);
  }

  lemma Gain(s: real, t: real, a: real, b: real, d: real)
    requires 0.0 <= s <= t && 0.0 <= b <= a && d in {0.0, b}
    ensures (s + d) * (t + a) <= (s + a) * (t + b)
  {
    if d == b {
      assert (s + a) * (t + b) - (s + b) * (t + a) == (a - b) * (t - s);
      Product(a - b, t - s);
    } else {
      assert (s + a) * (t + b) - s * (t + a) == s * b + a * (t - s) + a * b;
      Product(s, b);
      Product(a, t - s);
      Product(a, b);
    }
  }

  lemma Loss(s: real, t: real, a: real, b: real, d: real)
    requires 0.0 <= s <= t && 0.0 <= b <= a && d in {0.0, b}
    ensures s * (t + b) <= (s + d) * (t + a)
  {
    assert (s + d) * (t + a) - s * (t + b) == s * (a - b) + d * (t + a);
    Product(s, a - b);
    Product(d, t + a);
  }

  lemma Cross(p: real, q: real, u: real, v: real)
    requires q > 0.0 && v > 0.0 && p * v <= u * q
    ensures p / q <= u / v
  {
    var x, y := p / q, u / v;
    assert x * q == p && y * v == u;
    assert x * (q * v) == p * v && y * (q * v) == u * q;
    Product(q, v);
    Cancel(x, y, q * v);
  }

  lemma Product(x: real, y: real)
    requires x >= 0.0 && y >= 0.0
    ensures x * y >= 0.0 && (x > 0.0 && y > 0.0 ==> x * y > 0.0)
  {
  }

  lemma Cancel(x: real, y: real, k: real)
    requires k > 0.0 && x * k <= y * k
    ensures x <= y
  {
  }

  lemma WeightAntitone(now: real, older: Sample, newer: Sample)
    requires older.ts <= newer.ts
    ensures WeightAt(now, older) <= WeightAt(now, newer)
  {
    assert (now - newer.ts) / 86400.0 <= (now - older.ts) / 86400.0;
  }

  /** Recording a strictly newer success never lowers the rate and a strictly newer failure never raises it, also when
      the oldest of a hundred samples leaves the window. */
  lemma WindowMonotone(xs: seq<Sample>, x: Sample, now: real)
    requires NewerThanAll(x, xs)
    ensures var before, after := Rate(Window(xs), now), Rate(Window(xs + [x]), now);
      if x.success then after >= before else after <= before
  {
    var w := Window(xs);
    WindowShifts(xs, x);
    if |w| == 100 {
      assert w[99] in NewestFirst(xs) && w[99] in multiset(NewestFirst(xs)) && w[99] in xs;
      FullWindowMonotone(w, x, now);
    } else {
      RoomMonotone(w, x, now);
    }
  }

  lemma FullWindowMonotone(w: seq<Sample>, x: Sample, now: real)
    requires |w| == 100 && x.ts > w[99].ts
    ensures var before, after := Rate(w, now), Rate([x] + w[..99], now);
      if x.success then after >= before else after <= before
  {
    var kept, last := w[..99], w[99];
    SumsOfCons(x, kept, now);
    WeightAntitone(now, last, x);
    Shift(Successes(kept, now), Total(kept, now), WeightAt(now, x), WeightAt(now, last), last.success, x.success);
  }

  lemma RoomMonotone(w: seq<Sample>, x: Sample, now: real)
    ensures var before, after := Rate(w, now), Rate([x] + w, now);
      if x.success then after >= before else after <= before
  {
    SumsOfCons(x, w, now);
    if w != [] {
      Shift(Successes(w, now), Total(w, now), WeightAt(now, x), 0.0, false, x.success);
    }
  }

  /** The same in terms of the table: any new row newer than those of its key. */
  lemma RecordMonotone(rows: seq<Row>, r: Row, now: real)
    requires NewerThanAll(Sample(r.ts, r.success), Matching(rows, r.strategy, r.condition))
    ensures var before := Rate(Window(Matching(rows, r.strategy, r.condition)), now);
      var after := Rate(Window(Matching(rows + [r], r.strategy, r.condition)), now);
      if r.success then after >= before else after <= before
  {
    MatchingRecorded(rows, r);
    WindowMonotone(Matching(rows, r.strategy, r.condition), Sample(r.ts, r.success), now);
  }

  /** get_strategy_posterior as a function of the rate. */
  function Posterior(rate: real): (p: real)
    requires 0.0 <= rate <= 1.0
    ensures 0.1 < p <= 0.9
  {
    if rate == 0.0 then 0.5 else rate * 0.8 + 0.5 * 0.2
  }

  function Confidence(posterior: real): (c: real)
    requires 0.1 < posterior <= 0.9
    ensures 0.0 < c <= 0.8
  {
    if posterior == 0.5 then 0.1
    else
      var distance := if posterior > 0.5 then posterior - 0.5 else 0.5 - posterior;
      if distance * 2.0 < 0.95 then distance * 2.0 else 0.95
  }

  /** The posterior follows the rate except across zero: a history of failures alone counts like no history. */
  lemma PosteriorMonotoneIff(r1: real, r2: real)
    requires 0.0 <= r1 < r2 <= 1.0
    ensures Posterior(r1) <= Posterior(r2) <==> r1 > 0.0 || r2 >= 0.5
  {
  }

  lemma {:induction false} SuccessesAre(w: seq<Sample>, now: real)
    ensures Successes(w, now) == Total(w, now) <==> forall s | s in w :: s.success
  {
    if w != [] {
      var n := |w| - 1;
      SuccessesAre(w[..n], now);
      assert w == w[..n] + [w[n]];
      assert w[n] in w && forall s | s in w[..n] :: s in w;
      assert forall s | s in w :: s in w[..n] || s == w[n];
    }
  }

  /** The statistic ignores how many outcomes there are: it is at its maximum exactly when the window is not empty and
      holds no failure, so one success counts like a hundred. */
  lemma FullRateIff(xs: seq<Sample>, now: real)
    ensures Posterior(Rate(Window(xs), now)) == 0.9 <==> xs != [] && forall s | s in Window(xs) :: s.success
  {
    var w := Window(xs);
    SuccessesAre(w, now);
    if w != [] {
      QuotientIsOne(Successes(w, now), Total(w, now));
    }
  }

  /** One success alone already gives the maximal posterior. */
  lemma OneSuccessSuffices()
    ensures Posterior(Rate(Window([Sample(0.0, true)]), 0.0)) == 0.9
  {
    var s := Sample(0.0, true);
    AloneInWindow(s);
    assert forall x | x in Window([s]) :: x == s;
    FullRateIff([s], 0.0);
  }

  lemma AloneInWindow(s: Sample)
    ensures Window([s]) == [s]
  {
    assert [s][..0] == [];
    assert NewestFirst([s]) == Insert(TimeOf, s, []);
  }

  /** One failure alone ranks above one success among four outcomes of the same day. */
  lemma FailureAloneRanksHigher()
    ensures var f, s := Sample(0.0, false), Sample(0.0, true);
      Posterior(Rate([f], 0.0)) > Posterior(Rate([s, f, f, f], 0.0)) && Rate(Window([f]), 0.0) == Rate([f], 0.0)
  {
    var f, s := Sample(0.0, false), Sample(0.0, true);
    AloneInWindow(f);
    SumsOfCons(f, [], 0.0);
    SumsOfCons(f, [f], 0.0);
    SumsOfCons(f, [f, f], 0.0);
    SumsOfCons(s, [f, f, f], 0.0);
    assert [f] + [] == [f] && [f] + [f] == [f, f] && [f] + [f, f] == [f, f, f] && [s] + [f, f, f] == [s, f, f, f];
    assert Rate([s, f, f, f], 0.0) == 0.25;
    PosteriorMonotoneIff(0.0, 0.25);
  }

  lemma QuotientIsOne(s: real, t: real)
    requires t > 0.0
    ensures s / t == 1.0 <==> s == t
  {
  }
}
