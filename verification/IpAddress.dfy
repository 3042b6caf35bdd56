/** The texts that urlparse accepts between brackets: IPv6 addresses as ipaddress reads them, and the IPvFuture form
    (section 3.2.2 of RFC 3986). */
module IpAddress {
  import opened Text

  predicate IsHex(c: char) { IsDigit(c) || 'a' <= c <= 'f' || 'A' <= c <= 'F' }

  predicate IsHextet(s: string) { 1 <= |s| <= 4 && forall c | c in s :: IsHex(c) }

  /** A decimal number up to 255 in at most three digits, without leading zeros. */
  predicate IsOctet(s: string) {
    match ParseDecimal(s)
    case None => false
    case Some(n) => |s| <= 3 && n <= 255 && (s[0] == '0' ==> |s| == 1)
  }

  predicate IsIPv4(s: string) {
    var parts := Split(s, '.');
    |parts| == 4 && forall p | p in parts :: IsOctet(p)
  }

  /** The colon-separated groups, with a trailing dotted IPv4 address counted as two groups. */
  function Groups(s: string): Option<seq<string>> {
    var parts := Split(s, ':');
    var n := |parts| - 1;
    if n < 2 then None
    else if '.' !in parts[n] then Some(parts)
    else if IsIPv4(parts[n]) then Some(parts[..n] + ["0", "0"])
    else None
  }

  /** Position `k` is the gap that '::' leaves: the only empty group strictly inside. */
  predicate IsGap(gs: seq<string>, k: nat) {
    0 < k < |gs| - 1 && gs[k] == "" && forall i | 0 < i < |gs| - 1 && i != k :: gs[i] != ""
  }

  /** The groups around a gap: an empty first or last group must touch the gap, and one group at least is missing. */
  predicate FillsAround(gs: seq<string>, k: nat)
    requires IsGap(gs, k)
  {
    var n := |gs|;
    var hi := if gs[0] == "" then k - 1 else k;
    var lo := if gs[n - 1] == "" then n - k - 2 else n - k - 1;
    && (gs[0] == "" ==> hi == 0) && (gs[n - 1] == "" ==> lo == 0) && hi + lo <= 7
    && (forall i | 0 <= i < hi :: IsHextet(gs[i])) && (forall i | n - lo <= i < n :: IsHextet(gs[i]))
  }

  predicate IsGroups(gs: seq<string>) {
    && |gs| <= 9
    && if forall i | 0 < i < |gs| - 1 :: gs[i] != "" then |gs| == 8 && forall g | g in gs :: IsHextet(g)
       else exists k :: 0 < k < |gs| && IsGap(gs, k) && FillsAround(gs, k)
  }

  /** ipaddress.IPv6Address, with an optional zone after '%'. */
  predicate IsIPv6(s: string) {
    var i := Find(s, '%');
    && '/' !in s
    && (i < |s| ==> i + 1 < |s| && '%' !in s[i + 1..])
    && Groups(s[..i]).Some? && IsGroups(Groups(s[..i]).value)
  }

  function HexRun(s: string): (n: nat)
    ensures n <= |s|
  {
    if s == "" || !IsHex(s[0]) then 0 else 1 + HexRun(s[1..])
  }

  predicate IsFuture(s: string)
    requires StartsWith(s, "v")
  {
    var n := HexRun(s[1..]);
    n > 0 && n + 2 < |s| && s[n + 1] == '.'
  }

  /** What may stand between brackets in a URL's authority. */
  predicate IsBracketable(s: string) {
    if StartsWith(s, "v") then IsFuture(s) else IsIPv6(s)
  }

  lemma SplitCons(head: string, sep: char, tail: string)
    requires sep !in head
    ensures Split(head + [sep] + tail, sep) == [head] + Split(tail, sep)
  {
    var s := head + [sep] + tail;
    FindAt(head, sep, tail);
    assert s[..|head|] == head && s[|head| + 1..] == tail;
  }

  lemma SplitWhole(s: string, sep: char)
    requires sep !in s
    ensures Split(s, sep) == [s]
  {
    FindAbsent(s, sep);
  }

  lemma AddressOf(s: string, gs: seq<string>, k: nat)
    requires '%' !in s && '/' !in s && !StartsWith(s, "v") && Split(s, ':') == gs && 3 <= |gs| <= 9
    requires '.' !in gs[|gs| - 1] && IsGap(gs, k) && FillsAround(gs, k)
    ensures IsBracketable(s)
  {
    FindAbsent(s, '%');
    assert s[..|s|] == s;
    assert gs[k] == "" && 0 < k < |gs| - 1;
  }

  lemma SplitLeading(rest: string)
    ensures Split(":" + rest, ':') == [""] + Split(rest, ':')
  {
    SplitCons("", ':', rest);
    assert "" + ":" + rest == ":" + rest;
  }

  lemma SplitGap(rest: string)
    ensures Split(":" + (":" + rest), ':') == [""] + ([""] + Split(rest, ':'))
  {
    SplitLeading(rest);
    SplitLeading(":" + rest);
  }

  lemma SplitPair(g: string, h: string)
    requires ':' !in g && ':' !in h
    ensures Split(g + ":" + h, ':') == [g, h]
  {
    SplitWhole(h, ':');
    SplitCons(g, ':', h);
  }

  lemma GapOf(gs: seq<string>)
    requires 1 <= |gs| <= 2 && forall g | g in gs :: IsHextet(g)
    ensures var all := [""] + ([""] + gs); IsGap(all, 1) && FillsAround(all, 1) && '.' !in all[|all| - 1]
  {
    assert forall i | 0 <= i < |gs| :: gs[i] in gs;
  }

  lemma HextetChars(g: string)
    requires IsHextet(g)
    ensures forall c | c in "%/:.v" :: c !in g
  {
  }

  /** "::" followed by groups without '%', '/' and '.'. */
  lemma AfterGap(rest: string, gs: seq<string>)
    requires Split(rest, ':') == gs && 1 <= |gs| <= 2 && forall g | g in gs :: IsHextet(g)
    requires '%' !in rest && '/' !in rest
    ensures IsBracketable(":" + (":" + rest))
  {
    SplitGap(rest);
    GapOf(gs);
    AddressOf(":" + (":" + rest), [""] + ([""] + gs), 1);
  }

  lemma OneGroup(g: string)
    requires IsHextet(g)
    ensures IsBracketable(":" + (":" + g))
  {
    HextetChars(g);
    SplitWhole(g, ':');
    AfterGap(g, [g]);
  }

  lemma TwoGroups(g: string, h: string)
    requires IsHextet(g) && IsHextet(h)
    ensures IsBracketable(":" + (":" + (g + ":" + h)))
  {
    HextetChars(g);
    HextetChars(h);
    SplitPair(g, h);
    AfterGap(g + ":" + h, [g, h]);
  }

  /** A text without ':' is no address. */
  lemma NotBracketable(s: string)
    requires ':' !in s && (s == "" || s[0] != 'v')
    ensures !IsBracketable(s)
  {
    SplitWhole(s[..Find(s, '%')], ':');
  }
}
