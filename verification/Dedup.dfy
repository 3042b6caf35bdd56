/** Key-based removal of duplicate links (deduplicate_configs). */
module Dedup {
  import opened Sequences
  import opened Text
  import Base64
  import IpAddress
  import ShadowsocksLink

  /** The part of a parsed link that deduplication reads: the protocol and the fields stored by name. */
  datatype Parsed = Unsupported | Parsed(protocol: string, texts: map<string, string>, ports: map<string, nat>)

  type Parser = string -> Parsed

  function GetText(p: Parsed, name: string): string
    requires p.Parsed?
  {
    if name in p.texts then p.texts[name] else ""
  }

  function IdentifierName(protocol: string): string {
    if protocol == "vless" then "vless_uuid"
    else if protocol == "vmess" then "vmess_uuid"
    else if protocol == "trojan" then "trojan_password"
    else if protocol == "ss" then "ss_password"
    else if protocol == "hysteria2" || protocol == "hy2" then "hysteria_password"
    else if protocol == "tuic" then "tuic_uuid"
    else if protocol == "shadowtls" then "shadowtls_password"
    else if protocol == "naive" || protocol == "naive+https" then "naive_user"
    else ""
  }

  function KeyText(protocol: string, host: string, port: nat, id: string): string {
    protocol + ":" + (host + ":" + (Decimal(port) + ":" + id))
  }

  /** The deduplication key, or None for a link that is kept unconditionally. */
  function Key(p: Parsed): Option<string>
    requires p.Parsed?
  {
    var host := GetText(p, p.protocol + "_server_ip");
    var portName := p.protocol + "_port";
    var port := if portName in p.ports then p.ports[portName] else 0;
    var id := GetText(p, IdentifierName(p.protocol));
    if host != "" && port != 0 && id != "" then Some(KeyText(p.protocol, host, port, id)) else None
  }

  /** What deduplication decides from a link alone. */
  datatype Class = Dropped | Unkeyed | WithKey(key: string)

  function Classify(p: Parsed): Class {
    if p.Unsupported? then Dropped
    else match Key(p) case None => Unkeyed case Some(k) => WithKey(k)
  }

  type Classifier = string -> Class

  function ClassifierOf(parse: Parser): Classifier {
    link => Classify(parse(link))
  }

  /** Position `i` survives: its link is supported, and unkeyed or the first with its key. */
  predicate Survives(classOf: Classifier, links: seq<string>, i: nat)
    requires i < |links|
  {
    var c := classOf(links[i]);
    c != Dropped && (c.WithKey? ==> forall j | 0 <= j < i :: classOf(links[j]) != c)
  }

  /** The surviving links, in their original order. */
  function Survivors(classOf: Classifier, links: seq<string>): (r: seq<string>)
    ensures forall x | x in r :: x in links && classOf(x) != Dropped
    decreases |links|
  {
    if links == [] then []
    else
      var n := |links| - 1;
      Survivors(classOf, links[..n]) + if Survives(classOf, links, n) then [links[n]] else []
  }

  /** The keys of the links. */
  function Keys(classOf: Classifier, links: seq<string>): set<string>
    decreases |links|
  {
    if links == [] then {}
    else
      var n := |links| - 1;
      Keys(classOf, links[..n]) + match classOf(links[n]) case WithKey(k) => {k} case _ => {}
  }

  lemma {:induction false} KeysAre(classOf: Classifier, links: seq<string>, k: string)
    ensures k in Keys(classOf, links) <==> exists j :: 0 <= j < |links| && classOf(links[j]) == WithKey(k)
    decreases |links|
  {
    if links != [] {
      var n := |links| - 1;
      KeysAre(classOf, links[..n], k);
      if j :| 0 <= j < n && classOf(links[j]) == WithKey(k) {
        assert links[..n][j] == links[j];
      }
    }
  }

  /** How the survivors and the keys grow by one link. */
  lemma OneMore(classOf: Classifier, links: seq<string>, i: nat)
    requires i < |links|
    ensures var c, before := classOf(links[i]), links[..i];
      && Survivors(classOf, links[..i + 1])
         == Survivors(classOf, before)
            + (if c == Unkeyed || (c.WithKey? && c.key !in Keys(classOf, before)) then [links[i]] else [])
      && Keys(classOf, links[..i + 1]) == Keys(classOf, before) + if c.WithKey? then {c.key} else {}
  {
    var c, after := classOf(links[i]), links[..i + 1];
    assert after[..i] == links[..i] && after[i] == links[i];
    if c.WithKey? {
      KeysAre(classOf, links[..i], c.key);
    }
  }

  method DeduplicateConfigs(parse: Parser, links: seq<string>) returns (unique: seq<string>)
    ensures unique == Survivors(ClassifierOf(parse), links)
  {
    ghost var classOf := ClassifierOf(parse);
    var seen: set<string> := {};
    unique := [];
    for i := 0 to |links|
      invariant unique == Survivors(classOf, links[..i]) && seen == Keys(classOf, links[..i])
    {
      OneMore(classOf, links, i);
      var creds := parse(links[i]);
      if creds.Parsed? {
        var key := Key(creds);
        if key.Some? {
          if key.value !in seen {
            seen := seen + {key.value};
            unique := unique + [links[i]];
          }
        } else {
          unique := unique + [links[i]];
        }
      }
    }
    assert links[..|links|] == links;
  }

  /** No two links share a key. */
  ghost predicate DistinctKeys(classOf: Classifier, links: seq<string>) {
    forall i, j | 0 <= i < j < |links| && classOf(links[j]).WithKey? :: classOf(links[i]) != classOf(links[j])
  }

  /** The first link with each key is in the result. */
  lemma {:induction false} EveryKeyKept(classOf: Classifier, links: seq<string>, i: nat)
    requires i < |links| && classOf(links[i]).WithKey?
    requires forall j | 0 <= j < i :: classOf(links[j]) != classOf(links[i])
    ensures links[i] in Survivors(classOf, links)
    decreases |links|
  {
    var n := |links| - 1;
    if i < n {
      EveryKeyKept(classOf, links[..n], i);
    }
  }

  /** The unkeyed links of a list, in order. */
  function UnkeyedLinks(classOf: Classifier, links: seq<string>): seq<string>
    decreases |links|
  {
    if links == [] then []
    else
      var n := |links| - 1;
      UnkeyedLinks(classOf, links[..n]) + if classOf(links[n]) == Unkeyed then [links[n]] else []
  }

  /** Links without a key are all kept, in order and with repetitions. */
  lemma {:induction false} UnkeyedKept(classOf: Classifier, links: seq<string>)
    ensures UnkeyedLinks(classOf, Survivors(classOf, links)) == UnkeyedLinks(classOf, links)
    decreases |links|
  {
    if links != [] {
      var n := |links| - 1;
      UnkeyedKept(classOf, links[..n]);
      var r := Survivors(classOf, links[..n]);
      if Survives(classOf, links, n) {
        assert (r + [links[n]])[..|r|] == r;
      } else {
        assert r + [] == r;
      }
    }
  }

  lemma {:induction false} SurvivorsDistinct(classOf: Classifier, links: seq<string>)
    ensures DistinctKeys(classOf, Survivors(classOf, links))
    decreases |links|
  {
    if links != [] {
      var n := |links| - 1;
      var r := Survivors(classOf, links[..n]);
      SurvivorsDistinct(classOf, links[..n]);
      if Survives(classOf, links, n) && classOf(links[n]).WithKey? {
        forall i | 0 <= i < |r| ensures classOf(r[i]) != classOf(links[n]) {
          assert r[i] in r && r[i] in links[..n];
          var j :| 0 <= j < n && links[..n][j] == r[i];
          assert links[j] == r[i];
        }
      }
    }
  }

  lemma {:induction false} DistinctUnchanged(classOf: Classifier, links: seq<string>)
    requires DistinctKeys(classOf, links) && forall i | 0 <= i < |links| :: classOf(links[i]) != Dropped
    ensures Survivors(classOf, links) == links
    decreases |links|
  {
    if links != [] {
      var n := |links| - 1;
      DistinctPrefix(classOf, links, n);
      DistinctUnchanged(classOf, links[..n]);
      LastSurvives(classOf, links, n);
      FrontAndLast(links);
    }
  }

  lemma LastSurvives(classOf: Classifier, links: seq<string>, n: nat)
    requires DistinctKeys(classOf, links) && n < |links| && classOf(links[n]) != Dropped
    ensures Survives(classOf, links, n)
  {
  }

  lemma DistinctPrefix(classOf: Classifier, links: seq<string>, n: nat)
    requires DistinctKeys(classOf, links) && n <= |links|
    ensures DistinctKeys(classOf, links[..n])
  {
  }

  /** Deduplicating twice changes nothing more. */
  lemma Idempotent(classOf: Classifier, links: seq<string>)
    ensures Survivors(classOf, Survivors(classOf, links)) == Survivors(classOf, links)
  {
    var r := Survivors(classOf, links);
    SurvivorsDistinct(classOf, links);
    assert forall i | 0 <= i < |r| :: r[i] in r;
    DistinctUnchanged(classOf, r);
  }

  /** The concatenated key identifies all four parts when protocol and host contain no ':'. */
  lemma KeyInjective(p1: string, h1: string, n1: nat, i1: string, p2: string, h2: string, n2: nat, i2: string)
    requires ':' !in p1 && ':' !in p2 && ':' !in h1 && ':' !in h2
    requires KeyText(p1, h1, n1, i1) == KeyText(p2, h2, n2, i2)
    ensures p1 == p2 && h1 == h2 && n1 == n2 && i1 == i2
  {
    assert ':' !in Decimal(n1) && ':' !in Decimal(n2);
    Cut(p1, h1 + ":" + (Decimal(n1) + ":" + i1), p2, h2 + ":" + (Decimal(n2) + ":" + i2));
    Cut(h1, Decimal(n1) + ":" + i1, h2, Decimal(n2) + ":" + i2);
    Cut(Decimal(n1), i1, Decimal(n2), i2);
    DecimalInjective(n1, n2);
  }

  lemma Cut(a: string, x: string, b: string, y: string)
    requires ':' !in a && ':' !in b && a + ":" + x == b + ":" + y
    ensures a == b && x == y
  {
    FindAt(a, ':', x);
    FindAt(b, ':', y);
    assert (a + ":" + x)[..|a|] == a && (a + ":" + x)[|a| + 1..] == x;
    assert (b + ":" + y)[..|b|] == b && (b + ":" + y)[|b| + 1..] == y;
  }

  /** `h2` is `h1` with a port and possibly more behind it, which the key of the first link spells in its port and its
      identifier: the second host absorbs them. */
  predicate Absorbs(h1: string, n1: nat, i1: string, h2: string, n2: nat, i2: string) {
    var head, tail := h1 + ":" + Decimal(n1), Decimal(n2) + ":" + i2;
    && StartsWith(h2, head)
    && var more := h2[|head|..];
       if more == "" then i1 == tail else more[0] == ':' && i1 == more[1..] + ":" + tail
  }

  /** Two links with colon-free protocols have the same key exactly when protocol, host, port and identifier agree or
      one host absorbs the other's port. */
  lemma KeysEqualIff(p1: string, h1: string, n1: nat, i1: string, p2: string, h2: string, n2: nat, i2: string)
    requires ':' !in p1 && ':' !in p2
    ensures KeyText(p1, h1, n1, i1) == KeyText(p2, h2, n2, i2)
       <==> p1 == p2 && ((h1 == h2 && n1 == n2 && i1 == i2) || Absorbs(h1, n1, i1, h2, n2, i2)
                         || Absorbs(h2, n2, i2, h1, n1, i1))
  {
    var s1, s2 := h1 + ":" + (Decimal(n1) + ":" + i1), h2 + ":" + (Decimal(n2) + ":" + i2);
    if KeyText(p1, h1, n1, i1) == KeyText(p2, h2, n2, i2) {
      Cut(p1, s1, p2, s2);
    }
    RestsEqualIff(h1, n1, i1, h2, n2, i2);
  }

  lemma RestsEqualIff(h1: string, n1: nat, i1: string, h2: string, n2: nat, i2: string)
    ensures h1 + ":" + (Decimal(n1) + ":" + i1) == h2 + ":" + (Decimal(n2) + ":" + i2)
       <==> (h1 == h2 && n1 == n2 && i1 == i2) || Absorbs(h1, n1, i1, h2, n2, i2) || Absorbs(h2, n2, i2, h1, n1, i1)
  {
    if Absorbs(h1, n1, i1, h2, n2, i2) {
      AbsorbsGivesEqual(h1, n1, i1, h2, n2, i2);
    } else if Absorbs(h2, n2, i2, h1, n1, i1) {
      AbsorbsGivesEqual(h2, n2, i2, h1, n1, i1);
    } else if h1 + ":" + (Decimal(n1) + ":" + i1) == h2 + ":" + (Decimal(n2) + ":" + i2) {
      if |h1| < |h2| {
        EqualGivesAbsorbs(h1, n1, i1, h2, n2, i2);
      } else if |h2| < |h1| {
        EqualGivesAbsorbs(h2, n2, i2, h1, n1, i1);
      } else {
        SameHost(h1, Decimal(n1) + ":" + i1, h2, Decimal(n2) + ":" + i2);
        Cut(Decimal(n1), i1, Decimal(n2), i2);
        DecimalInjective(n1, n2);
      }
    }
  }

  lemma SameHost(a: string, x: string, b: string, y: string)
    requires |a| == |b| && a + ":" + x == b + ":" + y
    ensures a == b && x == y
  {
    assert (a + ":" + x)[..|a|] == a && (a + ":" + x)[|a| + 1..] == x;
    assert (b + ":" + y)[..|a|] == b && (b + ":" + y)[|a| + 1..] == y;
  }

  lemma AbsorbsGivesEqual(h1: string, n1: nat, i1: string, h2: string, n2: nat, i2: string)
    requires Absorbs(h1, n1, i1, h2, n2, i2)
    ensures h1 + ":" + (Decimal(n1) + ":" + i1) == h2 + ":" + (Decimal(n2) + ":" + i2)
  {
    var head, tail := h1 + ":" + Decimal(n1), Decimal(n2) + ":" + i2;
    var more := h2[|head|..];
    assert h2 == head + more;
    assert h1 + ":" + (Decimal(n1) + ":" + i1) == head + (":" + i1);
    assert h2 + ":" + tail == head + (more + ":" + tail);
    if more != "" {
      assert more == ":" + more[1..];
      assert more + ":" + tail == ":" + (more[1..] + ":" + tail);
    } else {
      assert more + ":" + tail == ":" + tail;
    }
  }

  lemma EqualGivesAbsorbs(h1: string, n1: nat, i1: string, h2: string, n2: nat, i2: string)
    requires |h1| < |h2| && h1 + ":" + (Decimal(n1) + ":" + i1) == h2 + ":" + (Decimal(n2) + ":" + i2)
    ensures Absorbs(h1, n1, i1, h2, n2, i2)
  {
    var d, tail := Decimal(n1), Decimal(n2) + ":" + i2;
    var rest := Shorter(h1, d + ":" + i1, h2, tail);
    FirstPart(d, i1, rest, tail);
    var head := h1 + ":" + d;
    assert h2 == h1 + ":" + rest;
    if rest == d {
      assert h2[|head|..] == "";
    } else {
      var more := rest[|d|..];
      assert rest == d + more && h2 == head + more && h2[|head|..] == more;
    }
    assert StartsWith(h2, head);
  }

  /** The longer of two heads continues with ':' and a part of the shorter one's tail. */
  lemma Shorter(a: string, x: string, b: string, y: string) returns (rest: string)
    requires |a| < |b| && a + ":" + x == b + ":" + y
    ensures b == a + ":" + rest && x == rest + ":" + y
  {
    var s := a + ":" + x;
    rest := b[|a| + 1..];
    assert s[..|b|] == b && s[|b|..] == ":" + y;
    assert s[|a| + 1..] == x && s[|a|] == ':' && s[..|a|] == a;
    assert b[|a|] == ':' && b[..|a|] == a;
    assert x == s[|a| + 1..|b|] + s[|b|..];
  }

  lemma ShorterHasColon(a: string, x: string, b: string, y: string)
    requires |a| < |b| && a + ":" + x == b + ":" + y
    ensures ':' in b
  {
    var rest := Shorter(a, x, b, y);
    assert b[|a|] == ':';
  }

  /** A colon-free head `d` is all of `rest`, or `rest` goes on with ':' behind it. */
  lemma FirstPart(d: string, x: string, rest: string, y: string)
    requires ':' !in d && d + ":" + x == rest + ":" + y
    ensures if rest == d then x == y
            else |d| < |rest| && rest[..|d|] == d && rest[|d|] == ':' && x == rest[|d| + 1..] + ":" + y
  {
    if |rest| < |d| {
      ShorterHasColon(rest, y, d, x);
      assert false;
    } else if |rest| == |d| {
      SameHost(d, x, rest, y);
    } else {
      var more := Shorter(d, x, rest, y);
      assert rest[|d| + 1..] == more;
    }
  }

  /** What parse_config_link stores for a parsed ss link. */
  function SsEntry(c: ShadowsocksLink.Creds): Parsed {
    Entry("ss", c.host, c.port, c.password)
  }

  const URL_SAFE := Base64.Form(true, false)

  /** The addresses ::g and ::g:n. */
  function ShortHost(g: string): string { ":" + (":" + g) }
  function LongHost(g: string, n: nat): string { ":" + (":" + (g + ":" + Decimal(n))) }

  /** ss://...@[::g]:n1 with password n2:i, and ss://...@[::g:n1]:n2 with password i. */
  function FirstLink(g: string, n1: nat, n2: nat, i: string): string {
    ShadowsocksLink.UserinfoLink("aes", Decimal(n2) + ":" + i, ShadowsocksLink.V6(ShortHost(g)), n1, URL_SAFE, "")
  }

  function SecondLink(g: string, n1: nat, n2: nat, i: string): string {
    ShadowsocksLink.UserinfoLink("aes", i, ShadowsocksLink.V6(LongHost(g, n1)), n2, URL_SAFE, "")
  }

  predicate LowerHextet(g: string) {
    IpAddress.IsHextet(g) && forall c | c in g :: !('A' <= c <= 'Z')
  }

  /** Two links to different servers that share a key, for instance [::1]:2 with password 3:x and [::1:2]:3 with
      password x: deduplication drops the second. */
  lemma KeyCollides(parse: Parser, g: string, n1: nat, n2: nat, i: string)
    requires forall link | StartsWith(link, "ss://") && ShadowsocksLink.ParseSs(link).Some? ::
               parse(link) == SsEntry(ShadowsocksLink.ParseSs(link).value)
    requires LowerHextet(g) && 0 < n1 < 10000 && 0 < n2 <= 65535 && i != ""
    ensures parse(FirstLink(g, n1, n2, i)) == Entry("ss", ShortHost(g), n1, Decimal(n2) + ":" + i)
    ensures parse(SecondLink(g, n1, n2, i)) == Entry("ss", LongHost(g, n1), n2, i)
    ensures Survivors(ClassifierOf(parse), [FirstLink(g, n1, n2, i), SecondLink(g, n1, n2, i)])
         == [FirstLink(g, n1, n2, i)]
  {
    FirstParses(g, n1, n2, i);
    SecondParses(g, n1, n2, i);
    CollidingKeys(g, n1, n2, i);
    SecondDropped(ClassifierOf(parse), FirstLink(g, n1, n2, i), SecondLink(g, n1, n2, i));
  }

  lemma FirstParses(g: string, n1: nat, n2: nat, i: string)
    requires LowerHextet(g) && 0 < n1 <= 65535
    ensures var link := FirstLink(g, n1, n2, i);
      StartsWith(link, "ss://")
      && ShadowsocksLink.ParseSs(link) == Some(ShadowsocksLink.Creds("aes", Decimal(n2) + ":" + i, ShortHost(g), n1))
  {
    IpAddress.OneGroup(g);
    V6Parses(Decimal(n2) + ":" + i, ShortHost(g), n1);
  }

  lemma SecondParses(g: string, n1: nat, n2: nat, i: string)
    requires LowerHextet(g) && n1 < 10000 && 0 < n2 <= 65535
    ensures var link := SecondLink(g, n1, n2, i);
      StartsWith(link, "ss://")
      && ShadowsocksLink.ParseSs(link) == Some(ShadowsocksLink.Creds("aes", i, LongHost(g, n1), n2))
  {
    DecimalShort(n1);
    IpAddress.TwoGroups(g, Decimal(n1));
    V6Parses(i, LongHost(g, n1), n2);
  }

  lemma SecondDropped(classOf: Classifier, a: string, b: string)
    requires classOf(a).WithKey? && classOf(a) == classOf(b)
    ensures Survivors(classOf, [a, b]) == [a]
  {
    assert [a, b][..1] == [a] && [a][..0] == [];
    assert Survivors(classOf, [a]) == [a];
  }

  lemma DecimalShort(n: nat)
    requires n < 10000
    ensures IpAddress.IsHextet(Decimal(n))
  {
    assert n / 10 < 1000 && n / 10 / 10 < 100 && n / 10 / 10 / 10 < 10;
    assert |Decimal(n / 10 / 10 / 10)| == 1 && |Decimal(n / 10 / 10)| <= 2 && |Decimal(n / 10)| <= 3;
  }

  lemma V6Parses(password: string, host: string, port: nat)
    requires IpAddress.IsBracketable(host) && host != "" && 0 < port <= 65535
    requires forall c | c in host :: c == ':' || (IpAddress.IsHex(c) && !('A' <= c <= 'Z'))
    ensures var link := ShadowsocksLink.UserinfoLink("aes", password, ShadowsocksLink.V6(host), port, URL_SAFE, "");
      StartsWith(link, "ss://")
      && ShadowsocksLink.ParseSs(link) == Some(ShadowsocksLink.Creds("aes", password, host, port))
  {
    assert forall c | c in host[..Find(host, '%')] :: c in host;
    ShadowsocksLink.UserinfoRoundTrip("aes", password, ShadowsocksLink.V6(host), port, URL_SAFE, "");
  }

  lemma HostGrows(g: string, n: nat)
    ensures LongHost(g, n) == ShortHost(g) + ":" + Decimal(n)
  {
    var d := Decimal(n);
    Regroup(":", ":" + g, ":");
    Regroup(":", ":" + g + ":", d);
    Regroup(":", g, ":");
    Regroup(":", g + ":", d);
  }

  lemma AbsorbsWhole(h1: string, n1: nat, h2: string, n2: nat, i2: string)
    requires h2 == h1 + ":" + Decimal(n1)
    ensures Absorbs(h1, n1, Decimal(n2) + ":" + i2, h2, n2, i2)
  {
    assert h2[|h2|..] == "";
  }

  lemma CollidingKeys(g: string, n1: nat, n2: nat, i: string)
    requires n1 > 0 && n2 > 0 && i != ""
    ensures Key(Entry("ss", ShortHost(g), n1, Decimal(n2) + ":" + i)) == Key(Entry("ss", LongHost(g, n1), n2, i))
    ensures Key(Entry("ss", LongHost(g, n1), n2, i)).Some?
  {
    var h1, h2, i1 := ShortHost(g), LongHost(g, n1), Decimal(n2) + ":" + i;
    KeyedExceptHysteria("ss", h1, n1, i1);
    KeyedExceptHysteria("ss", h2, n2, i);
    HostGrows(g, n1);
    AbsorbsWhole(h1, n1, h2, n2, i);
    KeysEqualIff("ss", h1, n1, i1, "ss", h2, n2, i);
  }

  /** The name prefix under which each _parse_* function stores its fields. */
  function FieldPrefix(protocol: string): string {
    if protocol == "hysteria2" then "hysteria" else protocol
  }

  /** What each _parse_* function calls the identifier, behind its prefix. */
  function IdentifierSuffix(protocol: string): string {
    if protocol in {"vless", "vmess", "tuic"} then "_uuid" else if protocol == "naive" then "_user" else "_password"
  }

  const PROTOCOLS: set<string> :=
    {"vless", "vmess", "trojan", "ss", "hysteria2", "tuic", "shadowtls", "naive"}

  /** What parse_config_link stores for a well-formed link of `protocol`. */
  function Entry(protocol: string, host: string, port: nat, id: string): Parsed
    requires protocol in PROTOCOLS
  {
    var prefix := FieldPrefix(protocol);
    Parsed(protocol, map[prefix + "_server_ip" := host, prefix + IdentifierSuffix(protocol) := id],
           map[prefix + "_port" := port])
  }

  /** A link is keyed exactly when its three fields are given and it is not one of hysteria2, whose fields are looked up
      under another prefix; its duplicates are therefore all kept. */
  lemma KeyedExceptHysteria(protocol: string, host: string, port: nat, id: string)
    requires protocol in PROTOCOLS
    ensures Key(Entry(protocol, host, port, id))
         == if protocol == "hysteria2" || host == "" || port == 0 || id == "" then None
            else Some(KeyText(protocol, host, port, id))
  {
    assert |"hysteria2" + "_server_ip"| != |"hysteria" + "_server_ip"|;
    assert |"hysteria2" + "_server_ip"| != |"hysteria" + "_password"|;
    IdentifierFound(protocol);
    var prefix := FieldPrefix(protocol);
    assert |prefix + "_server_ip"| != |prefix + IdentifierSuffix(protocol)|;
  }

  /** The identifier is looked up under the name it is stored under. */
  lemma IdentifierFound(protocol: string)
    requires protocol in PROTOCOLS
    ensures IdentifierName(protocol) == FieldPrefix(protocol) + IdentifierSuffix(protocol)
  {
    assert "vless" + "_uuid" == "vless_uuid" && "vmess" + "_uuid" == "vmess_uuid" && "tuic" + "_uuid" == "tuic_uuid";
    assert "trojan" + "_password" == "trojan_password" && "ss" + "_password" == "ss_password";
    assert "hysteria" + "_password" == "hysteria_password" && "shadowtls" + "_password" == "shadowtls_password";
    assert "naive" + "_user" == "naive_user";
  }

  /** `p` is what a well-formed hysteria2 link parses to. */
  ghost predicate IsHysteria(p: Parsed) {
    exists host, port, id :: host != "" && port != 0 && id != "" && p == Entry("hysteria2", host, port, id)
  }

  /** hysteria2 links are never deduplicated: any list of them, repetitions included, survives as it is. */
  lemma {:induction false} HysteriaAllKept(parse: Parser, links: seq<string>)
    requires forall link | link in links :: IsHysteria(parse(link))
    ensures Survivors(ClassifierOf(parse), links) == links
    decreases |links|
  {
    if links != [] {
      var n := |links| - 1;
      assert links[n] in links && forall link | link in links[..n] :: link in links;
      HysteriaAllKept(parse, links[..n]);
      HysteriaUnkeyed(parse(links[n]));
      FrontAndLast(links);
    }
  }

  lemma HysteriaUnkeyed(p: Parsed)
    requires IsHysteria(p)
    ensures Classify(p) == Unkeyed
  {
    var host, port, id :| host != "" && port != 0 && id != "" && p == Entry("hysteria2", host, port, id);
    KeyedExceptHysteria("hysteria2", host, port, id);
  }
}
