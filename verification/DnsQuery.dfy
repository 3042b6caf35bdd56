/** The DNS query packet of send_dns_query and test_doh_resolution, and a reader for it following sections 3.1,
    4.1.1 and 4.1.2 of RFC 1035. */
module DnsQuery {
  import opened Sequences
  import opened Text
  import opened Utf8

  /** n.to_bytes(2, "big"). */
  function Word(n: nat): (bs: seq<Byte>)
    requires n < 0x10000
    ensures |bs| == 2
  {
    [n / 256, n % 256]
  }

  function ReadWord(bs: seq<Byte>): nat
    requires |bs| >= 2
  {
    256 * (bs[0] as nat) + bs[1]
  }

  /** The joined labels: each is preceded by its length in characters, not in bytes. A label of 256 characters or
      more overflows to_bytes(1). */
  function Labels(parts: seq<string>): (bs: Option<seq<Byte>>)
  {
    if parts == [] then Some([])
    else if |parts[0]| > 255 then None
    else
      match Labels(parts[1..])
      case None => None
      case Some(rest) => Some([|parts[0]|] + Encode(parts[0]) + rest)
  }

  /** The packet built for `domain`; None when a label overflows. */
  function Build(id: nat, domain: string): Option<seq<Byte>>
    requires id < 0x10000
  {
    match Labels(Split(domain, '.'))
    case None => None
    case Some(qname) => Some(Word(id) + Word(0x0100) + Word(1) + [0, 0, 0, 0, 0, 0] + (qname + [0]) + Word(1) + Word(1))
  }

  datatype Query = Query(id: nat, flags: nat, counts: seq<nat>, labels: seq<seq<Byte>>, qtype: nat, qclass: nat)

  /** A domain name: length-prefixed labels of 1 to 63 bytes up to a zero byte, with the bytes that follow it. */
  function ReadName(bs: seq<Byte>): Option<(seq<seq<Byte>>, seq<Byte>)>
    decreases |bs|
  {
    if bs == [] then None
    else
      var n := bs[0];
      if n == 0 then Some(([], bs[1..]))
      else if n > 63 || |bs| <= n then None
      else
        match ReadName(bs[n + 1..])
        case None => None
        case Some((labels, rest)) => Some(([bs[1..n + 1]] + labels, rest))
  }

  /** A whole message holding a header and one question, with nothing after it. */
  function Read(bs: seq<Byte>): Option<Query> {
    if |bs| < 12 then None
    else
      match ReadName(bs[12..])
      case None => None
      case Some((labels, rest)) =>
        if |rest| != 4 then None
        else
          Some(Query(ReadWord(bs), ReadWord(bs[2..]),
                     [ReadWord(bs[4..]), ReadWord(bs[6..]), ReadWord(bs[8..]), ReadWord(bs[10..])],
                     labels, ReadWord(rest), ReadWord(rest[2..])))
  }

  /** The labels a resolver should see for a domain. */
  function Wanted(parts: seq<string>): (r: seq<seq<Byte>>)
    ensures |r| == |parts|
  {
    if parts == [] then [] else [Encode(parts[0])] + Wanted(parts[1..])
  }

  predicate ValidLabels(parts: seq<string>) {
    forall p | p in parts :: 1 <= |p| <= 63 && Ascii(p)
  }

  function TotalLength(parts: seq<string>): nat {
    if parts == [] then 0 else |parts[0]| + 1 + TotalLength(parts[1..])
  }

  lemma {:induction false} TotalLengthIsJoined(parts: seq<string>)
    requires |parts| > 0
    ensures TotalLength(parts) == |Join(parts, '.')| + 1
  {
    if |parts| > 1 {
      TotalLengthIsJoined(parts[1..]);
    } else {
      assert TotalLength(parts[1..]) == 0;
    }
  }

  /** The bytes of a non-empty label list, cut after the first label. */
  lemma FirstLabel(parts: seq<string>, rest: seq<Byte>)
    requires parts != [] && Labels(parts).Some?
    ensures var bs, n := Labels(parts).value + [0] + rest, |Encode(parts[0])|;
      bs[0] == |parts[0]| && |bs| > n && bs[1..n + 1] == Encode(parts[0])
      && bs[n + 1..] == Labels(parts[1..]).value + [0] + rest
  {
    var e, tail := Encode(parts[0]), Labels(parts[1..]).value;
    assert Labels(parts).value == [|parts[0]|] + e + tail;
    Prefixed(|parts[0]|, e, tail, rest);
  }

  lemma Prefixed(n: Byte, e: seq<Byte>, tail: seq<Byte>, rest: seq<Byte>)
    ensures var bs := [n] + e + tail + [0] + rest;
      bs[0] == n && |bs| > |e| && bs[1..|e| + 1] == e && bs[|e| + 1..] == tail + [0] + rest
  {
    Regroup([n] + e, tail, [0]);
    Regroup([n] + e, tail + [0], rest);
  }

  lemma {:induction false} ValidNameReads(parts: seq<string>, rest: seq<Byte>)
    requires ValidLabels(parts)
    ensures Labels(parts).Some? && |Labels(parts).value| == TotalLength(parts)
    ensures ReadName(Labels(parts).value + [0] + rest) == Some((Wanted(parts), rest))
  {
    if parts == [] {
      assert Labels(parts).value + [0] + rest == [0] + rest;
    } else {
      var p := parts[0];
      assert p in parts && forall q | q in parts[1..] :: q in parts;
      ValidNameReads(parts[1..], rest);
      LengthKeptIffAscii(p);
      var tail := Labels(parts[1..]).value;
      Regroup([|p|] + Encode(p), tail, [0]);
      Regroup([|p|] + Encode(p), tail + [0], rest);
      ReadsOneLabel(Encode(p), tail + [0] + rest);
    }
  }

  lemma ReadsOneLabel(e: seq<Byte>, tail: seq<Byte>)
    requires 1 <= |e| <= 63 && ReadName(tail).Some?
    ensures ReadName([|e|] + e + tail) == Some(([e] + ReadName(tail).value.0, ReadName(tail).value.1))
  {
    var bs := [|e|] + e + tail;
    assert bs[1..|e| + 1] == e && bs[|e| + 1..] == tail;
  }

  /** Reading the name back succeeds with the wanted labels only if every label is 1 to 63 ASCII characters. */
  lemma {:induction false} NameReadsOnlyIfValid(parts: seq<string>, rest: seq<Byte>)
    requires Labels(parts).Some?
    requires ReadName(Labels(parts).value + [0] + rest) == Some((Wanted(parts), rest))
    ensures ValidLabels(parts)
  {
    if parts != [] {
      var p := parts[0];
      var bs := Labels(parts).value + [0] + rest;
      FirstLabel(parts, rest);
      var (labels, _) := ReadName(bs[|p| + 1..]).value;
      assert [bs[1..|p| + 1]] + labels == [Encode(p)] + Wanted(parts[1..]);
      assert bs[1..|p| + 1] == ([bs[1..|p| + 1]] + labels)[0] == Encode(p);
      assert labels == ([bs[1..|p| + 1]] + labels)[1..] == Wanted(parts[1..]);
      LengthKeptIffAscii(p);
      NameReadsOnlyIfValid(parts[1..], rest);
      assert forall q | q in parts :: q == p || q in parts[1..];
    }
  }

  lemma {:induction false} LabelsIff(parts: seq<string>)
    ensures Labels(parts).Some? <==> forall p | p in parts :: |p| <= 255
  {
    if parts != [] {
      LabelsIff(parts[1..]);
      assert forall p | p in parts :: p == parts[0] || p in parts[1..];
      assert parts[0] in parts && forall p | p in parts[1..] :: p in parts;
    }
  }

  /** A packet is built, readable or not, exactly when no label has more than 255 characters. */
  lemma BuildsIff(id: nat, domain: string)
    requires id < 0x10000
    ensures Build(id, domain).Some? <==> forall p | p in Split(domain, '.') :: |p| <= 255
  {
    LabelsIff(Split(domain, '.'));
  }

  function Expected(id: nat, domain: string): Query {
    Query(id, 0x0100, [1, 0, 0, 0], Wanted(Split(domain, '.')), 1, 1)
  }

  lemma HeaderReads(id: nat, body: seq<Byte>)
    requires id < 0x10000
    ensures var bs := Word(id) + Word(0x0100) + Word(1) + [0, 0, 0, 0, 0, 0] + body;
      |bs| == 12 + |body| && bs[12..] == body && ReadWord(bs) == id && ReadWord(bs[2..]) == 0x0100
      && ReadWord(bs[4..]) == 1 && ReadWord(bs[6..]) == 0 && ReadWord(bs[8..]) == 0 && ReadWord(bs[10..]) == 0
  {
  }

  /** The built packet is a well-formed query for the domain exactly when every label is 1 to 63 ASCII characters;
      then it is 18 bytes longer than the domain. */
  lemma QueryRoundTripIff(id: nat, domain: string)
    requires id < 0x10000
    ensures ValidLabels(Split(domain, '.')) <==>
            Build(id, domain).Some? && Read(Build(id, domain).value) == Some(Expected(id, domain))
    ensures ValidLabels(Split(domain, '.')) ==> |Build(id, domain).value| == |domain| + 18
  {
    var parts := Split(domain, '.');
    var tail := Word(1) + Word(1);
    if Labels(parts).Some? {
      var qname := Labels(parts).value;
      var bs := Build(id, domain).value;
      assert bs == Word(id) + Word(0x0100) + Word(1) + [0, 0, 0, 0, 0, 0] + (qname + [0] + tail);
      HeaderReads(id, qname + [0] + tail);
      assert ReadWord(tail) == 1 && ReadWord(tail[2..]) == 1;
      if ValidLabels(parts) {
        ValidNameReads(parts, tail);
        TotalLengthIsJoined(parts);
        JoinSplit(domain, '.');
      } else if Read(bs) == Some(Expected(id, domain)) {
        var (labels, rest) := ReadName(qname + [0] + tail).value;
        NameEndsWith(qname + [0] + tail);
        assert rest == (qname + [0] + tail)[|qname + [0]|..] == tail;
        NameReadsOnlyIfValid(parts, tail);
        assert false;
      }
    } else if ValidLabels(parts) {
      ValidNameReads(parts, tail);
      assert false;
    }
  }

  /** The packet for a name with a trailing dot does not read back as a query for it. */
  lemma TrailingDotUnreadable(id: nat)
    requires id < 0x10000
    ensures Build(id, "a.").None? || Read(Build(id, "a.").value) != Some(Expected(id, "a."))
  {
    var parts := Split("a.", '.');
    FindIs("a.", '.', 1);
    assert "a."[2..] == "" && Split("", '.') == [""] && parts[1] == "";
    assert parts[1] in parts;
    QueryRoundTripIff(id, "a.");
  }

  lemma {:induction false} NameEndsWith(bs: seq<Byte>)
    requires ReadName(bs).Some?
    ensures var rest := ReadName(bs).value.1; |rest| <= |bs| && rest == bs[|bs| - |rest|..]
    decreases |bs|
  {
    if bs[0] != 0 {
      NameEndsWith(bs[bs[0] + 1..]);
    }
  }
}
