/** Base64 (sections 4 and 5 of RFC 4648): an encoder, the lenient decoder behind base64.b64decode, and b64_decode. */
module Base64 {
  import opened Text
  import opened Utf8

  function Symbol(v: nat): (c: char)
    requires v < 64
    ensures Value(c) == Some(v)
  {
    if v < 26 then ('A' as nat + v) as char
    else if v < 52 then ('a' as nat + v - 26) as char
    else if v < 62 then ('0' as nat + v - 52) as char
    else if v == 62 then '+' else '/'
  }

  function Value(c: char): (v: Option<nat>)
    ensures v.Some? ==> v.value < 64
  {
    if 'A' <= c <= 'Z' then Some(c as nat - 'A' as nat)
    else if 'a' <= c <= 'z' then Some(c as nat - 'a' as nat + 26)
    else if '0' <= c <= '9' then Some(c as nat - '0' as nat + 52)
    else if c == '+' then Some(62)
    else if c == '/' then Some(63) else None
  }

  predicate IsData(s: string) { forall c | c in s :: Value(c).Some? }

  function EncodeUnpadded(bs: seq<Byte>): (s: string)
    ensures IsData(s)
    ensures |s| % 4 == if |bs| % 3 == 0 then 0 else |bs| % 3 + 1
    ensures bs != [] ==> s != []
  {
    if bs == [] then ""
    else if |bs| == 1 then One(bs[0])
    else if |bs| == 2 then Two(bs[0], bs[1])
    else
      var group, rest := Group(bs[0], bs[1], bs[2]), EncodeUnpadded(bs[3..]);
      DataConcat(group, rest);
      WholeGroups(|bs[3..]|, |rest|);
      group + rest
  }

  lemma WholeGroups(bytes: nat, symbols: nat)
    ensures (bytes + 3) % 3 == bytes % 3 && (4 + symbols) % 4 == symbols % 4
  {
  }

  lemma DataConcat(a: string, b: string)
    requires IsData(a) && IsData(b)
    ensures IsData(a + b)
  {
  }

  function One(a: Byte): (s: string)
    ensures |s| == 2 && IsData(s)
  {
    [Symbol(a / 4), Symbol(a % 4 * 16)]
  }

  function Two(a: Byte, b: Byte): (s: string)
    ensures |s| == 3 && IsData(s)
  {
    [Symbol(a / 4), Symbol(a % 4 * 16 + b / 16), Symbol(b % 16 * 4)]
  }

  function Group(a: Byte, b: Byte, c: Byte): (s: string)
    ensures |s| == 4 && IsData(s)
  {
    [Symbol(a / 4), Symbol(a % 4 * 16 + b / 16), Symbol(b % 16 * 4 + c / 64), Symbol(c % 64)]
  }

  function Pads(n: nat): (s: string)
    ensures |s| == n && forall c | c in s :: c == '='
  {
    seq(n, _ => '=')
  }

  /** Brings the length to a multiple of four, as b64_decode and the subscription reader do. */
  function Repair(s: string): string {
    s + Pads((4 - |s| % 4) % 4)
  }

  /** The loop of binascii.a2b_base64 without strict mode: `quad` data characters of the current group are read,
      `left` holds their unused bits, `pads` counts the padding seen since the last data character. Characters
      outside the alphabet are skipped. */
  function Scan(s: string, quad: nat, left: nat, pads: nat): Option<seq<Byte>>
    requires Fits(quad, left)
  {
    if s == "" then
      if quad == 0 then Some([]) else None
    else if s[0] == '=' then
      if quad < 2 then Scan(s[1..], quad, left, pads)
      else if quad + pads + 1 >= 4 then Some([])
      else Scan(s[1..], quad, left, pads + 1)
    else
      match Value(s[0])
      case None => Scan(s[1..], quad, left, pads)
      case Some(v) =>
        if quad == 0 then Scan(s[1..], 1, v, 0)
        else if quad == 1 then Prepend(left * 4 + v / 16, Scan(s[1..], 2, v % 16, 0))
        else if quad == 2 then Prepend(left * 16 + v / 4, Scan(s[1..], 3, v % 4, 0))
        else Prepend(left * 64 + v, Scan(s[1..], 0, 0, 0))
  }

  predicate Fits(quad: nat, left: nat) {
    quad < 4 && left < (if quad == 0 then 1 else if quad == 1 then 64 else if quad == 2 then 16 else 4)
  }

  function Prepend(b: Byte, r: Option<seq<Byte>>): Option<seq<Byte>> {
    match r case None => None case Some(bs) => Some([b] + bs)
  }

  /** base64.b64decode on a str: non-ASCII text is refused before scanning. */
  function Decode(s: string): Option<seq<Byte>> {
    if Ascii(s) then Scan(s, 0, 0, 0) else None
  }

  /** b64_decode: URL-safe translation, padding repair, decoding, UTF-8. */
  function B64Decode(s: string): Option<string> {
    match Decode(Repair(FromUrlSafe(s)))
    case None => None
    case Some(bs) => Utf8.Decode(bs)
  }

  function FromUrlSafe(s: string): string {
    Replace(Replace(s, '-', '+'), '_', '/')
  }

  /** The ways an encoder may write the same bytes. */
  datatype Form = Form(urlSafe: bool, padded: bool)

  function Render(bs: seq<Byte>, form: Form): string {
    var plain := if form.padded then Repair(EncodeUnpadded(bs)) else EncodeUnpadded(bs);
    if form.urlSafe then Replace(Replace(plain, '+', '-'), '/', '_') else plain
  }

  lemma ScanGroup(a: Byte, b: Byte, c: Byte, rest: string)
    ensures Scan(Group(a, b, c) + rest, 0, 0, 0)
         == Prepend(a, Prepend(b, Prepend(c, Scan(rest, 0, 0, 0))))
  {
    var s := Group(a, b, c);
    SplitBits(a, b, c);
    ScanFour(s[0], s[1], s[2], s[3], rest);
    assert s == [s[0], s[1], s[2], s[3]];
  }

  /** Four data characters scan to three bytes. */
  lemma ScanFour(c0: char, c1: char, c2: char, c3: char, rest: string)
    requires Value(c0).Some? && Value(c1).Some? && Value(c2).Some? && Value(c3).Some?
    ensures var v0, v1, v2, v3 := Value(c0).value, Value(c1).value, Value(c2).value, Value(c3).value;
      Scan([c0, c1, c2, c3] + rest, 0, 0, 0)
      == Prepend(v0 * 4 + v1 / 16,
                 Prepend(v1 % 16 * 16 + v2 / 4, Prepend(v2 % 4 * 64 + v3, Scan(rest, 0, 0, 0))))
  {
    var v0, v1, v2 := Value(c0).value, Value(c1).value, Value(c2).value;
    var s := [c0, c1, c2, c3] + rest;
    ScanData(s, 0, 0);
    ScanData(s[1..], 1, v0);
    ScanData(s[2..], 2, v1 % 16);
    ScanData(s[3..], 3, v2 % 4);
    assert s[1..][1..] == s[2..] && s[2..][1..] == s[3..] && s[3..][1..] == rest;
  }

  /** One step of the scan at a data character. */
  lemma ScanData(s: string, quad: nat, left: nat)
    requires Fits(quad, left) && s != "" && Value(s[0]).Some?
    ensures var v := Value(s[0]).value;
      Scan(s, quad, left, 0)
      == if quad == 0 then Scan(s[1..], 1, v, 0)
         else if quad == 1 then Prepend(left * 4 + v / 16, Scan(s[1..], 2, v % 16, 0))
         else if quad == 2 then Prepend(left * 16 + v / 4, Scan(s[1..], 3, v % 4, 0))
         else Prepend(left * 64 + v, Scan(s[1..], 0, 0, 0))
  {
  }

  lemma SplitBits(a: Byte, b: Byte, c: Byte)
    ensures a / 4 * 4 + (a % 4 * 16 + b / 16) / 16 == a
    ensures (a % 4 * 16 + b / 16) % 16 * 16 + (b % 16 * 4 + c / 64) / 4 == b
    ensures (b % 16 * 4 + c / 64) % 4 * 64 + c % 64 == c
  {
  }

  lemma ScanTwo(a: Byte, b: Byte)
    ensures Scan([Symbol(a / 4), Symbol(a % 4 * 16 + b / 16), Symbol(b % 16 * 4), '='], 0, 0, 0) == Some([a, b])
  {
    var t := [Symbol(a / 4), Symbol(a % 4 * 16 + b / 16), Symbol(b % 16 * 4), '='];
    assert t[1..][1..] == t[2..] && t[2..][1..] == "=";
    assert Scan("=", 3, 0, 0) == Some([]);
    assert Scan(t[2..], 2, b / 16, 0) == Prepend(b, Scan("=", 3, 0, 0)) == Some([b] + []);
    assert [a] + ([b] + []) == [a, b];
  }

  lemma ScanOne(a: Byte)
    ensures Scan([Symbol(a / 4), Symbol(a % 4 * 16), '=', '='], 0, 0, 0) == Some([a])
  {
    var t := [Symbol(a / 4), Symbol(a % 4 * 16), '=', '='];
    assert t[1..][1..] == "==" && "=="[1..] == "=";
    assert Scan("=", 2, 0, 1) == Some([]);
    assert Scan("==", 2, 0, 0) == Some([]);
    assert Scan(t[1..], 1, a / 4, 0) == Prepend(a, Some([])) == Some([a] + []);
    assert [a] + [] == [a];
  }

  lemma RepairShape(s: string)
    ensures |s| >= 4 ==> Repair(s) == s[..4] + Repair(s[4..])
    ensures |s| == 3 ==> Repair(s) == [s[0], s[1], s[2], '=']
    ensures |s| == 2 ==> Repair(s) == [s[0], s[1], '=', '=']
    ensures |s| == 0 ==> Repair(s) == ""
  {
    if |s| >= 4 {
      assert (|s| - 4) % 4 == |s| % 4;
    }
  }

  /** The repaired encoding scans back to its bytes. */
  lemma {:induction false} ScanEncoded(bs: seq<Byte>)
    ensures Scan(Repair(EncodeUnpadded(bs)), 0, 0, 0) == Some(bs)
  {
    var s := EncodeUnpadded(bs);
    RepairShape(s);
    if |bs| >= 3 {
      var rest := EncodeUnpadded(bs[3..]);
      assert s[..4] == Group(bs[0], bs[1], bs[2]) && s[4..] == rest;
      ScanEncoded(bs[3..]);
      ScanGroup(bs[0], bs[1], bs[2], Repair(rest));
      assert [bs[0]] + ([bs[1]] + ([bs[2]] + bs[3..])) == bs;
    } else if |bs| == 2 {
      ScanTwo(bs[0], bs[1]);
      assert bs == [bs[0], bs[1]];
    } else if |bs| == 1 {
      ScanOne(bs[0]);
      assert bs == [bs[0]];
    }
  }

  lemma GroupExamples()
    ensures Group(102, 111, 111) == "Zm9v" && Group(98, 97, 114) == "YmFy" && Two(98, 97) == "YmE" && One(98) == "Yg"
  {
  }

  lemma {:induction false} OneGroupThen(a: Byte, b: Byte, c: Byte, rest: seq<Byte>)
    ensures EncodeUnpadded([a, b, c] + rest) == Group(a, b, c) + EncodeUnpadded(rest)
  {
    assert ([a, b, c] + rest)[3..] == rest;
  }

  /** Examples from section 10 of RFC 4648: "foobar", "fooba" and "foob". */
  lemma {:induction false} StandardExamples()
    ensures EncodeUnpadded([102, 111, 111] + [98, 97, 114]) == "Zm9v" + "YmFy"
    ensures Repair(EncodeUnpadded([102, 111, 111] + [98, 97])) == "Zm9v" + "YmE="
    ensures Repair(EncodeUnpadded([102, 111, 111] + [98])) == "Zm9v" + "Yg=="
  {
    GroupExamples();
    OneGroupThen(98, 97, 114, []);
    assert [98, 97, 114] + [] == [98, 97, 114] && "YmFy" + "" == "YmFy";
    OneGroupThen(102, 111, 111, [98, 97, 114]);
    OneGroupThen(102, 111, 111, [98, 97]);
    OneGroupThen(102, 111, 111, [98]);
    RepairShape("YmE");
    RepairShape("Yg");
    RepairShape("Zm9v" + "YmE");
    RepairShape("Zm9v" + "Yg");
  }

  /** Every form of the encoding, padded or not, URL-safe or not, decodes to the bytes it was made from. */
  lemma DecodeRendered(bs: seq<Byte>, form: Form)
    ensures Decode(Repair(FromUrlSafe(Render(bs, form)))) == Some(bs)
  {
    var s := EncodeUnpadded(bs);
    RepairOnce(s);
    DataIsPlain(if form.padded then Repair(s) else s);
    DataIsPlain(Repair(s));
    ScanEncoded(bs);
  }

  /** Repairing keeps the alphabet, and repairing again changes nothing. */
  lemma RepairOnce(s: string)
    requires IsData(s)
    ensures Repair(Repair(s)) == Repair(s)
    ensures forall c | c in Repair(s) :: Value(c).Some? || c == '='
  {
    assert |Repair(s)| % 4 == 0;
  }

  lemma DataIsPlain(s: string)
    requires forall c | c in s :: Value(c).Some? || c == '='
    ensures '-' !in s && '_' !in s && Ascii(s)
    ensures FromUrlSafe(s) == s
    ensures FromUrlSafe(Replace(Replace(s, '+', '-'), '/', '_')) == s
  {
    assert forall i | 0 <= i < |s| :: s[i] in s;
  }

  lemma {:induction false} B64RoundTrip(text: string, form: Form)
    ensures B64Decode(Render(Utf8.Encode(text), form)) == Some(text)
  {
    DecodeRendered(Utf8.Encode(text), form);
    Utf8.RoundTrip(text);
  }

  /** Padding repair is exact: it makes unpadded data decodable unless one symbol is left over, which no padding
      can complete. */
  lemma RepairSucceedsIff(s: string)
    requires IsData(s)
    ensures Decode(Repair(s)).Some? <==> |s| % 4 != 1
  {
    DataIsPlain(s);
    assert Ascii(Repair(s));
    ScanDataIff(s, Pads((4 - |s| % 4) % 4), 0, 0);
  }

  lemma {:induction false} ScanDataIff(s: string, pads: string, quad: nat, left: nat)
    requires IsData(s) && Fits(quad, left)
    requires pads == Pads((4 - (quad + |s|) % 4) % 4)
    ensures Scan(s + pads, quad, left, 0).Some? <==> (quad + |s|) % 4 != 1
  {
    if s != "" {
      var t := s + pads;
      assert t[0] == s[0] && s[0] in s && t[1..] == s[1..] + pads;
      var v := Value(s[0]).value;
      var left' := if quad == 0 then v else if quad == 1 then v % 16 else if quad == 2 then v % 4 else 0;
      assert IsData(s[1..]);
      ScanDataIff(s[1..], pads, (quad + 1) % 4, left');
    } else {
      assert s + pads == pads;
      ScanPads(quad, left);
    }
  }

  lemma ScanPads(quad: nat, left: nat)
    requires Fits(quad, left)
    ensures Scan(Pads((4 - quad) % 4), quad, left, 0).Some? <==> quad != 1
  {
    var t := Pads((4 - quad) % 4);
    if quad == 1 {
      assert t[1..] == "==" && t[1..][1..] == "=" && t[1..][1..][1..] == "";
      assert Scan("=", 1, left, 0) == Scan("", 1, left, 0) == None;
      assert Scan("==", 1, left, 0) == None;
    } else if quad == 2 {
      assert t == "==" && t[1..] == "=";
      assert Scan("=", 2, left, 1) == Some([]);
    }
  }
}
