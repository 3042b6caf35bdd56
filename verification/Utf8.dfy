/** UTF-8 (sections 3 and 4 of RFC 3629) as str.encode() and the strict bytes.decode("utf-8") treat it. */
module Utf8 {
  import opened Text

  type Byte = b: nat | b < 256

  function EncodeChar(c: char): (bs: seq<Byte>)
    ensures 1 <= |bs| <= 4
    ensures |bs| == 1 <==> c < 128 as char
  {
    var n := c as nat;
    if n < 0x80 then [n]
    else if n < 0x800 then [0xC0 + n / 64, 0x80 + n % 64]
    else if n < 0x10000 then [0xE0 + n / 4096, 0x80 + n / 64 % 64, 0x80 + n % 64]
    else [0xF0 + n / 262144, 0x80 + n / 4096 % 64, 0x80 + n / 64 % 64, 0x80 + n % 64]
  }

  function Encode(s: string): (bs: seq<Byte>)
    ensures |bs| >= |s|
    ensures bs == [] <==> s == []
  {
    if s == [] then [] else EncodeChar(s[0]) + Encode(s[1..])
  }

  predicate Continues(b: Byte) { 0x80 <= b < 0xC0 }

  /** The payload of a byte below its marker bits. */
  function Bits(b: Byte, marker: int): int { b - marker }

  /** The scalar value at the head of `bs` and the bytes it takes; overlong forms and surrogates are refused. */
  function DecodeChar(bs: seq<Byte>): (r: Option<(char, nat)>)
    requires bs != []
    ensures r.Some? ==> 1 <= r.value.1 <= |bs|
  {
    var b := bs[0];
    if b < 0x80 then Some((b as char, 1))
    else if 0xC2 <= b < 0xE0 && |bs| > 1 && Continues(bs[1]) then
      Some(((Bits(b, 0xC0) * 64 + Bits(bs[1], 0x80)) as char, 2))
    else if 0xE0 <= b < 0xF0 && |bs| > 2 && Continues(bs[1]) && Continues(bs[2]) then
      var n := Bits(b, 0xE0) * 4096 + Bits(bs[1], 0x80) * 64 + Bits(bs[2], 0x80);
      if n < 0x800 || 0xD800 <= n < 0xE000 then None else Some((n as char, 3))
    else if 0xF0 <= b < 0xF5 && |bs| > 3 && Continues(bs[1]) && Continues(bs[2]) && Continues(bs[3]) then
      var n := Bits(b, 0xF0) * 262144 + Bits(bs[1], 0x80) * 4096 + Bits(bs[2], 0x80) * 64
               + Bits(bs[3], 0x80);
      if n < 0x10000 || 0x110000 <= n then None else Some((n as char, 4))
    else None
  }

  function Decode(bs: seq<Byte>): Option<string>
    decreases |bs|
  {
    if bs == [] then Some("")
    else
      match DecodeChar(bs)
      case None => None
      case Some((c, n)) =>
        match Decode(bs[n..])
        case None => None
        case Some(rest) => Some([c] + rest)
  }

  lemma {:induction false} DecodeEncodedChar(c: char, rest: seq<Byte>)
    ensures DecodeChar(EncodeChar(c) + rest) == Some((c, |EncodeChar(c)|))
  {
    var n, bs := c as nat, EncodeChar(c) + rest;
    if n < 0x80 {
      assert bs[0] == n;
    } else if n < 0x800 {
      assert bs[0] == 0xC0 + n / 64 && bs[1] == 0x80 + n % 64;
    } else if n < 0x10000 {
      assert bs[0] == 0xE0 + n / 4096 && bs[1] == 0x80 + n / 64 % 64 && bs[2] == 0x80 + n % 64;
      Sextets(n);
    } else {
      assert bs[0] == 0xF0 + n / 262144 && bs[1] == 0x80 + n / 4096 % 64 && bs[2] == 0x80 + n / 64 % 64;
      assert bs[3] == 0x80 + n % 64;
      Sextets(n);
    }
  }

  lemma Sextets(n: nat)
    ensures n == n / 4096 * 4096 + n / 64 % 64 * 64 + n % 64
    ensures n / 4096 == n / 262144 * 64 + n / 4096 % 64
  {
  }

  lemma {:induction false} RoundTrip(s: string)
    ensures Decode(Encode(s)) == Some(s)
  {
    if s != [] {
      var head, rest := EncodeChar(s[0]), Encode(s[1..]);
      DecodeEncodedChar(s[0], rest);
      assert (head + rest)[|head|..] == rest;
      RoundTrip(s[1..]);
      assert s == [s[0]] + s[1..];
    }
  }

  lemma Split64(high: nat, low: nat)
    requires low < 64
    ensures (high * 64 + low) / 64 == high && (high * 64 + low) % 64 == low
  {
  }

  lemma EncodedTwo(x: nat, y: nat)
    requires 2 <= x < 32 && y < 64
    ensures EncodeChar((x * 64 + y) as char) == [0xC0 + x, 0x80 + y]
  {
    Split64(x, y);
  }

  lemma EncodedThree(x: nat, y: nat, z: nat)
    requires x < 16 && y < 64 && z < 64
    requires var n := x * 4096 + y * 64 + z; 0x800 <= n && !(0xD800 <= n < 0xE000)
    ensures EncodeChar((x * 4096 + y * 64 + z) as char) == [0xE0 + x, 0x80 + y, 0x80 + z]
  {
    var n := x * 4096 + y * 64 + z;
    Split64(x * 64 + y, z);
    Split64(x, y);
    assert n / 4096 == x && n / 64 % 64 == y && n % 64 == z;
  }

  lemma EncodedFour(x: nat, y: nat, z: nat, t: nat)
    requires y < 64 && z < 64 && t < 64
    requires var n := x * 262144 + y * 4096 + z * 64 + t; 0x10000 <= n < 0x110000
    ensures EncodeChar((x * 262144 + y * 4096 + z * 64 + t) as char) == [0xF0 + x, 0x80 + y, 0x80 + z, 0x80 + t]
  {
    var n := x * 262144 + y * 4096 + z * 64 + t;
    Split64((x * 64 + y) * 64 + z, t);
    Split64(x * 64 + y, z);
    Split64(x, y);
    assert n / 262144 == x && n / 4096 % 64 == y && n / 64 % 64 == z && n % 64 == t;
  }

  lemma {:induction false} EncodedDecodedChar(bs: seq<Byte>)
    requires bs != [] && DecodeChar(bs).Some?
    ensures var (c, n) := DecodeChar(bs).value; EncodeChar(c) == bs[..n]
  {
    var (c, n) := DecodeChar(bs).value;
    if n == 2 {
      EncodedTwo(bs[0] as int - 0xC0, bs[1] as int - 0x80);
    } else if n == 3 {
      EncodedThree(bs[0] as int - 0xE0, bs[1] as int - 0x80, bs[2] as int - 0x80);
    } else if n == 4 {
      EncodedFour(bs[0] as int - 0xF0, bs[1] as int - 0x80, bs[2] as int - 0x80, bs[3] as int - 0x80);
    }
  }

  lemma {:induction false} EncodeCons(c: char, s: string)
    ensures Encode([c] + s) == EncodeChar(c) + Encode(s)
  {
    assert ([c] + s)[1..] == s;
  }

  lemma {:induction false} DecodeHead(bs: seq<Byte>) returns (c: char, n: nat, rest: string)
    requires bs != [] && Decode(bs).Some?
    ensures 1 <= n <= |bs| && Decode(bs[n..]) == Some(rest) && Decode(bs) == Some([c] + rest)
    ensures DecodeChar(bs) == Some((c, n))
  {
    c, n := DecodeChar(bs).value.0, DecodeChar(bs).value.1;
    rest := Decode(bs[n..]).value;
  }

  lemma HeadThenRest(bs: seq<Byte>, c: char, n: nat, rest: string)
    requires n <= |bs| && EncodeChar(c) == bs[..n] && Encode(rest) == bs[n..]
    ensures Encode([c] + rest) == bs
  {
    EncodeCons(c, rest);
    assert bs == bs[..n] + bs[n..];
  }

  /** Strict decoding accepts nothing but encodings. */
  lemma {:induction false} OnlyEncodings(bs: seq<Byte>)
    requires Decode(bs).Some?
    ensures Encode(Decode(bs).value) == bs
    decreases |bs|
  {
    if bs != [] {
      var c, n, rest := DecodeHead(bs);
      OnlyEncodings(bs[n..]);
      EncodedDecodedChar(bs);
      HeadThenRest(bs, c, n, rest);
    }
  }

  /** Two of the examples in section 7 of RFC 3629. */
  lemma {:induction false} StandardExamples()
    ensures Encode([0x0041 as char, 0x2262 as char, 0x0391 as char]) == [0x41, 0xE2, 0x89, 0xA2, 0xCE, 0x91]
    ensures Encode([0x233B4 as char]) == [0xF0, 0xA3, 0x8E, 0xB4]
  {
    EncodeCons(0x0391 as char, "");
    EncodeCons(0x2262 as char, [0x0391 as char]);
    EncodeCons(0x0041 as char, [0x2262 as char, 0x0391 as char]);
    assert [0x2262 as char] + [0x0391 as char] == [0x2262 as char, 0x0391 as char];
    assert [0x0041 as char] + [0x2262 as char, 0x0391 as char] == [0x0041 as char, 0x2262 as char, 0x0391 as char];
    EncodeCons(0x233B4 as char, "");
  }

  predicate Ascii(s: string) { forall c | c in s :: c < 128 as char }

  /** len(s) equals len(s.encode()) exactly for ASCII text. */
  lemma {:induction false} LengthKeptIffAscii(s: string)
    ensures |Encode(s)| == |s| <==> Ascii(s)
  {
    if s != [] {
      LengthKeptIffAscii(s[1..]);
      assert s[0] in s && forall c | c in s[1..] :: c in s;
      assert forall c | c in s :: c == s[0] || c in s[1..];
      assert |Encode(s)| == |EncodeChar(s[0])| + |Encode(s[1..])|;
    }
  }
}
