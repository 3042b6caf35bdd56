/** Python string operations used by the parsers: splitting, stripping, prefixes and decimal text. */
module Text {
  import opened Sequences

  datatype Option<+T> = None | Some(value: T)

  /** The position of the first `c` in `s`, or |s|. */
  function Find(s: string, c: char): (i: nat)
    ensures i <= |s| && c !in s[..i]
    ensures i < |s| ==> s[i] == c
  {
    if s == [] || s[0] == c then 0 else 1 + Find(s[1..], c)
  }

  /** The position of the last `c` in `s`, or |s| when there is none. */
  function FindLast(s: string, c: char): (i: nat)
    ensures i <= |s|
    ensures i < |s| ==> s[i] == c && c !in s[i + 1..]
    ensures i == |s| ==> c !in s
  {
    if s == [] then 0
    else if s[|s| - 1] == c then |s| - 1
    else
      var i := FindLast(s[..|s| - 1], c);
      if i == |s| - 1 then |s| else i
  }

  lemma {:induction false} FindAt(pre: string, c: char, post: string)
    requires c !in pre
    ensures Find(pre + [c] + post, c) == |pre|
  {
    if pre != [] {
      assert (pre + [c] + post)[1..] == pre[1..] + [c] + post;
      FindAt(pre[1..], c, post);
    }
  }

  lemma FindIs(s: string, c: char, n: nat)
    requires n < |s| && s[n] == c && c !in s[..n]
    ensures Find(s, c) == n
  {
    assert s == s[..n] + [c] + s[n + 1..];
    FindAt(s[..n], c, s[n + 1..]);
  }

  lemma {:induction false} FindLastAt(pre: string, c: char, post: string)
    requires c !in post
    ensures FindLast(pre + [c] + post, c) == |pre|
  {
    var s := pre + [c] + post;
    if post != [] {
      assert s[..|s| - 1] == pre + [c] + post[..|post| - 1];
      FindLastAt(pre, c, post[..|post| - 1]);
    }
  }

  lemma FindAbsent(s: string, c: char)
    requires c !in s
    ensures Find(s, c) == |s|
  {
  }

  /** str.split(sep) for a one-character separator. */
  function Split(s: string, sep: char): (parts: seq<string>)
    ensures |parts| > 0
    ensures forall p | p in parts :: sep !in p && forall x | x in p :: x in s
    decreases |s|
  {
    var i := Find(s, sep);
    if i == |s| then [s] else [s[..i]] + Split(s[i + 1..], sep)
  }

  /** sep.join(parts). */
  function Join(parts: seq<string>, sep: char): string
    requires |parts| > 0
  {
    if |parts| == 1 then parts[0] else parts[0] + [sep] + Join(parts[1..], sep)
  }

  lemma JoinCons(head: string, rest: seq<string>, sep: char)
    requires |rest| > 0
    ensures Join([head] + rest, sep) == head + [sep] + Join(rest, sep)
  {
    assert ([head] + rest)[1..] == rest;
  }

  lemma {:induction false} JoinSplit(s: string, sep: char)
    ensures Join(Split(s, sep), sep) == s
    decreases |s|
  {
    var i := Find(s, sep);
    if i < |s| {
      JoinSplit(s[i + 1..], sep);
      JoinCons(s[..i], Split(s[i + 1..], sep), sep);
      Around(s, i);
    }
  }

  predicate StartsWith(s: string, prefix: string) {
    |prefix| <= |s| && s[..|prefix|] == prefix
  }

  /** The characters Python's str.strip() removes. */
  predicate IsSpace(c: char) {
    var n := c as int;
    9 <= n <= 13 || 28 <= n <= 32 || n == 0x85 || n == 0xA0 || n == 0x1680 || 0x2000 <= n <= 0x200A
    || n == 0x2028 || n == 0x2029 || n == 0x202F || n == 0x205F || n == 0x3000
  }

  function LStrip(s: string): (r: string)
    ensures |r| <= |s| && r == s[|s| - |r|..]
    ensures r == [] || !IsSpace(r[0])
  {
    if s != [] && IsSpace(s[0]) then LStrip(s[1..]) else s
  }

  function RStrip(s: string): (r: string)
    ensures |r| <= |s| && r == s[..|r|]
    ensures r == [] || !IsSpace(r[|r| - 1])
  {
    if s != [] && IsSpace(s[|s| - 1]) then RStrip(s[..|s| - 1]) else s
  }

  /** str.strip(). */
  function Strip(s: string): (r: string)
    ensures forall x | x in r :: x in s
  {
    RStrip(LStrip(s))
  }

  /** Stripping deletes spaces at both ends and leaves none there. */
  lemma {:induction false} StripIs(s: string) returns (i: nat, j: nat)
    ensures i <= j <= |s| && Strip(s) == s[i..j]
    ensures forall k | 0 <= k < i :: IsSpace(s[k])
    ensures forall k | j <= k < |s| :: IsSpace(s[k])
    ensures i < j ==> !IsSpace(s[i]) && !IsSpace(s[j - 1])
  {
    var t := LStrip(s);
    i := |s| - |t|;
    j := i + |RStrip(t)|;
    LStripped(s);
    RStripped(t);
    SlicePrefix(s, i, |RStrip(t)|);
    TailOf(s, i, j);
  }

  lemma TailOf(s: string, i: nat, j: nat)
    requires i <= j <= |s| && forall k | j - i <= k < |s| - i :: IsSpace(s[i..][k])
    ensures forall k | j <= k < |s| :: IsSpace(s[k])
  {
    forall k | j <= k < |s| ensures IsSpace(s[k]) {
      assert s[k] == s[i..][k - i];
    }
  }

  lemma {:induction false} LStripped(s: string)
    ensures forall k | 0 <= k < |s| - |LStrip(s)| :: IsSpace(s[k])
  {
    if s != [] && IsSpace(s[0]) {
      LStripped(s[1..]);
      assert forall k | 0 < k < |s| :: s[k] == s[1..][k - 1];
    }
  }

  lemma {:induction false} RStripped(s: string)
    ensures forall k | |RStrip(s)| <= k < |s| :: IsSpace(s[k])
  {
    if s != [] && IsSpace(s[|s| - 1]) {
      RStripped(s[..|s| - 1]);
    }
  }

  lemma StripNothing(s: string)
    requires forall x | x in s :: !IsSpace(x)
    ensures Strip(s) == s
  {
  }

  /** s.strip("[]"). */
  function StripBrackets(s: string): string {
    if s != [] && s[0] in "[]" then StripBrackets(s[1..])
    else if s != [] && s[|s| - 1] in "[]" then StripBrackets(s[..|s| - 1])
    else s
  }

  /** s with every character of `drop` deleted, as repeated str.replace(x, "") does. */
  function Remove(s: string, drop: string): (r: string)
    ensures forall x | x in r :: x in s && x !in drop
    ensures (forall x | x in s :: x !in drop) ==> r == s
  {
    if s == [] then [] else (if s[0] in drop then [] else [s[0]]) + Remove(s[1..], drop)
  }

  /** str.replace for single characters. */
  function Replace(s: string, from: char, to: char): (r: string)
    ensures |r| == |s|
    ensures forall i | 0 <= i < |s| :: r[i] == if s[i] == from then to else s[i]
  {
    seq(|s|, i requires 0 <= i < |s| => if s[i] == from then to else s[i])
  }

  predicate IsDigit(c: char) { '0' <= c <= '9' }

  /** str(n). */
  function Decimal(n: nat): (s: string)
    ensures s != [] && forall c | c in s :: IsDigit(c)
  {
    var digit := ('0' as int + n % 10) as char;
    if n < 10 then [digit] else Decimal(n / 10) + [digit]
  }

  /** int(s) for plain ASCII digits. */
  function ParseDecimal(s: string): (n: Option<nat>)
    ensures n.Some? <==> s != [] && forall c | c in s :: IsDigit(c)
  {
    if s == [] || exists c | c in s :: !IsDigit(c) then None else Some(Digits(s))
  }

  function Digits(s: string): nat
    requires forall c | c in s :: IsDigit(c)
  {
    if s == [] then 0
    else
      assert IsDigit(s[|s| - 1]);
      10 * Digits(s[..|s| - 1]) + (s[|s| - 1] as int - '0' as int)
  }

  lemma {:induction false} DecimalRoundTrip(n: nat)
    ensures ParseDecimal(Decimal(n)) == Some(n)
  {
    var s := Decimal(n);
    assert s[|s| - 1] as int - '0' as int == n % 10;
    if n < 10 {
      assert Digits(s[..|s| - 1]) == 0;
    } else {
      DecimalRoundTrip(n / 10);
      assert s[..|s| - 1] == Decimal(n / 10);
    }
  }

  lemma DecimalInjective(m: nat, n: nat)
    requires Decimal(m) == Decimal(n)
    ensures m == n
  {
    DecimalRoundTrip(m);
    DecimalRoundTrip(n);
  }

}
