/** Reading links out of a subscription body and removing duplicates (bypsseng/core/cnfg.py). */
module Subscription {
  import opened Text
  import opened Base64
  import Utf8

  const SCHEMES: seq<string> := ["vless://", "trojan://", "hysteria2://", "hy2://", "vmess://", "ss://"]

  predicate Supported(line: string) {
    exists p | p in SCHEMES :: StartsWith(line, p)
  }

  /** [line.strip() for line in lines if line.strip().startswith(valid_protos)] */
  function StrippedLinks(lines: seq<string>): seq<string> {
    if lines == [] then []
    else (if Supported(Strip(lines[0])) then [Strip(lines[0])] else []) + StrippedLinks(lines[1..])
  }

  function LinkLines(content: string): seq<string> {
    StrippedLinks(Split(content, '\n'))
  }

  /** The base64 body with line breaks and backslashes removed and its padding repaired. */
  function Cleaned(content: string): string {
    Repair(Strip(Remove(Remove(Remove(content, "\n"), "\r"), "\\")))
  }

  /** extract_configs_from_text; the result is list(set(...)), so only the set is determined. */
  function Extract(content: string): set<string> {
    var links := LinkLines(content);
    if links != [] then (set x | x in links)
    else
      match Decode(Cleaned(content))
      case None => {}
      case Some(bytes) =>
        match Utf8.Decode(bytes)
        case None => {}
        case Some(text) => set x | x in LinkLines(text)
  }

  /** A link of one of the six schemes. */
  predicate IsLink(x: string) {
    StartsWith(x, "vless://") || StartsWith(x, "trojan://") || StartsWith(x, "hysteria2://") || StartsWith(x, "hy2://")
    || StartsWith(x, "vmess://") || StartsWith(x, "ss://")
  }

  /** Some line, stripped, is `x`. */
  ghost predicate StripsTo(lines: seq<string>, x: string) {
    exists i | 0 <= i < |lines| :: Strip(lines[i]) == x
  }

  /** Some line of `text`, stripped, is the link `x`. */
  ghost predicate LinkOf(text: string, x: string) {
    IsLink(x) && StripsTo(Split(text, '\n'), x)
  }

  lemma SupportedIff(line: string)
    ensures Supported(line) <==> IsLink(line)
  {
    assert SCHEMES[0] in SCHEMES && SCHEMES[1] in SCHEMES && SCHEMES[2] in SCHEMES;
    assert SCHEMES[3] in SCHEMES && SCHEMES[4] in SCHEMES && SCHEMES[5] in SCHEMES;
  }

  lemma StripsToCons(lines: seq<string>, x: string)
    requires lines != []
    ensures StripsTo(lines, x) <==> Strip(lines[0]) == x || StripsTo(lines[1..], x)
  {
    if i :| 0 <= i < |lines| && Strip(lines[i]) == x {
      assert i > 0 ==> lines[i] == lines[1..][i - 1];
    }
    if i :| 0 <= i < |lines| - 1 && Strip(lines[1..][i]) == x {
      assert lines[i + 1] == lines[1..][i];
    }
  }

  lemma {:induction false} StrippedIff(lines: seq<string>, x: string)
    ensures x in StrippedLinks(lines) <==> Supported(x) && StripsTo(lines, x)
  {
    if lines != [] {
      StrippedIff(lines[1..], x);
      StripsToCons(lines, x);
      InKept(Supported(Strip(lines[0])), Strip(lines[0]), StrippedLinks(lines[1..]), x);
    }
  }

  lemma InKept(keep: bool, s: string, rest: seq<string>, x: string)
    ensures x in (if keep then [s] else []) + rest <==> (keep && x == s) || x in rest
  {
  }

  lemma LinesIff(text: string, x: string)
    ensures x in LinkLines(text) <==> LinkOf(text, x)
  {
    StrippedIff(Split(text, '\n'), x);
    SupportedIff(x);
  }

  lemma HasLinks(text: string, x: string)
    requires LinkOf(text, x)
    ensures LinkLines(text) != []
  {
    LinesIff(text, x);
  }

  /** A text with at least one link gives exactly the links among its stripped lines. */
  lemma ExtractIff(text: string, x: string)
    requires exists y :: LinkOf(text, y)
    ensures x in Extract(text) <==> LinkOf(text, x)
  {
    var y :| LinkOf(text, y);
    HasLinks(text, y);
    LinesIff(text, x);
  }

  /** `body` is `s` with line breaks and backslashes put in anywhere. */
  predicate Interspersed(body: string, s: string) {
    if body == "" then s == ""
    else (body[0] in "\n\r\\" && Interspersed(body[1..], s))
         || (s != "" && body[0] == s[0] && Interspersed(body[1..], s[1..]))
  }

  predicate Blank(s: string) {
    forall c | c in s :: IsSpace(c)
  }

  /** `body` is `plain` with blanks around it, broken into lines and escaped in any way. */
  ghost predicate IsWrapping(body: string, plain: string) {
    exists lead, trail :: IsWrappedIn(body, lead, plain, trail)
  }

  predicate IsWrappedIn(body: string, lead: string, plain: string, trail: string) {
    Blank(lead) && Blank(trail) && (forall c | c in lead + trail :: c !in "\n\r\\")
    && Interspersed(body, lead + plain + trail)
  }

  lemma {:induction false} RemoveBoth(s: string, a: string, b: string)
    ensures Remove(Remove(s, a), b) == Remove(s, a + b)
  {
    if s != "" {
      RemoveBoth(s[1..], a, b);
      RemoveHead(s, a);
      RemoveHead(s, a + b);
      if s[0] !in a {
        RemoveHead(Remove(s, a), b);
      }
    }
  }

  lemma RemoveHead(s: string, drop: string)
    requires s != ""
    ensures s[0] in drop ==> Remove(s, drop) == Remove(s[1..], drop)
    ensures s[0] !in drop ==>
              Remove(s, drop) != "" && Remove(s, drop)[0] == s[0] && Remove(s, drop)[1..] == Remove(s[1..], drop)
              && Remove(s, drop) == [s[0]] + Remove(s[1..], drop)
  {
  }

  lemma {:induction false} RemoveInterspersed(body: string, s: string, drop: string)
    requires Interspersed(body, s) && drop == "\n\r\\" && forall c | c in s :: c !in drop
    ensures Remove(body, drop) == s
  {
    if body != "" {
      RemoveHead(body, drop);
      if body[0] in drop {
        assert s == "" || s[0] in s;
        RemoveInterspersed(body[1..], s, drop);
      } else {
        RemoveInterspersed(body[1..], s[1..], drop);
      }
    }
  }

  lemma {:induction false} LStripBlanks(lead: string, s: string)
    requires Blank(lead) && s != "" && !IsSpace(s[0])
    ensures LStrip(lead + s) == s
  {
    if lead == "" {
      assert lead + s == s;
    } else {
      assert lead[0] in lead && (lead + s)[1..] == lead[1..] + s;
      LStripBlanks(lead[1..], s);
    }
  }

  lemma {:induction false} RStripBlanks(s: string, trail: string)
    requires Blank(trail) && s != "" && !IsSpace(s[|s| - 1])
    ensures RStrip(s + trail) == s
  {
    if trail == "" {
      assert s + trail == s;
    } else {
      var n := |trail| - 1;
      assert trail[n] in trail && (s + trail)[..|s| + n] == s + trail[..n];
      RStripBlanks(s, trail[..n]);
    }
  }

  /** Blanks around a text are stripped. */
  lemma StripBlanks(lead: string, s: string, trail: string)
    requires Blank(lead) && Blank(trail) && s != "" && !IsSpace(s[0]) && !IsSpace(s[|s| - 1])
    ensures Strip(lead + s + trail) == s
  {
    assert lead + s + trail == lead + (s + trail) && (s + trail)[0] == s[0];
    LStripBlanks(lead, s + trail);
    RStripBlanks(s, trail);
  }

  lemma NoScheme(line: string)
    requires ':' !in line
    ensures !Supported(line)
  {
    forall p | p in SCHEMES ensures !StartsWith(line, p) {
      assert p[|p| - 3] == ':';
      assert |p| <= |line| ==> line[..|p|][|p| - 3] in line;
    }
  }

  lemma {:induction false} NoLinks(lines: seq<string>)
    requires forall l | l in lines :: ':' !in l
    ensures StrippedLinks(lines) == []
  {
    if lines != [] {
      assert lines[0] in lines;
      NoScheme(Strip(lines[0]));
      NoLinks(lines[1..]);
    }
  }

  lemma {:induction false} InterspersedChars(body: string, s: string, c: char)
    requires Interspersed(body, s) && c in body
    ensures c in s || c in "\n\r\\"
  {
    if body[0] != c {
      if body[0] in "\n\r\\" && Interspersed(body[1..], s) {
        InterspersedChars(body[1..], s, c);
      } else {
        InterspersedChars(body[1..], s[1..], c);
      }
    }
  }

  /** No line of a wrapped base64 body is a link, so the reader falls through to decoding. */
  lemma {:induction false} WrappedHasNoLinks(body: string, plain: string)
    requires IsWrapping(body, plain) && ':' !in plain
    ensures LinkLines(body) == []
  {
    var lead, trail :| IsWrappedIn(body, lead, plain, trail);
    if ':' in body {
      InterspersedChars(body, lead + plain + trail, ':');
      assert false;
    }
    NoLinks(Split(body, '\n'));
  }

  lemma {:induction false} RemovedAll(body: string, s: string)
    requires Interspersed(body, s) && forall c | c in s :: c !in "\n\r\\"
    ensures Remove(Remove(Remove(body, "\n"), "\r"), "\\") == s
  {
    RemoveInterspersed(body, s, "\n\r\\");
    RemoveThree(body, "\n", "\r", "\\");
    BreakChars();
  }

  lemma BreakChars()
    ensures "\n" + "\r" + "\\" == "\n\r\\"
  {
  }

  lemma {:induction false} RemoveThree(s: string, a: string, b: string, c: string)
    ensures Remove(Remove(Remove(s, a), b), c) == Remove(s, a + b + c)
  {
    RemoveBoth(s, a, b);
    RemoveBoth(s, a + b, c);
  }

  predicate IsPlain(s: string) { forall c | c in s :: Value(c).Some? || c == '=' }

  lemma {:induction false} PlainChars(lead: string, plain: string, trail: string)
    requires IsPlain(plain) && plain != "" && forall c | c in lead + trail :: c !in "\n\r\\"
    ensures forall c | c in lead + plain + trail :: c !in "\n\r\\"
    ensures !IsSpace(plain[0]) && !IsSpace(plain[|plain| - 1])
  {
    forall c | c in plain ensures !IsSpace(c) && c !in "\n\r\\" {
      DataChar(c);
    }
    assert plain[0] in plain && plain[|plain| - 1] in plain;
  }

  lemma {:induction false} WrappedIsCleaned(body: string, plain: string)
    requires IsWrapping(body, plain) && plain != "" && IsPlain(plain)
    ensures Cleaned(body) == Repair(plain)
  {
    var lead, trail :| IsWrappedIn(body, lead, plain, trail);
    PlainChars(lead, plain, trail);
    RemovedAll(body, lead + plain + trail);
    StripBlanks(lead, plain, trail);
  }

  lemma DataChar(c: char)
    requires Value(c).Some? || c == '='
    ensures !IsSpace(c) && c !in "\n\r\\"
  {
  }

  /** A subscription gives the same links in plain text and in base64, however the base64 is padded, wrapped, escaped or
      surrounded by blanks. */
  lemma {:induction false} BodyEquivalence(body: string, text: string, padded: bool)
    requires IsWrapping(body, Render(Utf8.Encode(text), Form(false, padded))) && LinkLines(text) != []
    ensures Extract(body) == Extract(text)
  {
    var bytes := Utf8.Encode(text);
    var plain := Render(bytes, Form(false, padded));
    RenderedIsData(bytes, padded);
    HasText(text, padded);
    WrappedHasNoLinks(body, plain);
    WrappedIsCleaned(body, plain);
    RenderedDecodes(bytes, text, padded);
    ExtractDecoded(body, bytes, text);
  }

  lemma {:induction false} ExtractDecoded(body: string, bytes: seq<Utf8.Byte>, text: string)
    requires LinkLines(body) == [] && LinkLines(text) != []
    requires Decode(Cleaned(body)) == Some(bytes) && Utf8.Decode(bytes) == Some(text)
    ensures Extract(body) == Extract(text)
  {
  }

  lemma {:induction false} RenderedDecodes(bytes: seq<Utf8.Byte>, text: string, padded: bool)
    requires bytes == Utf8.Encode(text)
    ensures Decode(Repair(Render(bytes, Form(false, padded)))) == Some(bytes) && Utf8.Decode(bytes) == Some(text)
  {
    RenderedIsData(bytes, padded);
    DataIsPlain(Render(bytes, Form(false, padded)));
    DecodeRendered(bytes, Form(false, padded));
    Utf8.RoundTrip(text);
  }

  lemma {:induction false} HasText(text: string, padded: bool)
    requires LinkLines(text) != []
    ensures Render(Utf8.Encode(text), Form(false, padded)) != ""
  {
    if text == "" {
      assert Split(text, '\n') == [""];
      NoLinks([""]);
    }
  }

  /** The base64 form of a text with at least one link gives exactly the links among the text's stripped lines. */
  lemma BodyIff(body: string, text: string, padded: bool, x: string)
    requires IsWrapping(body, Render(Utf8.Encode(text), Form(false, padded))) && exists y :: LinkOf(text, y)
    ensures x in Extract(body) <==> LinkOf(text, x)
  {
    var y :| LinkOf(text, y);
    HasLinks(text, y);
    BodyEquivalence(body, text, padded);
    ExtractIff(text, x);
  }

  lemma RenderedIsData(bytes: seq<Utf8.Byte>, padded: bool)
    ensures IsPlain(Render(bytes, Form(false, padded)))
    ensures ':' !in Render(bytes, Form(false, padded))
  {
  }
}
