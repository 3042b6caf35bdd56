/** The two ss:// link forms and their parser (_parse_ss), down to the pieces of urlparse it reads
    (section 3.2 of RFC 3986). */
module ShadowsocksLink {
  import opened Text
  import opened Base64
  import opened IpAddress
  import Utf8

  datatype Creds = Creds(cipher: string, password: string, host: string, port: nat)

  /** s.split(c, 1) when it yields two parts. */
  function SplitOnce(s: string, c: char): Option<(string, string)> {
    var i := Find(s, c);
    if i == |s| then None else Some((s[..i], s[i + 1..]))
  }

  /** s.rsplit(c, 1) when it yields two parts. */
  function RSplitOnce(s: string, c: char): Option<(string, string)> {
    var i := FindLast(s, c);
    if i == |s| then None else Some((s[..i], s[i + 1..]))
  }

  /** The part of `s` before its first '/', '?' or '#'. */
  function UntilDelimiter(s: string): string {
    if s == "" || s[0] in "/?#" then "" else [s[0]] + UntilDelimiter(s[1..])
  }

  /** The text between the first '[' and the next ']'. */
  function Bracketed(netloc: string): string {
    var i := Find(netloc, '[');
    var rest := if i < |netloc| then netloc[i + 1..] else "";
    rest[..Find(rest, ']')]
  }

  /** urlparse(link).netloc; an unbalanced bracket raises, and so does a bracketed text that is no address. */
  function Netloc(link: string): Option<string>
    requires StartsWith(link, "ss://")
  {
    var netloc := UntilDelimiter(Remove(link[5..], "\t\r\n"));
    if ('[' in netloc) != (']' in netloc) then None
    else if '[' in netloc && !IsBracketable(Bracketed(netloc)) then None
    else Some(netloc)
  }

  /** The host and port texts of a netloc, before validation. */
  function HostInfo(netloc: string): (string, string) {
    var hostinfo := match RSplitOnce(netloc, '@') case None => netloc case Some(p) => p.1;
    match SplitOnce(hostinfo, '[')
    case Some((_, bracketed)) =>
      (match SplitOnce(bracketed, ']')
       case None => (bracketed, "")
       case Some((host, tail)) => (host, match SplitOnce(tail, ':') case None => "" case Some(p) => p.1))
    case None =>
      match SplitOnce(hostinfo, ':') case None => (hostinfo, "") case Some(p) => p
  }

  function LowerChar(c: char): char {
    if 'A' <= c <= 'Z' then (c as nat + 32) as char else c
  }

  /** ParseResult.hostname: lower-cased up to a zone identifier. */
  function Hostname(netloc: string): string {
    var host := HostInfo(netloc).0;
    var i := Find(host, '%');
    seq(i, k requires 0 <= k < i => LowerChar(host[k])) + host[i..]
  }

  /** ParseResult.port: None when absent, not decimal or above 65535. */
  function PortOf(netloc: string): Option<nat> {
    match ParseDecimal(HostInfo(netloc).1)
    case None => None
    case Some(n) => if n <= 65535 then Some(n) else None
  }

  /** host:port as the whole-authority branch splits it. */
  function HostPort(s: string): Option<(string, nat)> {
    if StartsWith(s, "[") then
      match RSplitOnce(s, ':')
      case None => None
      case Some((ip, port)) =>
        match ParseDecimal(port) case None => None case Some(n) => Some((StripBrackets(ip), n))
    else
      var parts := Split(s, ':');
      if |parts| < 2 then None
      else match ParseDecimal(parts[1]) case None => None case Some(n) => Some((parts[0], n))
  }

  /** _parse_ss; None is the "unsupported" result. */
  function ParseSs(link: string): (r: Option<Creds>)
    requires StartsWith(link, "ss://")
    ensures r.Some? ==> r.value.host != "" && r.value.port > 0 && ':' !in r.value.cipher
  {
    match Netloc(link)
    case None => None
    case Some(netloc) => if '@' in netloc then ParseUserinfo(netloc) else ParseAuthority(B64Decode(netloc))
  }

  function ParseUserinfo(netloc: string): (r: Option<Creds>)
    requires '@' in netloc
    ensures r.Some? ==> r.value.host != "" && r.value.port > 0 && ':' !in r.value.cipher
  {
    var userinfo := RSplitOnce(netloc, '@').value.0;
    match if ':' in userinfo then Some(userinfo) else B64Decode(userinfo)
    case None => None
    case Some(text) =>
      match (SplitOnce(text, ':'), PortOf(netloc))
      case (Some((m, p)), Some(n)) => Checked(m, p, Hostname(netloc), n)
      case _ => None
  }

  function ParseAuthority(decoded: Option<string>): (r: Option<Creds>)
    ensures r.Some? ==> r.value.host != "" && r.value.port > 0 && ':' !in r.value.cipher
  {
    match decoded
    case None => None
    case Some(text) =>
      match RSplitOnce(text, '@')
      case None => None
      case Some((auth, hostport)) =>
        match (SplitOnce(auth, ':'), HostPort(hostport))
        case (Some((m, p)), Some((h, n))) => Checked(m, p, h, n)
        case _ => None
  }

  /** The final check for missing core parameters. */
  function Checked(m: string, p: string, h: string, n: nat): Option<Creds> {
    if h == "" || n == 0 then None else Some(Creds(m, p, h, n))
  }

  datatype Host = Name(text: string) | V6(text: string)

  function HostText(h: Host): string {
    if h.Name? then h.text else "[" + h.text + "]"
  }

  /** Hosts that survive being written next to '@', ':' and brackets. */
  predicate Writable(h: Host) {
    h.text != "" && '@' !in h.text && '[' !in h.text && ']' !in h.text && (h.Name? ==> ':' !in h.text)
  }

  /** Additionally, hosts that can stand in a URL unescaped. */
  predicate InUrl(h: Host) {
    Writable(h) && forall c | c in h.text :: c !in "/?#\t\r\n"
  }

  /** No upper-case letter before a zone identifier, which may hold any. */
  predicate LowerCase(h: Host) {
    forall c | c in h.text[..Find(h.text, '%')] :: !('A' <= c <= 'Z')
  }

  /** What may follow the authority: nothing, or a path, query or fragment. */
  predicate IsSuffix(s: string) {
    s == "" || s[0] in "/?#"
  }

  function AuthorityText(m: string, p: string, h: Host, port: nat): string {
    m + ":" + p + "@" + HostText(h) + ":" + Decimal(port)
  }

  /** ss://BASE64(method:password@host:port) */
  function AuthorityLink(m: string, p: string, h: Host, port: nat, form: Form, suffix: string): string {
    "ss://" + Render(Utf8.Encode(AuthorityText(m, p, h, port)), form) + suffix
  }

  /** ss://BASE64(method:password)@host:port */
  function UserinfoLink(m: string, p: string, h: Host, port: nat, form: Form, suffix: string): string {
    "ss://" + (Render(Utf8.Encode(m + ":" + p), form) + "@" + (HostText(h) + ":" + Decimal(port))) + suffix
  }

  lemma SplitOnceAt(a: string, c: char, b: string)
    requires c !in a
    ensures SplitOnce(a + [c] + b, c) == Some((a, b))
  {
    var s := a + [c] + b;
    FindAt(a, c, b);
    assert s[..|a|] == a && s[|a| + 1..] == b;
  }

  lemma RSplitOnceAt(a: string, c: char, b: string)
    requires c !in b
    ensures RSplitOnce(a + [c] + b, c) == Some((a, b))
  {
    var s := a + [c] + b;
    FindLastAt(a, c, b);
    assert s[..|a|] == a && s[|a| + 1..] == b;
  }

  lemma KeptChar(c: char, s: string, drop: string)
    requires c !in "/?#" && c !in drop
    ensures UntilDelimiter(Remove([c] + s, drop)) == [c] + UntilDelimiter(Remove(s, drop))
  {
    var t := [c] + s;
    assert t[1..] == s;
    assert Remove(t, drop) == [c] + Remove(s, drop);
    assert ([c] + Remove(s, drop))[1..] == Remove(s, drop);
  }

  lemma {:induction false} CutAfter(body: string, suffix: string, drop: string)
    requires forall c | c in body :: c !in "/?#" && c !in drop
    requires suffix != "" ==> suffix[0] in "/?#" && suffix[0] !in drop
    ensures UntilDelimiter(Remove(body + suffix, drop)) == body
  {
    if body == "" {
      assert body + suffix == suffix;
    } else {
      var rest := body[1..] + suffix;
      assert body[0] in body && body + suffix == [body[0]] + rest;
      CutAfter(body[1..], suffix, drop);
      KeptChar(body[0], rest, drop);
    }
  }

  lemma NetlocOf(body: string, suffix: string)
    requires (forall c | c in body :: c !in "/?#\t\r\n") && IsSuffix(suffix)
    ensures UntilDelimiter(Remove(body + suffix, "\t\r\n")) == body
  {
    CutAfter(body, suffix, "\t\r\n");
  }

  lemma DecimalChars(n: nat)
    ensures ParseDecimal(Decimal(n)) == Some(n)
    ensures forall c | c in "/?#\t\r\n@:[]" :: c !in Decimal(n)
  {
    DecimalRoundTrip(n);
  }

  lemma HostPortOf(h: Host, d: string, port: nat)
    requires Writable(h) && ':' !in d && ParseDecimal(d) == Some(port)
    ensures HostPort(HostText(h) + ":" + d) == Some((h.text, port))
  {
    var s := HostText(h) + ":" + d;
    if h.V6? {
      assert s[0] == '[' && s[..1] == "[";
      RSplitOnceAt(HostText(h), ':', d);
      StripBracketed(h.text);
    } else {
      assert s[0] == h.text[0] && h.text[0] in h.text && s[..1] == [s[0]];
      SplitTwo(h.text, d, ':');
    }
  }

  /** Without brackets the host ends at the first ':' and the port at the next one; what follows is ignored. */
  lemma HostPortOnly(h: string, d: string, rest: string, port: nat)
    requires h != "" && h[0] != '[' && ':' !in h && ':' !in d && ParseDecimal(d) == Some(port)
    ensures HostPort(h + ":" + (d + ":" + rest)) == Some((h, port))
  {
    var tail := d + ":" + rest;
    var s := h + ":" + tail;
    assert s[0] == h[0] && s[..1] == [h[0]];
    SplitCons(h, ':', tail);
    SplitCons(d, ':', rest);
  }

  lemma SplitTwo(a: string, b: string, c: char)
    requires c !in a && c !in b
    ensures Split(a + [c] + b, c) == [a, b]
  {
    SplitCons(a, c, b);
    SplitWhole(b, c);
  }

  lemma StripBracketed(s: string)
    requires s != "" && '[' !in s && ']' !in s
    ensures StripBrackets("[" + s + "]") == s
  {
    var t := "[" + s + "]";
    assert t[1..] == s + "]" && (s + "]")[0] == s[0] && s[0] in s && s[|s| - 1] in s;
    assert (s + "]")[..|s|] == s;
    assert StripBrackets(s) == s;
    assert StripBrackets(s + "]") == s;
  }

  lemma {:induction false} RenderedChars(bs: seq<Utf8.Byte>, form: Form)
    requires form.urlSafe
    ensures forall c | c in Render(bs, form) :: c !in "/?#\t\r\n@:[]"
  {
    var plain := if form.padded then Repair(EncodeUnpadded(bs)) else EncodeUnpadded(bs);
    var r := Render(bs, form);
    forall i | 0 <= i < |plain| ensures r[i] !in "/?#\t\r\n@:[]" {
      assert plain[i] in plain;
      SafeSymbol(plain[i]);
      assert r[i] == if plain[i] == '+' then '-' else if plain[i] == '/' then '_' else plain[i];
    }
  }

  lemma SafeSymbol(c: char)
    requires Value(c).Some? || c == '='
    ensures (if c == '+' then '-' else if c == '/' then '_' else c) !in "/?#\t\r\n@:[]"
  {
  }

  lemma NetlocOfLink(body: string, suffix: string)
    requires (forall c | c in body :: c !in "/?#\t\r\n") && IsSuffix(suffix)
    requires ('[' in body) == (']' in body)
    ensures StartsWith("ss://" + body + suffix, "ss://")
    ensures Netloc("ss://" + body + suffix)
         == if '[' in body && !IsBracketable(Bracketed(body)) then None else Some(body)
  {
    var link := "ss://" + body + suffix;
    assert link[..5] == "ss://" && link[5..] == body + suffix;
    NetlocOf(body, suffix);
  }

  /** The whole-authority form parses back to the fields it was written from, for any password and port. */
  lemma {:induction false} AuthorityRoundTrip(m: string, p: string, h: Host, port: nat, form: Form, suffix: string)
    requires ':' !in m && Writable(h) && port > 0 && form.urlSafe && IsSuffix(suffix)
    ensures StartsWith(AuthorityLink(m, p, h, port, form, suffix), "ss://")
    ensures ParseSs(AuthorityLink(m, p, h, port, form, suffix)) == Some(Creds(m, p, h.text, port))
  {
    var text := AuthorityText(m, p, h, port);
    var body := Render(Utf8.Encode(text), form);
    RenderedChars(Utf8.Encode(text), form);
    NetlocOfLink(body, suffix);
    B64RoundTrip(text, form);
    AuthorityFields(m, p, h, port);
  }

  lemma AuthorityFields(m: string, p: string, h: Host, port: nat)
    requires ':' !in m && Writable(h) && port > 0
    ensures ParseAuthority(Some(AuthorityText(m, p, h, port))) == Some(Creds(m, p, h.text, port))
  {
    var auth, hostport := m + ":" + p, HostText(h) + ":" + Decimal(port);
    assert AuthorityText(m, p, h, port) == auth + "@" + hostport;
    DecimalChars(port);
    NoAt(h, Decimal(port));
    RSplitOnceAt(auth, '@', hostport);
    SplitOnceAt(m, ':', p);
    HostPortOf(h, Decimal(port), port);
  }

  lemma NoAt(h: Host, d: string)
    requires Writable(h) && '@' !in d
    ensures '@' !in HostText(h) + ":" + d
  {
  }

  lemma HostInfoOf(user: string, h: Host, d: string)
    requires Writable(h) && '@' !in d && ':' !in d && '[' !in d
    ensures HostInfo(user + "@" + (HostText(h) + ":" + d)) == (h.text, d)
  {
    var hostinfo := HostText(h) + ":" + d;
    NoAt(h, d);
    RSplitOnceAt(user, '@', hostinfo);
    if h.V6? {
      V6Info(h.text, d);
    } else {
      assert '[' !in hostinfo;
      FindAbsent(hostinfo, '[');
      SplitOnceAt(h.text, ':', d);
    }
  }

  lemma BracketText(text: string, d: string)
    ensures "[" + text + "]" + ":" + d == "" + "[" + (text + "]" + (":" + d))
  {
  }

  lemma HeadOnly(c: char, d: string)
    ensures SplitOnce([c] + d, c) == Some(("", d))
  {
    assert [c] + d == "" + [c] + d;
    SplitOnceAt("", c, d);
  }

  lemma {:induction false} V6Info(text: string, d: string)
    requires ']' !in text
    ensures SplitOnce("[" + text + "]" + ":" + d, '[') == Some(("", text + "]" + (":" + d)))
    ensures SplitOnce(text + "]" + (":" + d), ']') == Some((text, ":" + d))
    ensures SplitOnce(":" + d, ':') == Some(("", d))
  {
    BracketText(text, d);
    SplitOnceAt("", '[', text + "]" + (":" + d));
    SplitOnceAt(text, ']', ":" + d);
    HeadOnly(':', d);
  }

  /** The lower-cased text of a host, as ParseResult.hostname gives it. */
  function Lowered(h: Host): string {
    var i := Find(h.text, '%');
    seq(i, k requires 0 <= k < i => LowerChar(h.text[k])) + h.text[i..]
  }

  /** The host can be written in a URL: brackets hold an address. */
  predicate UrlHost(h: Host) { h.V6? ==> IsBracketable(h.text) }

  lemma BracketedIs(s: string, n: nat, text: string)
    requires n < |s| && s[n] == '[' && '[' !in s[..n] && ']' !in text
    requires |text| < |s[n + 1..]| && s[n + 1..][..|text|] == text && s[n + 1..][|text|] == ']'
    ensures Bracketed(s) == text
  {
    FindIs(s, '[', n);
    FindIs(s[n + 1..], ']', |text|);
  }

  /** What the userinfo form parses to in every case: the host is lower-cased, and a port above 65535 or a bracketed
      text that is no address is refused. */
  lemma UserinfoParses(m: string, p: string, h: Host, port: nat, form: Form, suffix: string)
    requires ':' !in m && InUrl(h) && port > 0 && form.urlSafe && IsSuffix(suffix)
    ensures StartsWith(UserinfoLink(m, p, h, port, form, suffix), "ss://")
    ensures ParseSs(UserinfoLink(m, p, h, port, form, suffix))
         == if port <= 65535 && UrlHost(h) then Some(Creds(m, p, Lowered(h), port)) else None
  {
    var user := Render(Utf8.Encode(m + ":" + p), form);
    RenderedChars(Utf8.Encode(m + ":" + p), form);
    DecimalChars(port);
    UserinfoChars(user, h, Decimal(port));
    NetlocOfLink(user + "@" + (HostText(h) + ":" + Decimal(port)), suffix);
    B64RoundTrip(m + ":" + p, form);
    UserinfoFields(m, p, user, h, port);
    BracketsOfHost(user, h, Decimal(port));
  }

  lemma AfterBracket(text: string, d: string)
    ensures var t := "[" + text + "]" + ":" + d;
      t[0] == '[' && |text| < |t[1..]| && t[1..][..|text|] == text && t[1..][|text|] == ']'
  {
    var t := "[" + text + "]" + ":" + d;
    assert t[1..] == text + ("]" + ":" + d);
  }

  lemma {:induction false} BracketsOfHost(user: string, h: Host, d: string)
    requires Writable(h) && '[' !in user
    ensures h.V6? ==> Bracketed(user + "@" + (HostText(h) + ":" + d)) == h.text
  {
    if h.V6? {
      var s, n := user + "@" + (HostText(h) + ":" + d), |user| + 1;
      assert s[..n] == user + "@" && s[n..] == HostText(h) + ":" + d;
      AfterBracket(h.text, d);
      assert s[n + 1..] == (HostText(h) + ":" + d)[1..];
      BracketedIs(s, n, h.text);
    }
  }

  lemma UserinfoChars(user: string, h: Host, d: string)
    requires InUrl(h) && forall c | c in "/?#\t\r\n@:[]" :: c !in user && c !in d
    ensures var netloc := user + "@" + (HostText(h) + ":" + d);
      (forall c | c in netloc :: c !in "/?#\t\r\n") && ('[' in netloc) == (']' in netloc) == h.V6?
  {
    var netloc := user + "@" + (HostText(h) + ":" + d);
    if h.V6? {
      assert netloc[|user| + 1] == '[' && netloc[|user| + 2 + |h.text|] == ']';
    }
  }

  lemma {:induction false} UserinfoFields(m: string, p: string, user: string, h: Host, port: nat)
    requires ':' !in m && Writable(h) && port > 0 && ':' !in user && B64Decode(user) == Some(m + ":" + p)
    ensures var netloc := user + "@" + (HostText(h) + ":" + Decimal(port));
      '@' in netloc
      && ParseUserinfo(netloc) == if port <= 65535 then Some(Creds(m, p, Lowered(h), port)) else None
  {
    var hostinfo := HostText(h) + ":" + Decimal(port);
    var netloc := user + "@" + hostinfo;
    assert netloc[|user|] == '@';
    DecimalChars(port);
    NoAt(h, Decimal(port));
    RSplitOnceAt(user, '@', hostinfo);
    SplitOnceAt(m, ':', p);
    HostAndPort(user, h, port);
    UserinfoSteps(netloc, user, hostinfo, m, p);
    LoweredLength(h);
  }

  lemma LoweredLength(h: Host)
    ensures |Lowered(h)| == |h.text|
  {
  }

  lemma UserinfoSteps(netloc: string, user: string, hostinfo: string, m: string, p: string)
    requires '@' in netloc && RSplitOnce(netloc, '@') == Some((user, hostinfo)) && ':' !in user
    requires B64Decode(user) == Some(m + ":" + p) && SplitOnce(m + ":" + p, ':') == Some((m, p))
    ensures ParseUserinfo(netloc) == match PortOf(netloc)
              case None => None
              case Some(n) => Checked(m, p, Hostname(netloc), n)
  {
  }

  lemma HostAndPort(user: string, h: Host, port: nat)
    requires Writable(h)
    ensures var netloc := user + "@" + (HostText(h) + ":" + Decimal(port));
      Hostname(netloc) == Lowered(h) && PortOf(netloc) == if port <= 65535 then Some(port) else None
  {
    DecimalChars(port);
    HostInfoOf(user, h, Decimal(port));
  }

  /** ss://method:password@host:port */
  function PlainLink(m: string, p: string, h: Host, port: nat, suffix: string): string {
    "ss://" + (m + ":" + p + "@" + (HostText(h) + ":" + Decimal(port))) + suffix
  }

  /** A userinfo in plain text is read in the same way; the password may hold ':' and '@'. */
  lemma {:induction false} PlainParses(m: string, p: string, h: Host, port: nat, suffix: string)
    requires ':' !in m && InUrl(h) && port > 0 && IsSuffix(suffix)
    requires forall c | c in m + ":" + p :: c !in "/?#\t\r\n[]"
    ensures StartsWith(PlainLink(m, p, h, port, suffix), "ss://")
    ensures ParseSs(PlainLink(m, p, h, port, suffix))
         == if port <= 65535 && UrlHost(h) then Some(Creds(m, p, Lowered(h), port)) else None
  {
    var user := m + ":" + p;
    DecimalChars(port);
    PlainChars(user, h, Decimal(port));
    NetlocOfLink(user + "@" + (HostText(h) + ":" + Decimal(port)), suffix);
    PlainFields(m, p, h, port);
    BracketsOfHost(user, h, Decimal(port));
  }

  lemma {:induction false} PlainChars(user: string, h: Host, d: string)
    requires InUrl(h) && (forall c | c in user :: c !in "/?#\t\r\n[]") && forall c | c in "/?#\t\r\n[]" :: c !in d
    ensures var netloc := user + "@" + (HostText(h) + ":" + d);
      (forall c | c in netloc :: c !in "/?#\t\r\n") && ('[' in netloc) == (']' in netloc) == h.V6?
  {
    var netloc := user + "@" + (HostText(h) + ":" + d);
    if h.V6? {
      assert netloc[|user| + 1] == '[' && netloc[|user| + 2 + |h.text|] == ']';
    }
  }

  lemma {:induction false} PlainFields(m: string, p: string, h: Host, port: nat)
    requires ':' !in m && Writable(h) && port > 0
    ensures var netloc := m + ":" + p + "@" + (HostText(h) + ":" + Decimal(port));
      '@' in netloc
      && ParseUserinfo(netloc) == if port <= 65535 then Some(Creds(m, p, Lowered(h), port)) else None
  {
    var user, hostinfo := m + ":" + p, HostText(h) + ":" + Decimal(port);
    var netloc := user + "@" + hostinfo;
    assert netloc[|user|] == '@' && user[|m|] == ':';
    DecimalChars(port);
    NoAt(h, Decimal(port));
    RSplitOnceAt(user, '@', hostinfo);
    SplitOnceAt(m, ':', p);
    HostAndPort(user, h, port);
    PlainSteps(netloc, user, hostinfo, m, p);
    LoweredLength(h);
  }

  lemma PlainSteps(netloc: string, user: string, hostinfo: string, m: string, p: string)
    requires '@' in netloc && RSplitOnce(netloc, '@') == Some((user, hostinfo)) && ':' in user
    requires SplitOnce(user, ':') == Some((m, p))
    ensures ParseUserinfo(netloc) == match PortOf(netloc)
              case None => None
              case Some(n) => Checked(m, p, Hostname(netloc), n)
  {
  }

  lemma LoweredIff(h: Host)
    ensures Lowered(h) == h.text <==> LowerCase(h)
  {
    var n := Find(h.text, '%');
    var front := h.text[..n];
    assert front + h.text[n..] == h.text;
    if k :| 0 <= k < n && 'A' <= front[k] <= 'Z' {
      assert Lowered(h)[k] != h.text[k] && front[k] in front;
    } else {
      assert forall k | 0 <= k < n :: Lowered(h)[k] == h.text[k];
      assert Lowered(h) == h.text;
    }
  }

  /** The userinfo form parses back to the fields it was written from. */
  lemma {:induction false} UserinfoRoundTrip(m: string, p: string, h: Host, port: nat, form: Form, suffix: string)
    requires ':' !in m && InUrl(h) && UrlHost(h) && LowerCase(h) && 0 < port <= 65535
    requires form.urlSafe && IsSuffix(suffix)
    ensures StartsWith(UserinfoLink(m, p, h, port, form, suffix), "ss://")
    ensures ParseSs(UserinfoLink(m, p, h, port, form, suffix)) == Some(Creds(m, p, h.text, port))
  {
    UserinfoParses(m, p, h, port, form, suffix);
    LoweredIff(h);
  }

  /** The two forms are interchangeable exactly for lower-case hosts, 16-bit ports and, between brackets, addresses:
      the whole-authority branch neither lower-cases the host nor bounds the port nor looks at the brackets' content. */
  lemma FormsAgreeIff(m: string, p: string, h: Host, port: nat, f1: Form, f2: Form, suffix: string)
    requires ':' !in m && InUrl(h) && port > 0 && f1.urlSafe && f2.urlSafe && IsSuffix(suffix)
    ensures StartsWith(AuthorityLink(m, p, h, port, f1, suffix), "ss://")
    ensures StartsWith(UserinfoLink(m, p, h, port, f2, suffix), "ss://")
    ensures ParseSs(AuthorityLink(m, p, h, port, f1, suffix)) == ParseSs(UserinfoLink(m, p, h, port, f2, suffix))
       <==> LowerCase(h) && port <= 65535 && UrlHost(h)
  {
    AuthorityRoundTrip(m, p, h, port, f1, suffix);
    UserinfoParses(m, p, h, port, f2, suffix);
    LoweredIff(h);
  }

  predicate Disagree(h: Host, port: nat, form: Form) {
    var a, u := AuthorityLink("aes", "x", h, port, form, ""), UserinfoLink("aes", "x", h, port, form, "");
    StartsWith(a, "ss://") && StartsWith(u, "ss://") && ParseSs(a) != ParseSs(u)
  }

  lemma DisagreeIf(h: Host, port: nat, form: Form)
    requires InUrl(h) && port > 0 && form.urlSafe
    requires !(LowerCase(h) && port <= 65535 && UrlHost(h))
    ensures Disagree(h, port, form)
  {
    FormsAgreeIff("aes", "x", h, port, form, form, "");
  }

  lemma UpperCaseDisagrees(form: Form)
    requires form.urlSafe
    ensures Disagree(Name("H"), 443, form)
  {
    FindAbsent("H", '%');
    assert "H"[..1] == "H" && 'H' in "H";
    DisagreeIf(Name("H"), 443, form);
  }

  lemma WidePortDisagrees(form: Form)
    requires form.urlSafe
    ensures Disagree(Name("host"), 70000, form)
  {
    DisagreeIf(Name("host"), 70000, form);
  }

  lemma {:induction false} BracketedNameDisagrees(form: Form)
    requires form.urlSafe
    ensures Disagree(V6("host"), 443, form)
  {
    NotBracketable("host");
    DisagreeIf(V6("host"), 443, form);
  }
}
