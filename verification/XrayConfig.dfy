/** The outbound graph that XrayStrategy.prepare builds for vless, trojan, vmess, ss and shadowtls credentials. */
module XrayConfig {
  import opened Text

  /** The fields of parsed credentials that decide the shape of an outbound. */
  datatype Link = Link(protocol: string, security: string, transport: string)

  datatype Sockopt = Sockopt(dialerProxy: Option<string>, tcpNoDelay: bool)

  /** An outbound: its tag, protocol and the socket options of its stream settings, when there are any. */
  datatype Outbound = Outbound(tag: string, protocol: string, sockopt: Option<Sockopt>)

  datatype Target = ToOutbound(tag: string) | ToBalancer(tag: string)

  /** What a routing rule matches on; the concrete domain and address lists are constants of the template. */
  datatype Match = LocalPorts | LocalAddresses | DnsPort | DomesticDomains | DomesticAddresses | AllTraffic

  datatype Rule = Rule(matcher: Match, target: Target)

  datatype Balancer = Balancer(tag: string, selector: seq<string>, fallbackTag: string)

  const FRAGMENT := "fragment-out"
  const OUTER_SHADOWTLS := "outer_shadowtls_layer"
  const OUTER_REALITY := "outer_reality_layer"

  const TEMPLATE_RULES: seq<Rule> := [
    Rule(LocalPorts, ToOutbound("block")), Rule(LocalAddresses, ToOutbound("block")),
    Rule(DnsPort, ToOutbound("dns-out")), Rule(DomesticDomains, ToOutbound("direct")),
    Rule(DomesticAddresses, ToOutbound("direct"))]

  const FRAGMENT_OUTBOUND := Outbound(FRAGMENT, "freedom", Some(Sockopt(None, true)))
  const SERVICE_OUTBOUNDS: seq<Outbound> := [
    Outbound("dns-out", "dns", None), Outbound("direct", "freedom", None), Outbound("block", "blackhole", None)]

  function SockoptOf(ob: Outbound): Sockopt {
    match ob.sockopt case None => Sockopt(None, false) case Some(s) => s
  }

  function WithDialer(ob: Outbound, dialer: string): Outbound {
    ob.(sockopt := Some(SockoptOf(ob).(dialerProxy := Some(dialer))))
  }

  function ApplyTcpNoDelay(ob: Outbound): Outbound {
    ob.(sockopt := Some(SockoptOf(ob).(tcpNoDelay := true)))
  }

  function ApplyFragmentation(ob: Outbound): Outbound {
    ApplyTcpNoDelay(WithDialer(ob, FRAGMENT))
  }

  predicate IsShadowtls(c: Link) { c.protocol == "shadowtls" }

  predicate IsReality(c: Link) { c.protocol == "vless" && c.security == "reality" }

  /** make_outbound_for: None for a protocol or transport it has no builder for. For vmess, `security` is the
      tls field. */
  function MakeOutbound(c: Link, tag: string): (r: Option<Outbound>)
    ensures r.Some? ==> r.value.tag == tag && SockoptOf(r.value).dialerProxy in {None, Some(FRAGMENT)}
  {
    if c.protocol == "vless" then
      var plain := Outbound(tag, "vless", None);
      if c.security == "reality" then Some(ApplyFragmentation(plain))
      else if c.transport in ["ws", "grpc", "tcp"] then
        Some(if c.security == "tls" then ApplyFragmentation(plain) else ApplyTcpNoDelay(plain))
      else None
    else if c.protocol == "trojan" then Some(ApplyFragmentation(Outbound(tag, "trojan", None)))
    else if c.protocol == "shadowtls" then Some(ApplyFragmentation(Outbound(tag, "shadowtls", None)))
    else if c.protocol == "vmess" then
      var plain := Outbound(tag, "vmess", None);
      Some(if c.security == "tls" then ApplyFragmentation(plain) else ApplyTcpNoDelay(plain))
    else if c.protocol == "ss" then Some(ApplyTcpNoDelay(Outbound(tag, "shadowsocks", None)))
    else None
  }

  /** The generated document. */
  datatype Document = Document(outbounds: seq<Outbound>, rules: seq<Rule>, balancers: seq<Balancer>,
                               observed: Option<seq<string>>)

  predicate HasTag(outs: seq<Outbound>, tag: string) {
    exists o | o in outs :: o.tag == tag
  }

  ghost predicate UniqueTags(outs: seq<Outbound>) {
    forall i, j | 0 <= i < j < |outs| :: outs[i].tag != outs[j].tag
  }

  ghost predicate DialersResolve(outs: seq<Outbound>) {
    forall o | o in outs && SockoptOf(o).dialerProxy.Some? :: HasTag(outs, SockoptOf(o).dialerProxy.value)
  }

  ghost predicate TargetsResolve(d: Document) {
    && (forall r | r in d.rules ::
          match r.target
          case ToOutbound(tag) => HasTag(d.outbounds, tag)
          case ToBalancer(tag) => exists b | b in d.balancers :: b.tag == tag)
    && (forall b | b in d.balancers ::
          b.fallbackTag in b.selector && forall t | t in b.selector :: HasTag(d.outbounds, t))
    && (forall tags | d.observed == Some(tags) :: forall t | t in tags :: HasTag(d.outbounds, t))
  }

  /** `path` follows dialerProxy references: each outbound dials through the next. */
  ghost predicate IsDialPath(outs: seq<Outbound>, path: seq<Outbound>) {
    && (forall o | o in path :: o in outs)
    && (forall i | 0 <= i < |path| - 1 :: SockoptOf(path[i]).dialerProxy == Some(path[i + 1].tag))
  }

  /** No chain of dialers is longer than two hops; in particular there is no cycle. */
  ghost predicate TwoHops(outs: seq<Outbound>) {
    forall path | IsDialPath(outs, path) :: |path| <= 3
  }

  ghost predicate WellFormed(d: Document) {
    UniqueTags(d.outbounds) && DialersResolve(d.outbounds) && TargetsResolve(d) && TwoHops(d.outbounds)
  }

  class Config {
    var outbounds: seq<Outbound>
    var rules: seq<Rule>
    var balancers: seq<Balancer>
    var observed: Option<seq<string>>

    constructor ()
      ensures Doc() == Document([], TEMPLATE_RULES, [], None)
    {
      outbounds, rules, balancers, observed := [], TEMPLATE_RULES, [], None;
    }

    function Doc(): Document
      reads this
    {
      Document(outbounds, rules, balancers, observed)
    }
  }

  function ProxyTag(i: nat): string { "proxy_" + Decimal(i) }

  /** The outbounds the balancer branch appends: the buildable configurations, tagged by position, all fragmented. */
  function BalancerOutbounds(links: seq<Link>): (r: seq<Outbound>)
    ensures |r| <= |links|
  {
    if links == [] then []
    else
      var n := |links| - 1;
      var ob := MakeOutbound(links[n], ProxyTag(n));
      BalancerOutbounds(links[..n]) + if ob.Some? then [ApplyFragmentation(ob.value)] else []
  }

  function Tags(outs: seq<Outbound>): (r: seq<string>)
    ensures |r| == |outs| && forall i | 0 <= i < |r| :: r[i] == outs[i].tag
  {
    seq(|outs|, i requires 0 <= i < |outs| => outs[i].tag)
  }

  function First(links: seq<Link>, p: Link -> bool): (r: Option<Link>)
    ensures r.Some? ==> r.value in links && p(r.value)
    ensures r.None? ==> forall l | l in links :: !p(l)
  {
    if links == [] then None else if p(links[0]) then Some(links[0]) else First(links[1..], p)
  }

  predicate Aggressive(dpi: string) { dpi in ["dpi_aggressive", "dpi_rst", "drop"] }

  /** The outer layer a chaining block puts in front of `creds`, tag included. */
  function ShadowtlsLayer(creds: Link, dpi: string, all: seq<Link>): Option<Outbound> {
    if Aggressive(dpi) && creds.protocol != "shadowtls" then
      match First(all, IsShadowtls)
      case None => None
      case Some(c) => MakeOutbound(c, OUTER_SHADOWTLS)
    else None
  }

  function RealityLayer(creds: Link, dpi: string, all: seq<Link>): Option<Outbound> {
    if Aggressive(dpi) && creds.protocol !in ["vless", "reality"] then
      match First(all, IsReality)
      case None => None
      case Some(c) => MakeOutbound(c, OUTER_REALITY)
    else None
  }

  function Listed(layer: Option<Outbound>): seq<Outbound> {
    match layer case None => [] case Some(o) => [o]
  }

  const SERVICE: seq<Outbound> := [FRAGMENT_OUTBOUND] + SERVICE_OUTBOUNDS

  /** The exit of a chaining block that succeeds. */
  function Chained(outer: Outbound, inner: Outbound): Document {
    Document([outer, WithDialer(inner, outer.tag)] + SERVICE, TEMPLATE_RULES, [], None)
  }

  /** The exit of the balancer branch. */
  function Balanced(layers: seq<Outbound>, proxies: seq<Outbound>): Document
    requires proxies != []
  {
    Document(layers + proxies + SERVICE, [Rule(AllTraffic, ToBalancer("balancer"))] + TEMPLATE_RULES,
             [Balancer("balancer", Tags(proxies), proxies[0].tag)], Some(Tags(proxies)))
  }

  /** The balancer and single exits; `layers` are outer layers a chaining block appended before giving up. */
  function Unchained(layers: seq<Outbound>, inner: Option<Outbound>, proxies: seq<Outbound>,
                     many: bool): Option<Document> {
    if many && proxies != [] then Some(Balanced(layers, proxies))
    else if !many && inner.None? then None
    else Some(Document(layers + Listed(inner) + SERVICE, TEMPLATE_RULES, [], None))
  }

  /** The document of each exit; None is the (None, None) return. */
  function Compile(creds: Link, dpi: string, all: seq<Link>): Option<Document> {
    var inner := MakeOutbound(creds, "proxy");
    var outer1, outer2 := ShadowtlsLayer(creds, dpi, all), RealityLayer(creds, dpi, all);
    if outer1.Some? && inner.Some? then Some(Chained(outer1.value, inner.value))
    else if outer2.Some? && inner.Some? then Some(Chained(outer2.value, inner.value))
    else Unchained(Listed(outer1) + Listed(outer2), inner, BalancerOutbounds(all), |all| > 1)
  }

  method AppendService(config: Config)
    modifies config
    ensures config.Doc() == old(config.Doc()).(outbounds := old(config.outbounds) + SERVICE)
  {
    config.outbounds := config.outbounds + [FRAGMENT_OUTBOUND];
    config.outbounds := config.outbounds + SERVICE_OUTBOUNDS;
    assert config.outbounds == old(config.outbounds) + SERVICE;
  }

  /** One chaining block: appends the outer layer and, when the inner outbound can be built, the inner one dialing
      through it and the service outbounds. */
  method Chain(config: Config, outer: Outbound, creds: Link) returns (done: bool)
    modifies config
    ensures done == MakeOutbound(creds, "proxy").Some?
    ensures done ==> config.Doc() == old(config.Doc()).(outbounds := old(config.outbounds)
              + [outer, WithDialer(MakeOutbound(creds, "proxy").value, outer.tag)]
              + SERVICE)
    ensures !done ==> config.Doc() == old(config.Doc()).(outbounds := old(config.outbounds) + [outer])
  {
    config.outbounds := config.outbounds + [outer];
    var inner := MakeOutbound(creds, "proxy");
    if inner.Some? {
      config.outbounds := config.outbounds + [WithDialer(inner.value, outer.tag)];
      assert config.outbounds == old(config.outbounds) + [outer, WithDialer(inner.value, outer.tag)];
      AppendService(config);
      return true;
    }
    return false;
  }

  method AppendBalanced(config: Config, all: seq<Link>) returns (tags: seq<string>)
    modifies config
    ensures config.Doc() == old(config.Doc()).(outbounds := old(config.outbounds) + BalancerOutbounds(all))
    ensures tags == Tags(BalancerOutbounds(all))
  {
    tags := [];
    for idx := 0 to |all|
      invariant config.Doc() == old(config.Doc()).(outbounds := old(config.outbounds) + BalancerOutbounds(all[..idx]))
      invariant tags == Tags(BalancerOutbounds(all[..idx]))
    {
      assert all[..idx + 1][..idx] == all[..idx];
      var tag := ProxyTag(idx);
      var ob := MakeOutbound(all[idx], tag);
      if ob.Some? {
        config.outbounds := config.outbounds + [ApplyFragmentation(ob.value)];
        tags := tags + [tag];
      }
    }
    assert all[..|all|] == all;
  }

  function Finished(front: seq<Outbound>, creds: Link, all: seq<Link>): Option<Document> {
    Unchained(front, MakeOutbound(creds, "proxy"), BalancerOutbounds(all), |all| > 1)
  }

  /** The statements after the chaining blocks. */
  method Finish(config: Config, creds: Link, all: seq<Link>) returns (ok: bool)
    requires config.Doc() == Document(config.outbounds, TEMPLATE_RULES, [], None)
    modifies config
    ensures ok == Finished(old(config.outbounds), creds, all).Some?
    ensures ok ==> config.Doc() == Finished(old(config.outbounds), creds, all).value
  {
    var ob := MakeOutbound(creds, "proxy");
    if |all| > 1 {
      var tags := AppendBalanced(config, all);
      if tags != [] {
        config.balancers := [Balancer("balancer", tags, tags[0])];
        config.rules := [Rule(AllTraffic, ToBalancer("balancer"))] + config.rules;
        config.observed := Some(tags);
      } else if ob.Some? {
        config.outbounds := config.outbounds + [ob.value];
      }
    } else {
      if ob.None? { return false; }
      config.outbounds := config.outbounds + [ob.value];
    }
    AppendService(config);
    ok := true;
  }

  /** XrayStrategy.prepare on its main path; `all` is all_configs, empty when there are none. */
  method Prepare(creds: Link, dpi: string, all: seq<Link>) returns (config: Config, ok: bool)
    ensures fresh(config)
    ensures ok == Compile(creds, dpi, all).Some?
    ensures ok ==> config.Doc() == Compile(creds, dpi, all).value
  {
    config := new Config();
    var shadowtls := ShadowtlsLayer(creds, dpi, all);
    if shadowtls.Some? {
      ok := Chain(config, shadowtls.value, creds);
      if ok { return; }
    }
    var reality := RealityLayer(creds, dpi, all);
    if reality.Some? {
      ok := Chain(config, reality.value, creds);
      if ok { return; }
    }
    assert config.outbounds == Listed(shadowtls) + Listed(reality);
    ok := Finish(config, creds, all);
  }

  /** Position tags differ from each other and from every fixed tag. */
  lemma ProxyTagsDistinct(i: nat, j: nat)
    ensures ProxyTag(i) == ProxyTag(j) ==> i == j
    ensures ProxyTag(i) !in {"proxy", FRAGMENT, OUTER_SHADOWTLS, OUTER_REALITY, "dns-out", "direct", "block"}
  {
    assert ProxyTag(i)[6..] == Decimal(i) && ProxyTag(j)[6..] == Decimal(j);
    if ProxyTag(i) == ProxyTag(j) {
      DecimalInjective(i, j);
    }
    assert |ProxyTag(i)| > 6 && ProxyTag(i)[0] == 'p';
  }

  lemma {:induction false} BalancerShape(links: seq<Link>)
    ensures UniqueTags(BalancerOutbounds(links))
    ensures forall o | o in BalancerOutbounds(links) ::
              SockoptOf(o).dialerProxy == Some(FRAGMENT) && exists i :: 0 <= i < |links| && o.tag == ProxyTag(i)
  {
    if links != [] {
      var n := |links| - 1;
      BalancerShape(links[..n]);
      var r := BalancerOutbounds(links[..n]);
      forall i | 0 <= i < |r| ensures r[i].tag != ProxyTag(n) {
        assert r[i] in r;
        var j :| 0 <= j < n && r[i].tag == ProxyTag(j);
        ProxyTagsDistinct(j, n);
      }
    }
  }

  lemma UniqueConcat(a: seq<Outbound>, b: seq<Outbound>)
    requires UniqueTags(a) && UniqueTags(b) && forall x, y | x in a && y in b :: x.tag != y.tag
    ensures UniqueTags(a + b)
  {
    assert forall i | 0 <= i < |a| :: a[i] in a;
    assert forall i | 0 <= i < |b| :: b[i] in b;
  }

  predicate IsOuter(tag: string) { tag in {OUTER_SHADOWTLS, OUTER_REALITY} }

  /** The dialing discipline all exits keep: only an inner outbound dials a layer, and a layer dials at most the
      fragmenting outbound. */
  ghost predicate Layered(outs: seq<Outbound>) {
    forall o | o in outs ::
      match SockoptOf(o).dialerProxy
      case None => true
      case Some(d) => o.tag != FRAGMENT && (d == FRAGMENT || (IsOuter(d) && !IsOuter(o.tag)))
  }

  lemma LayeredTwoHops(outs: seq<Outbound>)
    requires Layered(outs)
    ensures TwoHops(outs)
  {
    forall path: seq<Outbound> | IsDialPath(outs, path) ensures |path| <= 3 {
      if |path| > 3 {
        NoThirdHop(outs, path[0], path[1], path[2], path[3]);
      }
    }
  }

  lemma NoThirdHop(outs: seq<Outbound>, a: Outbound, b: Outbound, c: Outbound, d: Outbound)
    requires Layered(outs) && a in outs && b in outs && c in outs
    ensures !(SockoptOf(a).dialerProxy == Some(b.tag) && SockoptOf(b).dialerProxy == Some(c.tag)
              && SockoptOf(c).dialerProxy == Some(d.tag))
  {
  }

  /** Outbounds that may precede the service outbounds. */
  ghost predicate GoodFront(front: seq<Outbound>) {
    && UniqueTags(front)
    && Layered(front)
    && (forall o | o in front :: o.tag !in {FRAGMENT, "dns-out", "direct", "block"})
    && (forall o | o in front && SockoptOf(o).dialerProxy.Some? ::
          SockoptOf(o).dialerProxy == Some(FRAGMENT) || HasTag(front, SockoptOf(o).dialerProxy.value))
  }

  lemma ServiceTags(front: seq<Outbound>)
    ensures var outs := front + SERVICE;
      HasTag(outs, FRAGMENT) && HasTag(outs, "dns-out") && HasTag(outs, "direct") && HasTag(outs, "block")
  {
    var outs, n := front + SERVICE, |front|;
    assert outs[n] == FRAGMENT_OUTBOUND && outs[n + 1] == SERVICE_OUTBOUNDS[0];
    assert outs[n + 2] == SERVICE_OUTBOUNDS[1] && outs[n + 3] == SERVICE_OUTBOUNDS[2];
  }

  lemma ServiceMembers(o: Outbound)
    requires o in SERVICE
    ensures SockoptOf(o).dialerProxy == None && o.tag in {FRAGMENT, "dns-out", "direct", "block"} && !IsOuter(o.tag)
  {
  }

  lemma FrontDialersResolve(front: seq<Outbound>)
    requires GoodFront(front)
    ensures DialersResolve(front + SERVICE) && Layered(front + SERVICE)
  {
    var outs := front + SERVICE;
    ServiceTags(front);
    forall o | o in SERVICE ensures SockoptOf(o).dialerProxy == None {
      ServiceMembers(o);
    }
    forall o | o in outs && SockoptOf(o).dialerProxy.Some? ensures HasTag(outs, SockoptOf(o).dialerProxy.value) {
      if SockoptOf(o).dialerProxy != Some(FRAGMENT) {
        var x :| x in front && x.tag == SockoptOf(o).dialerProxy.value;
        assert x in outs;
      }
    }
  }

  lemma FrontUnique(front: seq<Outbound>)
    requires GoodFront(front)
    ensures UniqueTags(front + SERVICE)
  {
    forall o | o in SERVICE ensures o.tag in {FRAGMENT, "dns-out", "direct", "block"} {
      ServiceMembers(o);
    }
    assert UniqueTags(SERVICE);
    UniqueConcat(front, SERVICE);
  }

  lemma TemplateTargets(r: Rule)
    requires r in TEMPLATE_RULES
    ensures r.target.ToOutbound? && r.target.tag in {"dns-out", "direct", "block"}
  {
  }

  ghost predicate TemplateResolves(outs: seq<Outbound>) {
    forall r | r in TEMPLATE_RULES :: r.target.ToOutbound? && HasTag(outs, r.target.tag)
  }

  lemma FrontWithService(front: seq<Outbound>)
    requires GoodFront(front)
    ensures var outs := front + SERVICE;
      UniqueTags(outs) && DialersResolve(outs) && TwoHops(outs) && TemplateResolves(outs)
  {
    FrontUnique(front);
    FrontDialersResolve(front);
    LayeredTwoHops(front + SERVICE);
    ServiceTags(front);
    forall r | r in TEMPLATE_RULES ensures r.target.ToOutbound? && HasTag(front + SERVICE, r.target.tag) {
      TemplateTargets(r);
    }
  }

  lemma ChainedWellFormed(outer: Outbound, inner: Outbound)
    requires IsOuter(outer.tag) && inner.tag == "proxy"
    requires SockoptOf(outer).dialerProxy in {None, Some(FRAGMENT)}
    ensures WellFormed(Chained(outer, inner))
  {
    var front := [outer, WithDialer(inner, outer.tag)];
    assert HasTag(front, outer.tag) by { assert front[0] in front; }
    FrontWithService(front);
  }

  /** An outbound that dials nothing or the fragmenting outbound, under a tag of its own. */
  predicate Simple(o: Outbound) {
    SockoptOf(o).dialerProxy in {None, Some(FRAGMENT)} && o.tag !in {FRAGMENT, "dns-out", "direct", "block"}
  }

  lemma LayersThenTail(layers: seq<Outbound>, tail: seq<Outbound>)
    requires UniqueTags(layers) && forall o | o in layers :: Simple(o) && IsOuter(o.tag)
    requires UniqueTags(tail) && forall o | o in tail :: Simple(o) && !IsOuter(o.tag)
    ensures GoodFront(layers + tail)
  {
    UniqueConcat(layers, tail);
  }

  lemma UnchainedWellFormed(layers: seq<Outbound>, inner: Option<Outbound>, proxies: seq<Outbound>, many: bool)
    requires UniqueTags(layers) && forall o | o in layers :: Simple(o) && IsOuter(o.tag)
    requires UniqueTags(proxies) && forall o | o in proxies :: Simple(o) && !IsOuter(o.tag)
    requires inner.Some? ==> Simple(inner.value) && !IsOuter(inner.value.tag)
    requires Unchained(layers, inner, proxies, many).Some?
    ensures WellFormed(Unchained(layers, inner, proxies, many).value)
  {
    if many && proxies != [] {
      BalancedWellFormed(layers, proxies);
    } else {
      PlainWellFormed(layers, Listed(inner));
    }
  }

  lemma BalancedWellFormed(layers: seq<Outbound>, proxies: seq<Outbound>)
    requires UniqueTags(layers) && forall o | o in layers :: Simple(o) && IsOuter(o.tag)
    requires UniqueTags(proxies) && proxies != [] && forall o | o in proxies :: Simple(o) && !IsOuter(o.tag)
    ensures WellFormed(Balanced(layers, proxies))
  {
    LayersThenTail(layers, proxies);
    FrontWithService(layers + proxies);
    BalancerResolves(layers, proxies);
  }

  /** The exits without a balancer. */
  lemma PlainWellFormed(layers: seq<Outbound>, tail: seq<Outbound>)
    requires UniqueTags(layers) && forall o | o in layers :: Simple(o) && IsOuter(o.tag)
    requires UniqueTags(tail) && forall o | o in tail :: Simple(o) && !IsOuter(o.tag)
    ensures WellFormed(Document(layers + tail + SERVICE, TEMPLATE_RULES, [], None))
  {
    LayersThenTail(layers, tail);
    FrontWithService(layers + tail);
  }

  lemma BalancerTagsFree(links: seq<Link>)
    ensures UniqueTags(BalancerOutbounds(links))
    ensures forall o | o in BalancerOutbounds(links) :: Simple(o) && !IsOuter(o.tag)
  {
    BalancerShape(links);
    forall o | o in BalancerOutbounds(links) ensures Simple(o) && !IsOuter(o.tag) {
      var i :| 0 <= i < |links| && o.tag == ProxyTag(i);
      ProxyTagsDistinct(i, i);
    }
  }

  lemma BalancerResolves(layers: seq<Outbound>, proxies: seq<Outbound>)
    requires proxies != [] && TemplateResolves(layers + proxies + SERVICE)
    ensures TargetsResolve(Balanced(layers, proxies))
  {
    var d := Balanced(layers, proxies);
    forall t | t in Tags(proxies) ensures HasTag(d.outbounds, t) {
      var i :| 0 <= i < |proxies| && Tags(proxies)[i] == t;
      assert d.outbounds[|layers| + i] == proxies[i];
    }
    assert Tags(proxies)[0] == proxies[0].tag;
    assert d.balancers[0].tag == "balancer";
  }

  lemma LayersSimple(creds: Link, dpi: string, all: seq<Link>)
    ensures var layers := Listed(ShadowtlsLayer(creds, dpi, all)) + Listed(RealityLayer(creds, dpi, all));
      UniqueTags(layers) && forall o | o in layers :: Simple(o) && IsOuter(o.tag)
  {
  }

  /** Every document prepare writes has distinct outbound tags, no dangling reference, and dialer chains of at most
      two hops. */
  lemma CompileWellFormed(creds: Link, dpi: string, all: seq<Link>)
    requires Compile(creds, dpi, all).Some?
    ensures WellFormed(Compile(creds, dpi, all).value)
  {
    var inner := MakeOutbound(creds, "proxy");
    var outer1, outer2 := ShadowtlsLayer(creds, dpi, all), RealityLayer(creds, dpi, all);
    if outer1.Some? && inner.Some? {
      ChainedWellFormed(outer1.value, inner.value);
    } else if outer2.Some? && inner.Some? {
      ChainedWellFormed(outer2.value, inner.value);
    } else {
      BalancerTagsFree(all);
      LayersSimple(creds, dpi, all);
      UnchainedWellFormed(Listed(outer1) + Listed(outer2), inner, BalancerOutbounds(all), |all| > 1);
    }
  }

  /** A tag names exactly one outbound, and that one dials through the fragmenting outbound. */
  ghost predicate NamesFragmented(outs: seq<Outbound>, tag: string) {
    exists o | o in outs && o.tag == tag ::
      SockoptOf(o).dialerProxy == Some(FRAGMENT) && forall x | x in outs && x.tag == tag :: x == o
  }

  /** Selector, observed subjects and the tags of the built outbounds are one sequence; each of its tags names exactly
      one outbound, which dials through the fragmenting outbound. */
  lemma {:induction false} BalancerCoherent(creds: Link, dpi: string, all: seq<Link>, b: Balancer)
    requires Compile(creds, dpi, all).Some? && b in Compile(creds, dpi, all).value.balancers
    ensures var d := Compile(creds, dpi, all).value;
      && d.balancers == [b] && d.observed == Some(b.selector) && b.fallbackTag in b.selector
      && b.selector == Tags(BalancerOutbounds(all))
      && (forall t | t in b.selector :: NamesFragmented(d.outbounds, t))
  {
    var layers := Listed(ShadowtlsLayer(creds, dpi, all)) + Listed(RealityLayer(creds, dpi, all));
    var proxies := BalancerOutbounds(all);
    CompileWellFormed(creds, dpi, all);
    BalancerExit(creds, dpi, all);
    assert Tags(proxies)[0] == proxies[0].tag;
    BalancerShape(all);
    forall t | t in Tags(proxies) ensures NamesFragmented(layers + proxies + SERVICE, t) {
      var i :| 0 <= i < |proxies| && Tags(proxies)[i] == t;
      assert proxies[i] in proxies && proxies[i] in layers + proxies + SERVICE;
      OneOutbound(layers + proxies + SERVICE, proxies[i]);
    }
  }

  lemma BalancerExit(creds: Link, dpi: string, all: seq<Link>)
    requires Compile(creds, dpi, all).Some? && Compile(creds, dpi, all).value.balancers != []
    ensures BalancerOutbounds(all) != []
    ensures Compile(creds, dpi, all).value
         == Balanced(Listed(ShadowtlsLayer(creds, dpi, all)) + Listed(RealityLayer(creds, dpi, all)),
                     BalancerOutbounds(all))
  {
  }

  lemma OneOutbound(outs: seq<Outbound>, o: Outbound)
    requires UniqueTags(outs) && o in outs
    ensures forall x | x in outs && x.tag == o.tag :: x == o
  {
  }

  /** Where the first rule that matches sends a connection. */
  function FirstMatch(rules: seq<Rule>, matches: Match -> bool): Option<Target> {
    if rules == [] then None
    else if matches(rules[0].matcher) then Some(rules[0].target) else FirstMatch(rules[1..], matches)
  }

  /** A chaining block succeeds. */
  predicate Chains(creds: Link, dpi: string, all: seq<Link>) {
    MakeOutbound(creds, "proxy").Some? && (ShadowtlsLayer(creds, dpi, all).Some? || RealityLayer(creds, dpi, all).Some?)
  }

  /** The configurations give a balancer something to select from. */
  predicate Balances(all: seq<Link>) {
    |all| > 1 && exists c | c in all :: MakeOutbound(c, "").Some?
  }

  lemma BuildableUnderAnyTag(c: Link, s: string, t: string)
    ensures MakeOutbound(c, s).Some? == MakeOutbound(c, t).Some?
  {
  }

  lemma {:induction false} BalancerEmptyIff(links: seq<Link>)
    ensures BalancerOutbounds(links) == [] <==> forall c | c in links :: MakeOutbound(c, "").None?
  {
    if links != [] {
      var n := |links| - 1;
      BalancerEmptyIff(links[..n]);
      BuildableUnderAnyTag(links[n], "", ProxyTag(n));
      assert links == links[..n] + [links[n]];
    }
  }

  /** Which exit an input takes, as far as its rules and the head of its outbounds go. */
  lemma ExitOf(creds: Link, dpi: string, all: seq<Link>)
    requires Compile(creds, dpi, all).Some?
    ensures var d := Compile(creds, dpi, all).value;
      && (d.balancers != [] <==> !Chains(creds, dpi, all) && Balances(all))
      && d.rules == (if d.balancers == [] then [] else [Rule(AllTraffic, ToBalancer("balancer"))]) + TEMPLATE_RULES
  {
    BalancerEmptyIff(all);
    assert [] + TEMPLATE_RULES == TEMPLATE_RULES;
  }

  /** A connection to a domestic domain reaches the direct outbound exactly when no balancer is written: a chaining
      block succeeds, there is at most one configuration, or none of them can be built. The balancer's rule is inserted
      first and matches every connection. */
  lemma SplitTunnel(creds: Link, dpi: string, all: seq<Link>, matches: Match -> bool)
    requires Compile(creds, dpi, all).Some?
    requires matches(AllTraffic) && matches(DomesticDomains)
    requires !matches(LocalPorts) && !matches(LocalAddresses) && !matches(DnsPort)
    ensures var d := Compile(creds, dpi, all).value;
      && FirstMatch(d.rules, matches)
         == Some(if d.balancers == [] then ToOutbound("direct") else ToBalancer("balancer"))
      && (FirstMatch(d.rules, matches) == Some(ToOutbound("direct")) <==> Chains(creds, dpi, all) || !Balances(all))
  {
    ExitOf(creds, dpi, all);
    TemplateDirect(matches);
    assert ([Rule(AllTraffic, ToBalancer("balancer"))] + TEMPLATE_RULES)[0].matcher == AllTraffic;
    assert [] + TEMPLATE_RULES == TEMPLATE_RULES;
  }

  lemma TemplateDirect(matches: Match -> bool)
    requires matches(DomesticDomains) && !matches(LocalPorts) && !matches(LocalAddresses) && !matches(DnsPort)
    ensures FirstMatch(TEMPLATE_RULES, matches) == Some(ToOutbound("direct"))
  {
    var t := TEMPLATE_RULES;
    assert t[1..][1..] == t[2..] && t[2..][1..] == t[3..];
    assert t[3..][0] == Rule(DomesticDomains, ToOutbound("direct"));
    assert FirstMatch(t[3..], matches) == Some(ToOutbound("direct"));
    assert FirstMatch(t[2..], matches) == FirstMatch(t[3..], matches);
    assert FirstMatch(t[1..], matches) == FirstMatch(t[2..], matches);
  }

  lemma {:induction false} TemplateRoutes(matches: Match -> bool)
    ensures FirstMatch(TEMPLATE_RULES, matches)
         == if matches(LocalPorts) || matches(LocalAddresses) then Some(ToOutbound("block"))
            else if matches(DnsPort) then Some(ToOutbound("dns-out"))
            else if matches(DomesticDomains) || matches(DomesticAddresses) then Some(ToOutbound("direct"))
            else None
  {
    var t := TEMPLATE_RULES;
    assert t[0..] == t;
    RuleAt(t, 0, matches);
    RuleAt(t, 1, matches);
    RuleAt(t, 2, matches);
    RuleAt(t, 3, matches);
    RuleAt(t, 4, matches);
  }

  lemma {:induction false} RuleAt(rules: seq<Rule>, i: nat, matches: Match -> bool)
    requires i < |rules|
    ensures FirstMatch(rules[i..], matches)
         == if matches(rules[i].matcher) then Some(rules[i].target) else FirstMatch(rules[i + 1..], matches)
  {
    assert rules[i..][1..] == rules[i + 1..];
  }

  /** Where every connection goes: with a balancer all of them go to it; without one, local targets are blocked, DNS is
      answered inside, domestic targets go out directly, and the rest takes the outbound at the head. */
  lemma RoutingIs(creds: Link, dpi: string, all: seq<Link>, matches: Match -> bool)
    requires Compile(creds, dpi, all).Some? && matches(AllTraffic)
    ensures var d := Compile(creds, dpi, all).value;
      FirstMatch(d.rules, matches)
      == if d.balancers != [] then Some(ToBalancer("balancer"))
         else if matches(LocalPorts) || matches(LocalAddresses) then Some(ToOutbound("block"))
         else if matches(DnsPort) then Some(ToOutbound("dns-out"))
         else if matches(DomesticDomains) || matches(DomesticAddresses) then Some(ToOutbound("direct"))
         else None
  {
    ExitOf(creds, dpi, all);
    TemplateRoutes(matches);
    assert ([Rule(AllTraffic, ToBalancer("balancer"))] + TEMPLATE_RULES)[0].matcher == AllTraffic;
    assert [] + TEMPLATE_RULES == TEMPLATE_RULES;
  }

  const SS_LINK := Link("ss", "", "")

  /** With two Shadowsocks configurations domestic domains go to the balancer. */
  lemma BalancerTakesDomestic(matches: Match -> bool)
    requires matches(AllTraffic) && matches(DomesticDomains)
    requires !matches(LocalPorts) && !matches(LocalAddresses) && !matches(DnsPort)
    ensures var d := Compile(SS_LINK, "none", [SS_LINK, SS_LINK]);
      d.Some? && FirstMatch(d.value.rules, matches) == Some(ToBalancer("balancer"))
  {
    var all := [SS_LINK, SS_LINK];
    assert SS_LINK in all && MakeOutbound(SS_LINK, "").Some?;
    SplitTunnel(SS_LINK, "none", all, matches);
  }

  /** Something sends traffic to the outbound `tag`: it heads the list, which makes it the default, or a rule, a
      balancer or a dialer names it. */
  ghost predicate Selected(d: Document, tag: string) {
    || (d.outbounds != [] && d.outbounds[0].tag == tag)
    || (exists r | r in d.rules :: r.target == ToOutbound(tag))
    || (exists b | b in d.balancers :: tag in b.selector)
    || (exists o | o in d.outbounds :: SockoptOf(o).dialerProxy == Some(tag))
  }

  lemma TemplateSelectsNoProxy(d: Document, front: seq<Outbound>)
    requires d.outbounds == front + SERVICE && d.rules == TEMPLATE_RULES && d.balancers == [] && front != []
    requires forall o | o in front :: SockoptOf(o).dialerProxy != Some("proxy")
    ensures Selected(d, "proxy") <==> front[0].tag == "proxy"
  {
    forall r | r in d.rules ensures r.target != ToOutbound("proxy") {
      TemplateTargets(r);
    }
    forall o | o in d.outbounds ensures SockoptOf(o).dialerProxy != Some("proxy") {
      if o in SERVICE {
        ServiceMembers(o);
      }
    }
  }

  /** What an outbound can be built for: vless needs reality or one of three transports. */
  predicate Buildable(c: Link) {
    c.protocol in {"trojan", "shadowtls", "vmess", "ss"}
    || (c.protocol == "vless" && (c.security == "reality" || c.transport in {"ws", "grpc", "tcp"}))
  }

  /** The connection carries TLS or reality, so its handshake is fragmented. */
  predicate Encrypted(c: Link) {
    c.protocol in {"trojan", "shadowtls"} || (c.protocol == "vless" && c.security == "reality")
    || (c.protocol in {"vless", "vmess"} && c.security == "tls")
  }

  function XrayProtocol(c: Link): string {
    if c.protocol == "ss" then "shadowsocks" else c.protocol
  }

  lemma BuildableIff(c: Link, tag: string)
    ensures MakeOutbound(c, tag).Some? <==> Buildable(c)
    ensures Buildable(c) ==>
              var dialer := if Encrypted(c) then Some("fragment-out") else None;
              MakeOutbound(c, tag).value == Outbound(tag, XrayProtocol(c), Some(Sockopt(dialer, true)))
  {
  }

  /** A document is written unless the credentials cannot be built and there is at most one configuration. */
  lemma DocumentIff(creds: Link, dpi: string, all: seq<Link>)
    ensures Compile(creds, dpi, all).Some? <==> Buildable(creds) || |all| > 1
  {
    BuildableIff(creds, "proxy");
  }

  /** Without further configurations the document holds one outbound for the credentials, which dials through the
      fragmenting outbound exactly when its connection carries TLS or reality. */
  lemma SingleDocument(creds: Link, dpi: string)
    ensures Compile(creds, dpi, []).Some? <==> Buildable(creds)
    ensures Buildable(creds) ==>
              var d := Compile(creds, dpi, []).value;
              && Tags(d.outbounds) == ["proxy", "fragment-out", "dns-out", "direct", "block"]
              && d.outbounds[0].protocol == XrayProtocol(creds)
              && SockoptOf(d.outbounds[0])
                 == Sockopt(if Encrypted(creds) then Some("fragment-out") else None, true)
              && d.balancers == [] && d.observed == None
  {
    BuildableIff(creds, "proxy");
    if Buildable(creds) {
      var inner := MakeOutbound(creds, "proxy").value;
      assert [] + [inner] == [inner];
      SingleTags(inner);
    }
  }

  lemma SingleTags(o: Outbound)
    ensures Tags([o] + SERVICE) == [o.tag, "fragment-out", "dns-out", "direct", "block"]
  {
    var outs := [o] + SERVICE;
    assert outs[1] == FRAGMENT_OUTBOUND && outs[2] == SERVICE_OUTBOUNDS[0];
    assert outs[3] == SERVICE_OUTBOUNDS[1] && outs[4] == SERVICE_OUTBOUNDS[2];
  }

  /** A chaining block has a configuration to use as its outer layer. */
  ghost predicate OuterShadowtls(creds: Link, dpi: string, all: seq<Link>) {
    dpi in {"dpi_aggressive", "dpi_rst", "drop"} && creds.protocol != "shadowtls"
    && exists c | c in all :: c.protocol == "shadowtls"
  }

  ghost predicate OuterReality(creds: Link, dpi: string, all: seq<Link>) {
    dpi in {"dpi_aggressive", "dpi_rst", "drop"} && creds.protocol !in {"vless", "reality"}
    && exists c | c in all :: c.protocol == "vless" && c.security == "reality"
  }

  lemma LayersAre(creds: Link, dpi: string, all: seq<Link>)
    ensures ShadowtlsLayer(creds, dpi, all)
         == if OuterShadowtls(creds, dpi, all)
            then Some(Outbound("outer_shadowtls_layer", "shadowtls", Some(Sockopt(Some("fragment-out"), true))))
            else None
    ensures RealityLayer(creds, dpi, all)
         == if OuterReality(creds, dpi, all)
            then Some(Outbound("outer_reality_layer", "vless", Some(Sockopt(Some("fragment-out"), true))))
            else None
  {
    var c := First(all, IsShadowtls);
    if c.Some? {
      BuildableIff(c.value, OUTER_SHADOWTLS);
    }
    var r := First(all, IsReality);
    if r.Some? {
      BuildableIff(r.value, OUTER_REALITY);
    }
  }

  /** Under aggressive inspection, buildable credentials are chained behind a ShadowTLS configuration, or else behind a
      reality one, unless they are of that kind themselves: the fragmented outer layer heads the document, the outbound
      of the credentials dials through it, and no balancer is written. */
  lemma ChainedDocument(creds: Link, dpi: string, all: seq<Link>)
    ensures Chains(creds, dpi, all)
       <==> Buildable(creds) && (OuterShadowtls(creds, dpi, all) || OuterReality(creds, dpi, all))
    ensures Chains(creds, dpi, all) ==>
              var d, shadowtls := Compile(creds, dpi, all).value, OuterShadowtls(creds, dpi, all);
              var tag := if shadowtls then "outer_shadowtls_layer" else "outer_reality_layer";
              && d.outbounds[..2]
                 == [Outbound(tag, if shadowtls then "shadowtls" else "vless",
                              Some(Sockopt(Some("fragment-out"), true))),
                     Outbound("proxy", XrayProtocol(creds), Some(Sockopt(Some(tag), true)))]
              && d.outbounds[2..] == SERVICE && d.balancers == []
  {
    LayersAre(creds, dpi, all);
    BuildableIff(creds, "proxy");
  }

  lemma BalancesIff(all: seq<Link>)
    ensures Balances(all) <==> |all| > 1 && exists c | c in all :: Buildable(c)
  {
    forall c | c in all ensures MakeOutbound(c, "").Some? == Buildable(c) {
      BuildableIff(c, "");
    }
  }

  /** When nothing is chained and one of several configurations can be built, the document lists the outer layers that
      were appended before, the outbounds of the configurations and the service outbounds; the balancer selects from the
      configurations and falls back on the first. */
  lemma BalancedDocument(creds: Link, dpi: string, all: seq<Link>)
    requires !Chains(creds, dpi, all) && |all| > 1 && exists c | c in all :: Buildable(c)
    ensures Compile(creds, dpi, all).Some? && BalancerOutbounds(all) != []
    ensures var d, proxies := Compile(creds, dpi, all).value, BalancerOutbounds(all);
      var layers := Listed(ShadowtlsLayer(creds, dpi, all)) + Listed(RealityLayer(creds, dpi, all));
      && d.outbounds == layers + proxies + SERVICE
      && d.balancers == [Balancer("balancer", Tags(proxies), proxies[0].tag)] && d.observed == Some(Tags(proxies))
      && (forall o | o in layers :: IsOuter(o.tag))
  {
    BalancesIff(all);
    BalancerEmptyIff(all);
    LayersSimple(creds, dpi, all);
    ExitOf(creds, dpi, all);
    BalancerExit(creds, dpi, all);
  }

  /** A document is headed by the fragmenting outbound, so that all other traffic leaves without a proxy server, exactly
      when there are several configurations and neither any of them nor the credentials can be built. */
  lemma UnproxiedIff(creds: Link, dpi: string, all: seq<Link>)
    requires Compile(creds, dpi, all).Some?
    ensures Compile(creds, dpi, all).value.outbounds != []
    ensures Compile(creds, dpi, all).value.outbounds[0].tag == "fragment-out"
       <==> |all| > 1 && !Buildable(creds) && forall c | c in all :: !Buildable(c)
  {
    BuildableIff(creds, "proxy");
    BalancesIff(all);
    BalancerEmptyIff(all);
    if Chains(creds, dpi, all) {
      ChainedDocument(creds, dpi, all);
      assert Compile(creds, dpi, all).value.outbounds[0] == Compile(creds, dpi, all).value.outbounds[..2][0];
    } else if Balances(all) {
      BalancedDocument(creds, dpi, all);
      BalancedHead(creds, dpi, all);
    } else if Buildable(creds) {
      var inner := MakeOutbound(creds, "proxy").value;
      assert Compile(creds, dpi, all).value.outbounds == [] + [] + [inner] + SERVICE;
    } else {
      LayersNeedBuildable(creds, dpi, all);
      assert Compile(creds, dpi, all).value.outbounds == [] + [] + [] + SERVICE;
    }
  }

  lemma BalancedHead(creds: Link, dpi: string, all: seq<Link>)
    requires BalancerOutbounds(all) != []
    ensures var layers := Listed(ShadowtlsLayer(creds, dpi, all)) + Listed(RealityLayer(creds, dpi, all));
      (layers + BalancerOutbounds(all) + SERVICE)[0].tag != "fragment-out"
  {
    LayersAre(creds, dpi, all);
    BalancerShape(all);
    var o := BalancerOutbounds(all)[0];
    assert o in BalancerOutbounds(all);
    var i :| 0 <= i < |all| && o.tag == ProxyTag(i);
    ProxyTagsDistinct(i, i);
  }

  lemma LayersNeedBuildable(creds: Link, dpi: string, all: seq<Link>)
    requires forall c | c in all :: !Buildable(c)
    ensures ShadowtlsLayer(creds, dpi, all) == None && RealityLayer(creds, dpi, all) == None
  {
    LayersAre(creds, dpi, all);
  }

  /** `pos` lists in order the configurations the balancer's outbounds are built for. */
  ghost predicate BuiltFrom(outs: seq<Outbound>, links: seq<Link>, pos: seq<nat>) {
    && |pos| == |outs|
    && (forall k | 0 <= k < |outs| ::
          && pos[k] < |links| && Buildable(links[pos[k]])
          && outs[k] == Outbound("proxy_" + Decimal(pos[k]), XrayProtocol(links[pos[k]]),
                                 Some(Sockopt(Some("fragment-out"), true))))
    && (forall k, l | 0 <= k < l < |outs| :: pos[k] < pos[l])
    && (forall i {:trigger i in pos} | 0 <= i < |links| && Buildable(links[i]) :: i in pos)
  }

  /** The balancer holds one fragmented outbound for every buildable configuration, in order, tagged by position. */
  lemma {:induction false} BalancerMembers(links: seq<Link>) returns (pos: seq<nat>)
    ensures BuiltFrom(BalancerOutbounds(links), links, pos)
  {
    if links == [] {
      pos := [];
    } else {
      var n := |links| - 1;
      pos := BalancerMembers(links[..n]);
      pos := BuiltSnoc(BalancerOutbounds(links[..n]), links, pos);
    }
  }

  lemma BuiltSnoc(outs: seq<Outbound>, links: seq<Link>, before: seq<nat>) returns (pos: seq<nat>)
    requires links != [] && BuiltFrom(outs, links[..|links| - 1], before)
    ensures var n := |links| - 1;
      var ob := MakeOutbound(links[n], ProxyTag(n));
      BuiltFrom(outs + if ob.Some? then [ApplyFragmentation(ob.value)] else [], links, pos)
  {
    var n := |links| - 1;
    BuildableIff(links[n], ProxyTag(n));
    if Buildable(links[n]) {
      pos := before + [n];
    } else {
      pos := before;
      assert outs + [] == outs;
    }
  }

  /** The outbound built from the credentials carries traffic exactly when neither a chaining block nor the balancer
      takes effect. On a chaining exit it is built, but only the outer layer is used. */
  lemma InnerSelectedIff(creds: Link, dpi: string, all: seq<Link>)
    requires MakeOutbound(creds, "proxy").Some?
    ensures Compile(creds, dpi, all).Some?
    ensures Selected(Compile(creds, dpi, all).value, "proxy") <==> !Chains(creds, dpi, all) && !Balances(all)
  {
    var inner := MakeOutbound(creds, "proxy").value;
    var outer1, outer2 := ShadowtlsLayer(creds, dpi, all), RealityLayer(creds, dpi, all);
    BalancerEmptyIff(all);
    if outer1.Some? {
      ChainedInnerUnreferenced(outer1.value, inner);
    } else if outer2.Some? {
      ChainedInnerUnreferenced(outer2.value, inner);
    } else if Balances(all) {
      BalancedSelectsNoProxy(all);
      assert [] + BalancerOutbounds(all) == BalancerOutbounds(all);
    } else {
      assert [] + [inner] == [inner];
      TemplateSelectsNoProxy(Compile(creds, dpi, all).value, [inner]);
    }
  }

  lemma {:induction false} BalancedSelectsNoProxy(all: seq<Link>)
    requires BalancerOutbounds(all) != []
    ensures !Selected(Balanced([], BalancerOutbounds(all)), "proxy")
  {
    var proxies := BalancerOutbounds(all);
    var d := Balanced([], proxies);
    BalancerShape(all);
    forall o | o in proxies ensures o.tag != "proxy" {
      var i :| 0 <= i < |all| && o.tag == ProxyTag(i);
      ProxyTagsDistinct(i, i);
    }
    assert d.outbounds[0] == proxies[0] && proxies[0] in proxies;
    assert forall t | t in Tags(proxies) ::
             exists i :: 0 <= i < |proxies| && t == proxies[i].tag && proxies[i] in proxies;
    forall r | r in d.rules ensures r.target != ToOutbound("proxy") {
      if r in TEMPLATE_RULES {
        TemplateTargets(r);
      }
    }
    forall o | o in d.outbounds ensures SockoptOf(o).dialerProxy != Some("proxy") {
      if o in SERVICE {
        ServiceMembers(o);
      }
    }
  }

  /** On a chaining exit nothing selects the inner outbound: the selected path stops at the outer layer. */
  lemma ChainedInnerUnreferenced(outer: Outbound, inner: Outbound)
    requires IsOuter(outer.tag) && SockoptOf(outer).dialerProxy in {None, Some(FRAGMENT)} && inner.tag == "proxy"
    ensures var d := Chained(outer, inner);
      && d.outbounds[0] == outer && d.outbounds[1] == WithDialer(inner, outer.tag)
      && (forall r | r in d.rules :: r.target != ToOutbound("proxy") && !r.target.ToBalancer?)
      && (forall o | o in d.outbounds :: SockoptOf(o).dialerProxy != Some("proxy"))
      && !Selected(d, "proxy")
  {
    var d, front := Chained(outer, inner), [outer, WithDialer(inner, outer.tag)];
    TemplateSelectsNoProxy(d, front);
    forall r | r in d.rules ensures r.target != ToOutbound("proxy") && !r.target.ToBalancer? {
      TemplateTargets(r);
    }
    forall o | o in d.outbounds ensures SockoptOf(o).dialerProxy != Some("proxy") {
      if o in SERVICE {
        ServiceMembers(o);
      }
    }
  }

  /** A trojan configuration chained behind a ShadowTLS one under aggressive inspection is written and never used. */
  lemma ChainedTrojanUnused()
    ensures var d := Compile(Link("trojan", "", ""), "dpi_rst", [Link("shadowtls", "", "")]);
      d.Some? && !Selected(d.value, "proxy") && exists o | o in d.value.outbounds :: o.tag == "proxy"
  {
    var creds, all := Link("trojan", "", ""), [Link("shadowtls", "", "")];
    assert First(all, IsShadowtls).Some?;
    InnerSelectedIff(creds, "dpi_rst", all);
    assert Compile(creds, "dpi_rst", all).value.outbounds[1].tag == "proxy";
  }
}
