// The parts of a sing-box configuration the app writes.

module CoreConfig {
  import opened Wrappers
  import opened Text
  import opened Models

  // -------------------------------------------------------------------- tags

  /** Outbound tags: "proxy", "direct", "chain-N", "exit-N", "server-N". */
  datatype OutTag = Exit | DirectOut | ChainHop(n: nat) | ExitMember(n: nat) | ServerOut(n: nat)

  function OutText(tag: OutTag): string {
    match tag
    case Exit => "proxy"
    case DirectOut => "direct"
    case ChainHop(n) => "chain-" + Itoa(n)
    case ExitMember(n) => "exit-" + Itoa(n)
    case ServerOut(n) => "server-" + Itoa(n)
  }

  /** DNS server tags; a resolver reached through an outbound is "dns-via-" and its tag. */
  datatype DnsTag = DnsProxy | DnsDirect | DnsLocal | DnsServers | DnsVia(out: OutTag) | DnsRule(n: nat)

  function DnsText(tag: DnsTag): string {
    match tag
    case DnsProxy => "dns-proxy"
    case DnsDirect => "dns-direct"
    case DnsLocal => "dns-local"
    case DnsServers => "dns-servers"
    case DnsVia(out) => "dns-via-" + OutText(out)
    case DnsRule(n) => "dns-rule-" + Itoa(n)
  }

  /** Rule-set tags; a list URL's tag is a hash of it, treated as injective. */
  datatype SetTag =
    | GeoTag(kind: Kind, value: string)
    | ListTag(address: string)
    | ListDomainsTag(address: string)

  // --------------------------------------------------------------- rule-sets

  /** Where a compiled set is fetched from: the built-in geo sets, by name, or a list's own address. */
  datatype SetUrl = GeoSiteSet(name: string) | GeoIpSet(name: string) | AddressUrl(address: string)

  datatype SetSource = LocalFile(path: string) | Remote(format: string, url: SetUrl, downloadDetour: OutTag)

  datatype RuleSet = RuleSet(tag: SetTag, source: SetSource)

  // ------------------------------------------------------------------ rules

  datatype Fields = Fields(
    inbound: seq<string>,
    domain: seq<string>, domainSuffix: seq<string>, domainRegex: seq<string>,
    ipCidr: seq<string>, ipIsPrivate: bool,
    port: seq<int>, portRange: seq<string>,
    protocol: seq<string>, network: seq<string>,
    packageName: seq<string>, processName: seq<string>, processPath: seq<string>,
    ruleSet: seq<SetTag>, onlyIpv6: bool)

  const NO_FIELDS := Fields([], [], [], [], [], false, [], [], [], [], [], [], [], [], false)

  /** The matching half of a route or DNS rule. */
  datatype Match =
    | Plain(fields: Fields, invert: bool)
    | Combined(mode: Mode, parts: seq<Match>, invert: bool)

  datatype RouteAction =
    | Route(out: OutTag)
    | Reject(drop: bool)
    | HijackDns
    | Sniff(sniffers: seq<string>)
    | Resolve(server: DnsTag)

  datatype RouteRule = RouteRule(pattern: Match, action: RouteAction)

  datatype DnsRuleEntry = DnsRuleEntry(pattern: Match, server: DnsTag)

  datatype DnsServer = DnsServer(
    kind: string, tag: DnsTag, server: string, port: int, path: string,
    detour: Option<OutTag>, resolver: Option<DnsTag>)

  // -------------------------------------------------------------- outbounds

  datatype OutboundKind = Dialed | DirectKind | UrlTest(members: seq<OutTag>)

  /** An outbound or endpoint: what it is, how it is reached, whom it dials. */
  datatype Outbound = Outbound(
    kind: OutboundKind, tag: OutTag, detour: Option<OutTag>, server: string, resolver: Option<DnsTag>)

  // ----------------------------------------------------------- tags are names

  lemma OutTextInjective(a: OutTag, b: OutTag)
    requires OutText(a) == OutText(b)
    ensures a == b
  {
    var x, y := OutText(a), OutText(b);
    assert x[0] == y[0] && x[1] == y[1];
    match a {
      case ChainHop(m) =>
        assert x[6..] == Itoa(m) && y[6..] == Itoa(b.n);
        ItoaInjective(m, b.n);
      case ExitMember(m) =>
        assert x[5..] == Itoa(m) && y[5..] == Itoa(b.n);
        ItoaInjective(m, b.n);
      case ServerOut(m) =>
        assert x[7..] == Itoa(m) && y[7..] == Itoa(b.n);
        ItoaInjective(m, b.n);
      case _ =>
    }
  }

  lemma DnsTextInjective(a: DnsTag, b: DnsTag)
    requires DnsText(a) == DnsText(b)
    ensures a == b
  {
    var x, y := DnsText(a), DnsText(b);
    assert x[4] == y[4] && x[5] == y[5];
    match a {
      case DnsVia(out) =>
        assert x[8..] == OutText(out) && y[8..] == OutText(b.out);
        OutTextInjective(out, b.out);
      case DnsRule(m) =>
        assert x[9..] == Itoa(m) && y[9..] == Itoa(b.n);
        ItoaInjective(m, b.n);
      case _ =>
    }
  }
}
