// Assembling a whole configuration (internal/sbconfig/build.go): the proxy
// chain, the exits, the servers rules name, the resolvers, and the route section.

module ConfigSpec {
  import opened Wrappers
  import opened Sequences
  import opened Text
  import opened Models
  import opened Normalize
  import opened CoreConfig
  import opened RouteSpec

  datatype Profile = Profile(id: string, link: string)

  /** What a profile parses to: whom it dials, and whether it is an endpoint (WireGuard). */
  datatype Server = Server(address: string, endpoint: bool)

  /** engine is another program that dials the servers and owns the chain; its hostnames come with it. */
  datatype Request = Request(
    env: Env,
    profile: Profile, profiles: seq<Profile>, alternatives: seq<Profile>,
    graph: Graph, legacy: Legacy, dns: string,
    chainEnabled: bool, chain: seq<string>,
    parse: Profile -> Option<Server>,
    fullConfig: string -> bool,
    engine: Option<Profile -> Option<Server>>,
    engineDomains: seq<string>,
    lookup: Option<seq<string> -> map<string, seq<string>>>,
    ipv4: string -> Option<string>,
    localSets: map<SetTag, string>, customGeo: set<Kind>, lists: map<string, RuleList>,
    bypass: bool)

  function Dial(request: Request, profile: Profile): Option<Server> {
    match request.engine case Some(dial) => dial(profile) case None => request.parse(profile)
  }

  /** The last profile with an id wins, as in a map filled in order. */
  function ProfileById(profiles: seq<Profile>, id: string): Option<Profile> {
    if profiles == [] then None
    else
      var last := profiles[|profiles| - 1];
      if last.id == id then Some(last) else ProfileById(profiles[..|profiles| - 1], id)
  }

  // --------------------------------------------------------------- placement

  /** Endpoints live in a list of their own, without the address hint the parser keeps on them. */
  datatype Placement = Placement(outbound: Outbound, endpoint: bool)

  function AsOutbound(p: Placement): Option<Outbound> {
    if p.endpoint then None else Some(p.outbound)
  }

  function AsEndpoint(p: Placement): Option<Outbound> {
    if p.endpoint then Some(p.outbound.(server := "")) else None
  }

  function OutboundsOf(placed: seq<Placement>): seq<Outbound> { Collect(AsOutbound, placed) }

  function EndpointsOf(placed: seq<Placement>): seq<Outbound> { Collect(AsEndpoint, placed) }

  function PlaceServer(tag: OutTag, detour: Option<OutTag>, server: Server): Placement {
    Placement(Outbound(Dialed, tag, detour, server.address, None), server.endpoint)
  }

  // -------------------------------------------------------------------- chain

  /** A chain hop: not the connected server itself, and known. */
  function HopProfile(request: Request, id: string): Option<Profile> {
    if id == request.profile.id then None else ProfileById(request.profiles, id)
  }

  function HopId(request: Request, id: string): Option<string> {
    if HopProfile(request, id).Some? then Some(id) else None
  }

  /** The ids the chain really hops through, in dial order; none when an engine owns the chain. */
  function HopIds(request: Request): seq<string> {
    if request.engine.Some? || !request.chainEnabled then []
    else HopsAmong(request, request.chain)
  }

  function HopsAmong(request: Request, ids: seq<string>): seq<string> {
    Distinct(id => HopId(request, id), ids)
  }

  function ServersAt(request: Request, ids: seq<string>): Option<seq<Server>> {
    CollectAll(id => HopServer(request, id), ids, true)
  }

  function HopServer(request: Request, id: string): Option<Server> {
    match HopProfile(request, id) case Some(profile) => request.parse(profile) case None => None
  }

  /** None when a hop's profile cannot be parsed: the whole build fails. */
  function HopServers(request: Request): Option<seq<Server>> {
    ServersAt(request, HopIds(request))
  }

  function ChainTail(hops: nat): Option<OutTag> {
    if hops == 0 then None else Some(ChainHop(hops))
  }

  /** Hop k is reached through hop k - 1; the first is dialed directly. */
  function ChainPlacements(hops: seq<Server>): (r: seq<Placement>)
    ensures |r| == |hops|
  {
    seq(|hops|, i requires 0 <= i < |hops| => PlaceServer(ChainHop(i + 1), ChainTail(i), hops[i]))
  }

  // -------------------------------------------------------------------- exits

  function Alternative(request: Request, profile: Profile): Option<(string, Server)> {
    if profile.id == request.profile.id || request.fullConfig(profile.link) then None
    else match Dial(request, profile) case Some(server) => Some((profile.id, server)) case None => None
  }

  /** The servers the exit may switch between, the connected one first. */
  function Members(request: Request, exit: Server): seq<(string, Server)> {
    [(request.profile.id, exit)] + UsableAlternatives(request, request.alternatives)
  }

  function UsableAlternatives(request: Request, alternatives: seq<Profile>): seq<(string, Server)> {
    Collect(profile => Alternative(request, profile), alternatives)
  }

  function MemberTags(n: nat): (r: seq<OutTag>)
    ensures |r| == n
  {
    seq(n, i requires 0 <= i < n => ExitMember(i + 1))
  }

  function MemberPlacements(members: seq<(string, Server)>, tail: Option<OutTag>): (r: seq<Placement>)
    ensures |r| == |members|
  {
    seq(|members|, i requires 0 <= i < |members| => PlaceServer(ExitMember(i + 1), tail, members[i].1))
  }

  function GroupOf(n: nat): Placement {
    Placement(Outbound(UrlTest(MemberTags(n)), Exit, None, "", None), false)
  }

  function ExitPlacements(request: Request, exit: Server, tail: Option<OutTag>): seq<Placement> {
    if request.alternatives == [] then [PlaceServer(Exit, tail, exit)]
    else
      var members := Members(request, exit);
      MemberPlacements(members, tail) + [GroupOf(|members|)]
  }

  // ------------------------------------------------------ servers rules name

  function UsableServer(request: Request, id: string): Option<Server> {
    match ProfileById(request.profiles, id)
    case None => None
    case Some(profile) => if request.fullConfig(profile.link) then None else Dial(request, profile)
  }

  function WantedServer(rule: Rule): Option<string> {
    if rule.action == Proxy && rule.server != "" then Some(rule.server) else None
  }

  function WantedServers(checks: Checks, graph: Graph): seq<string>
    requires graph.rules.Some?
  {
    (if graph.defaultAction == Proxy && graph.defaultServer != "" then [graph.defaultServer] else [])
    + Collect(WantedServer, UsableRules(checks, graph.rules.value))
  }

  datatype RuleServers = RuleServers(outboundFor: map<string, OutTag>, placed: seq<Placement>)

  /** A server that cannot be used falls back to the exit; one already mapped keeps its tag. */
  function AddRuleServer(request: Request, tail: Option<OutTag>, sofar: RuleServers, id: string): RuleServers {
    if id in sofar.outboundFor then sofar
    else match UsableServer(request, id)
      case None => sofar.(outboundFor := sofar.outboundFor[id := Exit])
      case Some(server) =>
        var tag := ServerOut(|sofar.outboundFor|);
        RuleServers(sofar.outboundFor[id := tag], sofar.placed + [PlaceServer(tag, tail, server)])
  }

  function RuleServersFor(request: Request, tail: Option<OutTag>, wanted: seq<string>): RuleServers {
    if wanted == [] then RuleServers(map[request.profile.id := Exit], [])
    else AddRuleServer(request, tail, RuleServersFor(request, tail, wanted[..|wanted| - 1]), wanted[|wanted| - 1])
  }

  const DIRECT := Placement(Outbound(DirectKind, DirectOut, None, "", None), false)

  // ------------------------------------------------------- server hostnames

  function HostnameOf(env: Env, o: Outbound): Option<string> {
    var server := Trim(o.server);
    if server == "" || env.isIp(server) then None else Some(server)
  }

  function ServerDomains(request: Request, outbounds: seq<Outbound>, endpoints: seq<Outbound>): seq<string> {
    var found := Dedupe(Collect(o => HostnameOf(request.env, o), outbounds + endpoints));
    if request.engine.Some? then Dedupe(found + request.engineDomains) else found
  }

  function Ipv4Of(request: Request, found: map<string, seq<string>>, domain: string): seq<string> {
    if domain in found then Collect(request.ipv4, found[domain]) else []
  }

  /** The answers for names asked about that have an IPv4 address. */
  function ResolvedOnly(request: Request, found: map<string, seq<string>>, asked: seq<string>): map<string, seq<string>> {
    map domain | domain in asked && Ipv4Of(request, found, domain) != [] :: Ipv4Of(request, found, domain)
  }

  function Resolved(request: Request, serverDomains: seq<string>): map<string, seq<string>> {
    match request.lookup
    case Some(look) => if serverDomains == [] then map[] else ResolvedOnly(request, look(serverDomains), serverDomains)
    case None => map[]
  }

  /** A server dialed by a name the app looked up resolves it from that list. */
  function WithResolver(resolved: map<string, seq<string>>, o: Outbound): Outbound {
    if o.server in resolved then o.(resolver := Some(DnsServers)) else o
  }

  function Wired(resolved: map<string, seq<string>>, outbounds: seq<Outbound>): seq<Outbound> {
    Map(o => WithResolver(resolved, o), outbounds)
  }

  function Before(a: string, b: string): bool {
    if a == [] then true
    else if b == [] then false
    else a[0] < b[0] || (a[0] == b[0] && Before(a[1..], b[1..]))
  }

  function InsertSorted(s: seq<string>, value: string): seq<string> {
    if s == [] || Before(value, s[0]) then [value] + s else [s[0]] + InsertSorted(s[1..], value)
  }

  function Sorted(values: seq<string>): seq<string> {
    if values == [] then [] else InsertSorted(Sorted(values[..|values| - 1]), values[|values| - 1])
  }

  function ResolvedNames(resolved: map<string, seq<string>>, serverDomains: seq<string>): seq<string> {
    Sorted(Collect((d: string) => if d in resolved then Some(d) else None, serverDomains))
  }

  // ---------------------------------------------------------------- resolvers

  datatype Dns = Dns(servers: seq<DnsServer>, rules: seq<DnsRuleEntry>, final: DnsTag)

  /** The DNS section while the graph's rules are walked. */
  datatype DnsState = DnsState(
    servers: seq<DnsServer>, rules: seq<DnsRuleEntry>,
    viaTags: map<OutTag, DnsTag>, custom: map<(string, OutTag), DnsTag>)

  /** Queries through a server go over TCP; see proxiedDNS. */
  const PROXIED := "tcp"

  function ViaServer(dns: string, tag: DnsTag, out: OutTag): DnsServer {
    DnsServer(PROXIED, tag, dns, 53, "", Some(out), None)
  }

  function NamedServer(env: Env, tag: DnsTag, address: DnsAddress, out: OutTag): DnsServer {
    if address.kind == "local" then DnsServer("local", tag, "", 0, "", None, None)
    else DnsServer(
      if address.kind == "udp" && out != DirectOut then PROXIED else address.kind,
      tag, address.server, address.port, address.path,
      if out != DirectOut then Some(out) else None,
      if env.isIp(address.server) then None else Some(DnsDirect))
  }

  function BaseServers(plan: Plan): seq<DnsServer> {
    [ViaServer(plan.dns, DnsProxy, Exit),
     DnsServer("udp", DnsDirect, plan.dns, 53, "", None, None),
     DnsServer("local", DnsLocal, "", 0, "", None, None)]
    + (if plan.resolved != map[] then [DnsServer("hosts", DnsServers, "", 0, "", None, None)] else [])
  }

  function Names(domains: seq<string>): Match { Plain(NO_FIELDS.(domain := domains), false) }

  function BaseDnsRules(plan: Plan, resolvedNames: seq<string>, serverDomains: seq<string>): seq<DnsRuleEntry> {
    [DnsRuleEntry(Plain(NO_FIELDS.(domainSuffix := LOCAL_SUFFIXES), false), DnsLocal)]
    + (if plan.resolved != map[] then [DnsRuleEntry(Names(resolvedNames), DnsServers)] else [])
    + (if serverDomains != [] then [DnsRuleEntry(Names(serverDomains), DnsDirect)] else [])
  }

  /** The resolver reached through an outbound, declared the first time it is asked for. */
  function Via(dns: string, s: DnsState, out: OutTag): (DnsState, DnsTag) {
    if out in s.viaTags then (s, s.viaTags[out])
    else
      var tag := DnsVia(out);
      (s.(servers := s.servers + [ViaServer(dns, tag, out)], viaTags := s.viaTags[out := tag]), tag)
  }

  function StartDns(plan: Plan, resolvedNames: seq<string>, serverDomains: seq<string>): (DnsState, DnsTag) {
    var s := DnsState(BaseServers(plan), BaseDnsRules(plan, resolvedNames, serverDomains), map[Exit := DnsProxy], map[]);
    if SplitTunnelling(plan.rules, plan.defaultAction) then (s, DnsDirect) else Via(plan.dns, s, FinalOutbound(plan))
  }

  function RuleOutbound(plan: Plan, rule: Rule): OutTag {
    if rule.action == Proxy then ProxyOutbound(plan, rule.server) else DirectOut
  }

  /** The resolver a rule's own setting names, shared by rules that name the same one the same way. */
  function OwnResolver(plan: Plan, s: DnsState, rule: Rule): (DnsState, Option<DnsTag>) {
    var out := RuleOutbound(plan, rule);
    if rule.dns == "" then (s, None)
    else match plan.env.parseDns(rule.dns)
      case None => (s, None)
      case Some(address) =>
        var key := (rule.dns, out);
        if key in s.custom then (s, Some(s.custom[key]))
        else
          var tag := DnsRule(|s.custom| + 1);
          (s.(servers := s.servers + [NamedServer(plan.env, tag, address, out)], custom := s.custom[key := tag]), Some(tag))
  }

  function RuleResolver(plan: Plan, s: DnsState, rule: Rule): (DnsState, Option<DnsTag>) {
    var (own, tag) := OwnResolver(plan, s, rule);
    if tag.None? && rule.action == Proxy then
      var (viaState, viaTag) := Via(plan.dns, own, RuleOutbound(plan, rule));
      (viaState, Some(viaTag))
    else (own, tag)
  }

  predicate Blocks(rule: Rule) { rule.action.Block? || rule.action.Drop? }

  /** Whether a rule gets as far as building its domain conditions for DNS. */
  predicate AsksDns(plan: Plan, final: DnsTag, s: DnsState, rule: Rule) {
    var (_, tag) := RuleResolver(plan, s, rule);
    !Blocks(rule) && tag.Some? && tag.value != final
  }

  function DnsStep(plan: Plan, final: DnsTag, s: DnsState, rule: Rule): DnsState {
    if Blocks(rule) then s
    else
      var (next, tag) := RuleResolver(plan, s, rule);
      if tag.None? || tag.value == final then next
      else match DomainPattern(plan, rule)
        case None => next
        case Some(pattern) => next.(rules := next.rules + [DnsRuleEntry(pattern, tag.value)])
  }

  function DnsFold(plan: Plan, final: DnsTag, s: DnsState, rules: seq<Rule>): DnsState {
    if rules == [] then s
    else DnsStep(plan, final, DnsFold(plan, final, s, rules[..|rules| - 1]), rules[|rules| - 1])
  }

  function DnsSets(plan: Plan, final: DnsTag, s: DnsState, rules: seq<Rule>): seq<RuleSet> {
    if rules == [] then []
    else
      var init, last := rules[..|rules| - 1], rules[|rules| - 1];
      DnsSets(plan, final, s, init)
      + if AsksDns(plan, final, DnsFold(plan, final, s, init), last) then SetsOfDomains(plan, last) else []
  }

  function DnsOf(plan: Plan, resolvedNames: seq<string>, serverDomains: seq<string>): Dns {
    var (start, final) := StartDns(plan, resolvedNames, serverDomains);
    var s := DnsFold(plan, final, start, UsableRules(plan.env.checks, plan.rules));
    Dns(s.servers, s.rules, final)
  }

  function DnsSetsOf(plan: Plan, resolvedNames: seq<string>, serverDomains: seq<string>): seq<RuleSet> {
    var (start, final) := StartDns(plan, resolvedNames, serverDomains);
    DnsSets(plan, final, start, UsableRules(plan.env.checks, plan.rules))
  }

  // ------------------------------------------------------------- the document

  datatype Config = Config(
    outbounds: seq<Outbound>, endpoints: seq<Outbound>, dns: Dns,
    rules: seq<RouteRule>, final: OutTag, defaultResolver: DnsTag, sets: seq<RuleSet>,
    owners: seq<string>, chainHops: nat, serverFor: map<OutTag, string>)

  datatype Built = Verbatim | Failed | Generated(config: Config)

  /** Only the exit's tag is shared: every other tag stands for one profile. */
  ghost predicate OneProfilePerTag(outboundFor: map<string, OutTag>) {
    forall a, b :: a in outboundFor && b in outboundFor && outboundFor[a] == outboundFor[b] != Exit ==> a == b
  }

  /** Which profile traffic through each tag leaves by. */
  ghost predicate ServesFor(serverFor: map<OutTag, string>, outboundFor: map<string, OutTag>, connected: string, members: seq<string>) {
    && Exit in serverFor && serverFor[Exit] == connected
    && (forall id :: id in outboundFor && outboundFor[id] != Exit ==>
          outboundFor[id] in serverFor && serverFor[outboundFor[id]] == id)
    && (forall tag: OutTag :: tag.ExitMember? && 1 <= tag.n <= |members| ==>
          tag in serverFor && serverFor[tag] == members[tag.n - 1])
    && (forall tag :: tag in serverFor ==>
          tag == Exit || tag in outboundFor.Values || (tag.ExitMember? && 1 <= tag.n <= |members|))
  }

  // ------------------------------------------------------- the whole of Build

  /** Everything Build works out before it writes the document. */
  datatype Layout = Layout(hops: seq<Server>, exit: Server, servers: RuleServers, graph: Graph)

  function LayoutOf(request: Request): Option<Layout> {
    var graph := NormalGraph(request.graph, request.legacy);
    match (Dial(request, request.profile), HopServers(request))
    case (Some(exit), Some(hops)) =>
      Some(Layout(hops, exit, RuleServersFor(request, ChainTail(|hops|), WantedServers(request.env.checks, graph)), graph))
    case _ => None
  }

  function Placements(request: Request, l: Layout): seq<Placement> {
    ChainPlacements(l.hops) + ExitPlacements(request, l.exit, ChainTail(|l.hops|)) + l.servers.placed + [DIRECT]
  }

  function DomainsOf(request: Request, l: Layout): seq<string> {
    ServerDomains(request, OutboundsOf(Placements(request, l)), EndpointsOf(Placements(request, l)))
  }

  function PlanOf(request: Request, l: Layout): Plan
    requires l.graph.rules.Some?
  {
    Plan(request.env, l.graph.rules.value, l.graph.defaultAction, l.graph.defaultServer,
      if Trim(request.dns) == "" then "1.1.1.1" else request.dns,
      request.localSets, request.customGeo, request.lists,
      l.servers.outboundFor, Resolved(request, DomainsOf(request, l)), request.bypass)
  }

  function NamesOf(request: Request, l: Layout): seq<string>
  {
    ResolvedNames(Resolved(request, DomainsOf(request, l)), DomainsOf(request, l))
  }

  function WiredOutbounds(request: Request, l: Layout): seq<Outbound> {
    Wired(Resolved(request, DomainsOf(request, l)), OutboundsOf(Placements(request, l)))
  }

  function SetsOf(plan: Plan, resolvedNames: seq<string>, serverDomains: seq<string>): seq<RuleSet> {
    DeclareAll([], SetsOfRules(plan, UsableRules(plan.env.checks, plan.rules)) + DnsSetsOf(plan, resolvedNames, serverDomains))
  }

  /** The document, apart from serverFor. */
  function ConfigOf(request: Request, l: Layout): Config
    requires l.graph.rules.Some?
  {
    var plan, names, domains := PlanOf(request, l), NamesOf(request, l), DomainsOf(request, l);
    Config(
      WiredOutbounds(request, l), EndpointsOf(Placements(request, l)), DnsOf(plan, names, domains),
      RulesOf(RouteEntries(plan, names, domains)), FinalOutbound(plan), DnsDirect, SetsOf(plan, names, domains),
      OwnersOf(RouteEntries(plan, names, domains)), |l.hops|, map[])
  }

  function MemberIds(request: Request, exit: Server): seq<string> {
    if request.alternatives == [] then [] else Map((m: (string, Server)) => m.0, Members(request, exit))
  }
}
