// The routing compiler (internal/sbconfig/route.go): a routing graph becomes a
// first-match rule list, with the rule-sets it refers to declared as it goes.

module RouteSpec {
  import opened Wrappers
  import opened Sequences
  import opened Text
  import opened Models
  import opened CoreConfig

  datatype DnsAddress = DnsAddress(kind: string, server: string, port: int, path: string)

  /** What the app asks the platform and Go's parsers: file systems, URLs, addresses. */
  datatype Env = Env(
    checks: Checks,
    android: bool,
    namesOf: string -> seq<string>,      // process names an app entry expands to
    pathsOf: string -> seq<string>,      // executables an app entry expands to
    baseNames: string -> seq<string>,    // names a path is also reported under
    nativeFormat: string -> Option<string>,
    parseDns: string -> Option<DnsAddress>,
    isIp: string -> bool)

  datatype RuleList = RuleList(path: string, domainsPath: string)

  /** Everything the route section is assembled from. */
  datatype Plan = Plan(
    env: Env,
    rules: seq<Rule>, defaultAction: Action, defaultServer: string, dns: string,
    localSets: map<SetTag, string>, customGeo: set<Kind>,
    lists: map<string, RuleList>,
    outboundFor: map<string, OutTag>,
    resolved: map<string, seq<string>>,
    bypass: bool)

  const DNS_PORT := 53
  const WINBOX_PORT := 8291
  const BYPASS_TAG := "bypass-in"
  const DEFAULT_OWNER := "__default"
  const LOCAL_SUFFIXES: seq<string> := ["local", "lan", "home.arpa"]
  const CONNECTIVITY_DOMAINS: seq<string> := ["msftconnecttest.com", "msftncsi.com"]
  const BASE_SNIFFERS: seq<string> := ["tls", "http", "quic"]

  // ----------------------------------------------------------- destinations

  function ProxyOutbound(plan: Plan, server: string): OutTag {
    if server != "" && server in plan.outboundFor then plan.outboundFor[server] else Exit
  }

  function ActionFor(plan: Plan, action: Action, server: string): RouteAction {
    match action
    case Block => Reject(false)
    case Drop => Reject(true)
    case Direct => Route(DirectOut)
    case _ => Route(ProxyOutbound(plan, server))
  }

  function FinalOutbound(plan: Plan): OutTag {
    if plan.defaultAction == Proxy then ProxyOutbound(plan, plan.defaultServer) else DirectOut
  }

  // --------------------------------------------------------------- rule-sets

  /** A geo value's rule-set: the user's own file, else the built-in set unless the user replaced that kind. */
  function GeoSet(plan: Plan, kind: Kind, value: string): Option<RuleSet> {
    var tag := GeoTag(kind, value);
    if tag in plan.localSets then Some(RuleSet(tag, LocalFile(plan.localSets[tag])))
    else if kind in plan.customGeo then None
    else if '@' in value || '!' in value then None
    else Some(RuleSet(tag, Remote("binary", if kind.GeoSite? then GeoSiteSet(value) else GeoIpSet(value), Exit)))
  }

  /** A list URL's rule-set; a DNS rule may only use one known to hold domains alone. */
  function ListSet(plan: Plan, address: string, domainsOnly: bool): Option<RuleSet> {
    match plan.env.nativeFormat(address)
    case Some(format) =>
      if domainsOnly then None else Some(RuleSet(ListTag(address), Remote(format, AddressUrl(address), Exit)))
    case None =>
      if address !in plan.lists then None
      else
        var file := if domainsOnly then plan.lists[address].domainsPath else plan.lists[address].path;
        if file == "" then None
        else Some(RuleSet(if domainsOnly then ListDomainsTag(address) else ListTag(address), LocalFile(file)))
  }

  predicate UsesSets(kind: Kind) {
    kind.GeoSite? || kind.GeoIp? || kind.ListUrl?
  }

  function SetFor(plan: Plan, kind: Kind, value: string, domainsOnly: bool): Option<RuleSet> {
    if kind.ListUrl? then ListSet(plan, value, domainsOnly) else GeoSet(plan, kind, value)
  }

  /** The sets these values resolve to, in order; values without one are left out. */
  function SetsFor(plan: Plan, kind: Kind, values: seq<string>, domainsOnly: bool): seq<RuleSet> {
    Collect(value => SetFor(plan, kind, value, domainsOnly), values)
  }

  function TagsOf(sets: seq<RuleSet>): seq<SetTag> {
    Map((s: RuleSet) => s.tag, sets)
  }

  function DeclareOne(sets: seq<RuleSet>, added: RuleSet): seq<RuleSet> {
    if added.tag in TagsOf(sets) then sets else sets + [added]
  }

  /** Declaring a batch: each tag once, the first declaration wins. */
  function DeclareAll(sets: seq<RuleSet>, batch: seq<RuleSet>): seq<RuleSet> {
    if batch == [] then sets
    else DeclareOne(DeclareAll(sets, batch[..|batch| - 1]), batch[|batch| - 1])
  }

  lemma {:induction false} DeclareAllAppend(sets: seq<RuleSet>, a: seq<RuleSet>, b: seq<RuleSet>)
    ensures DeclareAll(sets, a + b) == DeclareAll(DeclareAll(sets, a), b)
  {
    if b == [] {
      assert a + b == a;
    } else {
      assert (a + b)[..|a + b| - 1] == a + b[..|b| - 1];
      DeclareAllAppend(sets, a, b[..|b| - 1]);
    }
  }

  // ------------------------------------------------------------- value lists

  /** A domain entry lower-cased, without its trailing dot; empty when nothing is left. */
  function DomainEntry(value: string): string {
    var domain := ToLower(Trim(value));
    if HasSuffix(domain, ".") then domain[..|domain| - 1] else domain
  }

  function ExactOfEntry(domain: string): Option<string> {
    if domain == "" || "*." <= domain || "." <= domain then None else Some(domain)
  }

  function SuffixOfEntry(domain: string): Option<string> {
    if domain == "" || domain == "*." then None
    else if "*." <= domain then Some(domain[1..])
    else if "." <= domain then Some(domain)
    else Some("." + domain)
  }

  function ExactOf(value: string): Option<string> { ExactOfEntry(DomainEntry(value)) }

  function SuffixOf(value: string): Option<string> { SuffixOfEntry(DomainEntry(value)) }

  function ExactDomains(values: seq<string>): seq<string> { Distinct(ExactOf, values) }

  function SuffixDomains(values: seq<string>): seq<string> { Distinct(SuffixOf, values) }

  /** A single port, as the core's 16-bit field takes it. */
  function SinglePort(value: string): Option<int> {
    var (low, high) := CutAt(value, '-');
    if high.Some? then None
    else match Atoi(Trim(low)) case Some(n) => Some(n % 65536) case None => None
  }

  /** A range, which the core spells with a colon. */
  function RangeText(value: string): Option<string> {
    var (low, high) := CutAt(value, '-');
    if high.None? then None else Some(Trim(low) + ":" + Trim(high.value))
  }

  function SinglePorts(values: seq<string>): seq<int> { Collect(SinglePort, values) }

  function PortRanges(values: seq<string>): seq<string> { Collect(RangeText, values) }

  function ProcessPaths(env: Env, values: seq<string>): seq<string> {
    Dedupe(Flatten(Map(env.pathsOf, values)))
  }

  function ProcessNames(env: Env, values: seq<string>): seq<string> {
    Dedupe(Flatten(Map(env.namesOf, values)) + Flatten(Map(env.baseNames, ProcessPaths(env, values))))
  }

  // ---------------------------------------------------------------- matching

  function AppsMatch(env: Env, values: seq<string>): Option<Match> {
    if env.android then Some(Plain(NO_FIELDS.(packageName := values), false))
    else
      var names, paths := ProcessNames(env, values), ProcessPaths(env, values);
      var byName := Plain(NO_FIELDS.(processName := names), false);
      var byPath := Plain(NO_FIELDS.(processPath := paths), false);
      if names != [] && paths != [] then Some(Combined(Any, [byName, byPath], false))
      else if paths != [] then Some(byPath)
      else if names != [] then Some(byName)
      else None
  }

  function NonEmpty(fields: Fields): Option<Match> {
    if fields == NO_FIELDS then None else Some(Plain(fields, false))
  }

  function BaseMatch(plan: Plan, kind: Kind, values: seq<string>): Option<Match> {
    match kind
    case Apps => AppsMatch(plan.env, values)
    case Domains => NonEmpty(NO_FIELDS.(domain := ExactDomains(values), domainSuffix := SuffixDomains(values)))
    case Ip => Some(Plain(NO_FIELDS.(ipCidr := values), false))
    case DomainRegex => Some(Plain(NO_FIELDS.(domainRegex := values), false))
    case Port => NonEmpty(NO_FIELDS.(port := SinglePorts(values), portRange := PortRanges(values)))
    case Protocol => Some(Plain(NO_FIELDS.(protocol := values), false))
    case Network => Some(Plain(NO_FIELDS.(network := values), false))
    case GeoSite => NonEmpty(NO_FIELDS.(ruleSet := TagsOf(SetsFor(plan, kind, values, false))))
    case GeoIp => NonEmpty(NO_FIELDS.(ruleSet := TagsOf(SetsFor(plan, kind, values, false))))
    case ListUrl => NonEmpty(NO_FIELDS.(ruleSet := TagsOf(SetsFor(plan, kind, values, false))))
    case _ => None
  }

  /** One condition as a core rule with no action, or nothing to emit. */
  function MatcherOf(plan: Plan, condition: Condition): Option<Match> {
    var values := Cleaned(plan.env.checks, condition.kind, condition.values);
    if values == [] then None
    else match BaseMatch(plan, condition.kind, values)
      case Some(base) => Some(if condition.invert then base.(invert := true) else base)
      case None => None
  }

  /** The rule-sets building a condition declares. */
  function SetsOfMatcher(plan: Plan, condition: Condition): seq<RuleSet> {
    if UsesSets(condition.kind)
    then SetsFor(plan, condition.kind, Cleaned(plan.env.checks, condition.kind, condition.values), false)
    else []
  }

  /** A condition that cannot be built is skipped, except that "all of" gives up. */
  function PartsOf(plan: Plan, conditions: seq<Condition>, all: bool): Option<seq<Match>> {
    CollectAll(condition => MatcherOf(plan, condition), conditions, all)
  }

  /** The sets declared on the way, up to where "all of" gives up. */
  function SetsOfParts(plan: Plan, conditions: seq<Condition>, all: bool): seq<RuleSet> {
    if conditions == [] then []
    else
      var init := conditions[..|conditions| - 1];
      if PartsOf(plan, init, all).None? then SetsOfParts(plan, init, all)
      else SetsOfParts(plan, init, all) + SetsOfMatcher(plan, conditions[|conditions| - 1])
  }

  lemma {:induction false} SetsOfRefusedParts(plan: Plan, conditions: seq<Condition>, n: nat)
    requires n <= |conditions| && PartsOf(plan, conditions[..n], true).None?
    ensures PartsOf(plan, conditions, true).None?
    ensures SetsOfParts(plan, conditions, true) == SetsOfParts(plan, conditions[..n], true)
  {
    if n < |conditions| {
      assert conditions[..|conditions| - 1][..n] == conditions[..n];
      SetsOfRefusedParts(plan, conditions[..|conditions| - 1], n);
    } else {
      assert conditions[..n] == conditions;
    }
  }

  /** A single part stands for itself; nothing to combine means nothing to emit. */
  function Assemble(mode: Mode, parts: seq<Match>, invert: bool): Option<Match> {
    if parts == [] then None
    else if |parts| == 1 && !invert then Some(parts[0])
    else Some(Combined(mode, parts, invert))
  }

  function PatternOf(plan: Plan, rule: Rule): Option<Match> {
    if !rule.kind.Logical? then MatcherOf(plan, Matcher(rule))
    else match PartsOf(plan, UsableConditions(plan.env.checks, rule.conditions), rule.mode == All)
      case None => None
      case Some(parts) => Assemble(rule.mode, parts, rule.invert)
  }

  function SetsOfRule(plan: Plan, rule: Rule): seq<RuleSet> {
    if !rule.kind.Logical? then SetsOfMatcher(plan, Matcher(rule))
    else SetsOfParts(plan, UsableConditions(plan.env.checks, rule.conditions), rule.mode == All)
  }

  // -------------------------------------------------------------- rule list

  /** A route rule and whose it is: a graph rule's id, the default's, or "" for the app's own. */
  datatype Entry = Entry(rule: RouteRule, owner: string)

  function OwnEntry(fields: Fields, action: RouteAction): Entry {
    Entry(RouteRule(Plain(fields, false), action), "")
  }

  function ProtocolsOf(checks: Checks, rule: Rule): seq<string> {
    Flatten(Map((c: Condition) => if c.kind == Protocol then c.values else [], Matchers(checks, rule)))
  }

  function ProtocolLists(checks: Checks, rules: seq<Rule>): seq<seq<string>> {
    Map(rule => ProtocolsOf(checks, rule), rules)
  }

  function Keep(name: string): Option<string> { Some(name) }

  /** The base sniffers, then every protocol a usable rule names. */
  function Sniffers(plan: Plan): seq<string> {
    var usable := UsableRules(plan.env.checks, plan.rules);
    Distinct(Keep, BASE_SNIFFERS + Flatten(ProtocolLists(plan.env.checks, usable)))
  }

  function BypassEntries(plan: Plan): seq<Entry> {
    if plan.bypass then [OwnEntry(NO_FIELDS.(inbound := [BYPASS_TAG]), Route(DirectOut))] else []
  }

  function BaseEntries(plan: Plan): seq<Entry> {
    [OwnEntry(NO_FIELDS.(port := [DNS_PORT]), HijackDns),
     OwnEntry(NO_FIELDS, Sniff(Sniffers(plan))),
     OwnEntry(NO_FIELDS.(ipIsPrivate := true), Route(DirectOut))]
  }

  function ServerEntries(plan: Plan, resolvedNames: seq<string>, serverDomains: seq<string>): seq<Entry> {
    (if plan.resolved != map[] then [OwnEntry(NO_FIELDS.(domain := resolvedNames), Resolve(DnsServers))] else [])
    + (if serverDomains != [] then [OwnEntry(NO_FIELDS.(domain := serverDomains), Route(DirectOut))] else [])
  }

  const LOCAL_ENTRIES := [
    OwnEntry(NO_FIELDS.(domainSuffix := LOCAL_SUFFIXES), Route(DirectOut)),
    OwnEntry(NO_FIELDS.(domainSuffix := CONNECTIVITY_DOMAINS), Route(DirectOut))]

  function LeadingEntries(plan: Plan, resolvedNames: seq<string>, serverDomains: seq<string>): seq<Entry> {
    BypassEntries(plan)
    + BaseEntries(plan)
    + ServerEntries(plan, resolvedNames, serverDomains)
    + LOCAL_ENTRIES
  }

  /** A rule's entry, if there is anything to emit. */
  function UserEntry(plan: Plan, rule: Rule): seq<Entry> {
    match PatternOf(plan, rule)
    case None => []
    case Some(pattern) => [Entry(RouteRule(pattern, ActionFor(plan, rule.action, rule.server)), rule.id)]
  }

  function UserEntries(plan: Plan, rules: seq<Rule>): seq<Entry> {
    if rules == [] then []
    else UserEntries(plan, rules[..|rules| - 1]) + UserEntry(plan, rules[|rules| - 1])
  }

  function SetsOfRules(plan: Plan, rules: seq<Rule>): seq<RuleSet> {
    if rules == [] then []
    else SetsOfRules(plan, rules[..|rules| - 1]) + SetsOfRule(plan, rules[|rules| - 1])
  }

  function WinboxEntries(plan: Plan): seq<Entry> {
    if SplitTunnelling(plan.rules, plan.defaultAction)
    then [OwnEntry(NO_FIELDS.(port := [WINBOX_PORT]), Route(Exit))] else []
  }

  /** route.final cannot reject, so a default of "block" or "drop" is a catch-all rule. */
  function DefaultEntries(plan: Plan): seq<Entry> {
    if plan.defaultAction.Block? || plan.defaultAction.Drop?
    then [Entry(RouteRule(Plain(NO_FIELDS, false), ActionFor(plan, plan.defaultAction, "")), DEFAULT_OWNER)] else []
  }

  function TrailingEntries(plan: Plan): seq<Entry> {
    WinboxEntries(plan) + [OwnEntry(NO_FIELDS.(onlyIpv6 := true), Reject(false))] + DefaultEntries(plan)
  }

  function RouteEntries(plan: Plan, resolvedNames: seq<string>, serverDomains: seq<string>): seq<Entry> {
    LeadingEntries(plan, resolvedNames, serverDomains)
    + UserEntries(plan, UsableRules(plan.env.checks, plan.rules))
    + TrailingEntries(plan)
  }

  function RulesOf(entries: seq<Entry>): seq<RouteRule> { Map((e: Entry) => e.rule, entries) }

  function OwnersOf(entries: seq<Entry>): seq<string> { Map((e: Entry) => e.owner, entries) }

  // ------------------------------------------------------- what DNS can use

  function DomainPart(plan: Plan, condition: Condition): Option<Match> {
    if !AboutDomains(condition) || condition.invert then None
    else if UsesSets(condition.kind)
    then NonEmpty(NO_FIELDS.(ruleSet := TagsOf(SetsFor(plan, condition.kind, condition.values, true))))
    else MatcherOf(plan, condition)
  }

  function SetsOfDomainPart(plan: Plan, condition: Condition): seq<RuleSet> {
    if AboutDomains(condition) && !condition.invert && UsesSets(condition.kind)
    then SetsFor(plan, condition.kind, condition.values, true)
    else []
  }

  function DomainPartsOf(plan: Plan, conditions: seq<Condition>): seq<Match> {
    Collect(condition => DomainPart(plan, condition), conditions)
  }

  function SetsOfDomainParts(plan: Plan, conditions: seq<Condition>): seq<RuleSet> {
    if conditions == [] then []
    else SetsOfDomainParts(plan, conditions[..|conditions| - 1]) + SetsOfDomainPart(plan, conditions[|conditions| - 1])
  }

  /** The part of a rule a DNS rule can use: its domain conditions, any of them. */
  function DomainPattern(plan: Plan, rule: Rule): Option<Match> {
    if !MatchesDomains(plan.env.checks, rule) then None
    else
      var parts := DomainPartsOf(plan, Matchers(plan.env.checks, rule));
      if parts == [] then None
      else if |parts| == 1 then Some(parts[0])
      else Some(Combined(Any, parts, false))
  }

  function SetsOfDomains(plan: Plan, rule: Rule): seq<RuleSet> {
    if MatchesDomains(plan.env.checks, rule) then SetsOfDomainParts(plan, Matchers(plan.env.checks, rule)) else []
  }
}
