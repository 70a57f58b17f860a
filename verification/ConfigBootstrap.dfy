// How names are resolved and servers reached in a built configuration: a
// server's own name never waits for the tunnel, and in a full tunnel nothing
// else is resolved outside it.

module ConfigBootstrap {
  import opened Wrappers
  import opened Sequences
  import opened Text
  import opened Models
  import opened Normalize
  import opened CoreConfig
  import opened RouteSpec
  import opened RouteMeaning
  import opened RouteTheorem
  import opened ConfigSpec
  import opened ConfigTags
  import opened DnsSection
  import opened ConfigClosed

  // --------------------------------------------------- which resolver answers

  /** DNS rules are taken in order, like route rules; the first that matches names the resolver. */
  function Asked(o: Oracle, sets: seq<RuleSet>, rules: seq<DnsRuleEntry>, final: DnsTag, conn: Conn): DnsTag {
    if rules == [] then final
    else if MatchHolds(o, sets, rules[0].pattern, conn, "") then rules[0].server
    else Asked(o, sets, rules[1..], final, conn)
  }

  lemma AskedOne(o: Oracle, sets: seq<RuleSet>, rule: DnsRuleEntry, rest: seq<DnsRuleEntry>, final: DnsTag, conn: Conn)
    ensures Asked(o, sets, [rule] + rest, final, conn) ==
      if MatchHolds(o, sets, rule.pattern, conn, "") then rule.server else Asked(o, sets, rest, final, conn)
  {
    assert ([rule] + rest)[1..] == rest;
  }

  predicate LocalHost(host: string) {
    exists s <- LOCAL_SUFFIXES :: HasSuffix(host, s)
  }

  lemma NamesHold(o: Oracle, sets: seq<RuleSet>, conn: Conn, names: seq<string>)
    ensures MatchHolds(o, sets, Plain(NO_FIELDS.(domainSuffix := LOCAL_SUFFIXES), false), conn, "") <==> LocalHost(conn.host)
    ensures names != [] ==> (MatchHolds(o, sets, Names(names), conn, "") <==> conn.host in names)
  {
    OwnFieldsHold(o, sets, conn, "", LOCAL_SUFFIXES);
    OwnFieldsHold(o, sets, conn, "", names);
  }

  /** What the rules ahead of the graph's decide about a name. */
  function BaseAnswer(plan: Plan, names: seq<string>, domains: seq<string>, host: string): Option<DnsTag> {
    if LocalHost(host) then Some(DnsLocal)
    else if plan.resolved != map[] && host in names then Some(DnsServers)
    else if host in domains then Some(DnsDirect)
    else None
  }

  lemma AskedBase(
      plan: Plan, o: Oracle, sets: seq<RuleSet>, names: seq<string>, domains: seq<string>,
      rest: seq<DnsRuleEntry>, final: DnsTag, conn: Conn)
    requires plan.resolved != map[] ==> names != []
    ensures Asked(o, sets, BaseDnsRules(plan, names, domains) + rest, final, conn) ==
      match BaseAnswer(plan, names, domains, conn.host) case Some(tag) => tag case None => Asked(o, sets, rest, final, conn)
  {
    NamesHold(o, sets, conn, names);
    NamesHold(o, sets, conn, domains);
    var third := (if domains != [] then [DnsRuleEntry(Names(domains), DnsDirect)] else []) + rest;
    var second := (if plan.resolved != map[] then [DnsRuleEntry(Names(names), DnsServers)] else []) + third;
    var first := DnsRuleEntry(Plain(NO_FIELDS.(domainSuffix := LOCAL_SUFFIXES), false), DnsLocal);
    assert BaseDnsRules(plan, names, domains) + rest == [first] + second;
    AskedOne(o, sets, first, second, final, conn);
    if plan.resolved != map[] {
      AskedOne(o, sets, DnsRuleEntry(Names(names), DnsServers), third, final, conn);
    } else {
      assert second == third;
    }
    if domains != [] {
      AskedOne(o, sets, DnsRuleEntry(Names(domains), DnsDirect), rest, final, conn);
    } else {
      assert third == rest;
    }
  }

  // ------------------------------------------------- what the graph's rules add

  /** A rule's own resolver, when it names one that can be read. */
  function OwnAddress(plan: Plan, r: Rule): Option<DnsAddress> {
    if r.dns == "" then None else plan.env.parseDns(r.dns)
  }

  /** Queries a rule decides go the way its traffic does, unless it names the system's own resolver. */
  predicate GoesAlong(plan: Plan, r: Rule, s: DnsServer) {
    if OwnAddress(plan, r).Some? && OwnAddress(plan, r).value.kind == "local"
      then s.kind == "local" && s.detour.None?
      else s.detour == Some(RuleOutbound(plan, r))
  }

  function ViaTag(out: OutTag): DnsTag { if out == Exit then DnsProxy else DnsVia(out) }

  /** The resolver tag a rule is given. */
  predicate Tagged(plan: Plan, custom: map<(string, OutTag), DnsTag>, r: Rule, tag: DnsTag) {
    var key := (r.dns, RuleOutbound(plan, r));
    if OwnAddress(plan, r).Some? then key in custom && custom[key] == tag else tag == ViaTag(RuleOutbound(plan, r))
  }

  /** An entry stands for one of the rules. */
  ghost predicate Told(plan: Plan, custom: map<(string, OutTag), DnsTag>, rules: seq<Rule>, e: DnsRuleEntry) {
    exists r <- rules :: DomainPattern(plan, r) == Some(e.pattern) && Tagged(plan, custom, r, e.server)
  }

  ghost predicate Made(plan: Plan, servers: seq<DnsServer>, key: (string, OutTag), tag: DnsTag) {
    && tag.DnsRule? && plan.env.parseDns(key.0).Some?
    && NamedServer(plan.env, tag, plan.env.parseDns(key.0).value, key.1) in servers
  }

  /** A resolver made while the rules are walked. */
  predicate Added(s: DnsServer) {
    s.tag.DnsRule? || (s.tag.DnsVia? && s.detour == Some(s.tag.out))
  }

  /** The section while a full tunnel's rules are walked, ahead of which `base` rules stand. */
  ghost predicate Traced(plan: Plan, rules: seq<Rule>, base: seq<DnsRuleEntry>, s: DnsState) {
    && BaseServers(plan) <= s.servers && base <= s.rules
    && (forall i :: |BaseServers(plan)| <= i < |s.servers| ==> Added(s.servers[i]))
    && (forall out :: out in s.viaTags ==> s.viaTags[out] == ViaTag(out))
    && (Exit in s.viaTags)
    && (forall key :: key in s.custom ==> Made(plan, s.servers, key, s.custom[key]))
    && (forall i :: |base| <= i < |s.rules| ==> Told(plan, s.custom, rules, s.rules[i]))
  }

  /** No traffic the graph proxies leaves directly. */
  ghost predicate ProxiesProxy(plan: Plan) {
    forall id :: id in plan.outboundFor ==> plan.outboundFor[id] != DirectOut
  }

  lemma ViaTraced(plan: Plan, rules: seq<Rule>, base: seq<DnsRuleEntry>, s: DnsState, out: OutTag)
    requires Traced(plan, rules, base, s)
    ensures var (next, tag) := Via(plan.dns, s, out);
      Traced(plan, rules, base, next) && tag == ViaTag(out) && next.rules == s.rules && next.custom == s.custom
  {
    var next := Via(plan.dns, s, out).0;
    forall key | key in s.custom
      ensures Made(plan, next.servers, key, s.custom[key])
    {
    }
  }

  lemma ToldStill(
      plan: Plan, custom: map<(string, OutTag), DnsTag>, more: map<(string, OutTag), DnsTag>, rules: seq<Rule>, e: DnsRuleEntry)
    requires Told(plan, custom, rules, e) && forall key :: key in custom ==> key in more && more[key] == custom[key]
    ensures Told(plan, more, rules, e)
  {
    var r :| r in rules && DomainPattern(plan, r) == Some(e.pattern) && Tagged(plan, custom, r, e.server);
    assert Tagged(plan, more, r, e.server);
  }

  lemma OwnTraced(plan: Plan, rules: seq<Rule>, base: seq<DnsRuleEntry>, s: DnsState, rule: Rule)
    requires Traced(plan, rules, base, s)
    ensures var (next, tag) := OwnResolver(plan, s, rule);
      Traced(plan, rules, base, next) && (tag.Some? <==> OwnAddress(plan, rule).Some?)
      && (tag.Some? ==> Tagged(plan, next.custom, rule, tag.value))
  {
    var next := OwnResolver(plan, s, rule).0;
    forall i | |base| <= i < |s.rules|
      ensures Told(plan, next.custom, rules, s.rules[i])
    {
      ToldStill(plan, s.custom, next.custom, rules, s.rules[i]);
    }
    forall key | key in s.custom
      ensures Made(plan, next.servers, key, s.custom[key])
    {
    }
  }

  lemma ResolverTraced(plan: Plan, rules: seq<Rule>, base: seq<DnsRuleEntry>, s: DnsState, rule: Rule)
    requires Traced(plan, rules, base, s) && rule.action == Proxy
    ensures var (next, tag) := RuleResolver(plan, s, rule);
      Traced(plan, rules, base, next) && tag.Some? && Tagged(plan, next.custom, rule, tag.value)
  {
    OwnTraced(plan, rules, base, s, rule);
    if OwnAddress(plan, rule).None? {
      ViaTraced(plan, rules, base, OwnResolver(plan, s, rule).0, RuleOutbound(plan, rule));
    }
  }

  lemma StepTraced(plan: Plan, final: DnsTag, rules: seq<Rule>, base: seq<DnsRuleEntry>, s: DnsState, rule: Rule)
    requires Traced(plan, rules, base, s) && rule in rules && rule.action == Proxy
    ensures Traced(plan, rules, base, DnsStep(plan, final, s, rule))
  {
    ResolverTraced(plan, rules, base, s, rule);
    var (next, tag) := RuleResolver(plan, s, rule);
    if DomainPattern(plan, rule).Some? {
      RuleTraced(plan, rules, base, next, rule, tag.value);
    }
  }

  lemma RuleTraced(plan: Plan, rules: seq<Rule>, base: seq<DnsRuleEntry>, s: DnsState, rule: Rule, tag: DnsTag)
    requires Traced(plan, rules, base, s) && rule in rules && DomainPattern(plan, rule).Some?
    requires Tagged(plan, s.custom, rule, tag)
    ensures Traced(plan, rules, base, s.(rules := s.rules + [DnsRuleEntry(DomainPattern(plan, rule).value, tag)]))
  {
  }

  lemma {:induction false} FoldTraced(
      plan: Plan, final: DnsTag, all: seq<Rule>, base: seq<DnsRuleEntry>, s: DnsState, rules: seq<Rule>)
    requires Traced(plan, all, base, s)
    requires forall r <- rules :: r in all && r.action == Proxy
    ensures Traced(plan, all, base, DnsFold(plan, final, s, rules))
  {
    if rules != [] {
      var init, last := rules[..|rules| - 1], rules[|rules| - 1];
      assert last in rules && forall r <- init :: r in rules;
      FoldTraced(plan, final, all, base, s, init);
      StepTraced(plan, final, all, base, DnsFold(plan, final, s, init), last);
    }
  }

  lemma {:induction false} FoldKeepsRules(plan: Plan, final: DnsTag, s: DnsState, rules: seq<Rule>)
    ensures s.rules <= DnsFold(plan, final, s, rules).rules
  {
    if rules != [] {
      FoldKeepsRules(plan, final, s, rules[..|rules| - 1]);
      StepKeepsRules(plan, final, DnsFold(plan, final, s, rules[..|rules| - 1]), rules[|rules| - 1]);
    }
  }

  lemma StepKeepsRules(plan: Plan, final: DnsTag, s: DnsState, rule: Rule)
    ensures s.rules <= DnsStep(plan, final, s, rule).rules
  {
  }

  lemma BaseRulesLead(plan: Plan, names: seq<string>, domains: seq<string>)
    ensures BaseDnsRules(plan, names, domains) <= DnsOf(plan, names, domains).rules
  {
    var (start, final) := StartDns(plan, names, domains);
    assert start.rules == BaseDnsRules(plan, names, domains);
    FoldKeepsRules(plan, final, start, UsableRules(plan.env.checks, plan.rules));
  }

  // ------------------------------------------------------------ the theorems

  /** The resolver with a tag reaches no server to answer. */
  ghost predicate AnswersAlone(servers: seq<DnsServer>, tag: DnsTag) {
    HasServer(servers, tag) && forall s <- servers :: s.tag == tag ==> s.detour.None?
  }

  lemma BaseAnswersAlone(plan: Plan, servers: seq<DnsServer>, tag: DnsTag)
    requires BaseServers(plan) <= servers && DistinctKeys(servers, DnsTagOf)
    requires tag == DnsLocal || tag == DnsDirect || (tag == DnsServers && plan.resolved != map[])
    ensures AnswersAlone(servers, tag)
  {
    var i := if tag == DnsDirect then 1 else if tag == DnsLocal then 2 else 3;
    assert servers[i] == BaseServers(plan)[i] && servers[i] in servers;
    forall s <- servers | s.tag == tag
      ensures s == servers[i]
    {
      var k :| 0 <= k < |servers| && servers[k] == s;
      assert DnsTagOf(servers[k]) == DnsTagOf(servers[i]);
    }
  }

  lemma {:induction false} FoldKeepsServers(plan: Plan, final: DnsTag, s: DnsState, rules: seq<Rule>)
    ensures s.servers <= DnsFold(plan, final, s, rules).servers
  {
    if rules != [] {
      FoldKeepsServers(plan, final, s, rules[..|rules| - 1]);
      StepKeepsServers(plan, final, DnsFold(plan, final, s, rules[..|rules| - 1]), rules[|rules| - 1]);
    }
  }

  lemma BaseServersLead(plan: Plan, names: seq<string>, domains: seq<string>)
    ensures BaseServers(plan) <= DnsOf(plan, names, domains).servers
  {
    var (start, final) := StartDns(plan, names, domains);
    assert BaseServers(plan) <= start.servers;
    FoldKeepsServers(plan, final, start, UsableRules(plan.env.checks, plan.rules));
  }

  lemma NameAnswered(
      plan: Plan, o: Oracle, sets: seq<RuleSet>, dns: Dns, names: seq<string>, domains: seq<string>, conn: Conn)
    requires (plan.resolved != map[] ==> names != []) && conn.host in domains
    requires BaseDnsRules(plan, names, domains) <= dns.rules
    requires BaseServers(plan) <= dns.servers && DistinctKeys(dns.servers, DnsTagOf)
    ensures var tag := Asked(o, sets, dns.rules, dns.final, conn);
      Some(tag) == BaseAnswer(plan, names, domains, conn.host) && AnswersAlone(dns.servers, tag)
  {
    var base := BaseDnsRules(plan, names, domains);
    assert dns.rules == base + dns.rules[|base|..];
    AskedBase(plan, o, sets, names, domains, dns.rules[|base|..], dns.final, conn);
    BaseAnswersAlone(plan, dns.servers, BaseAnswer(plan, names, domains, conn.host).value);
  }

  /** A server's own name is answered ahead of every rule of the graph, by a resolver that needs no server. */
  lemma ServerNameResolves(plan: Plan, o: Oracle, sets: seq<RuleSet>, names: seq<string>, domains: seq<string>, conn: Conn)
    requires (plan.resolved != map[] ==> names != []) && conn.host in domains
    ensures var dns := DnsOf(plan, names, domains);
      var tag := Asked(o, sets, dns.rules, dns.final, conn);
      Some(tag) == BaseAnswer(plan, names, domains, conn.host) && AnswersAlone(dns.servers, tag)
  {
    BaseRulesLead(plan, names, domains);
    BaseServersLead(plan, names, domains);
    DnsClosed(plan, names, domains);
    NameAnswered(plan, o, sets, DnsOf(plan, names, domains), names, domains, conn);
  }

  /** The first rule that matches is one that matches. */
  lemma {:induction false} AskedAmong(o: Oracle, sets: seq<RuleSet>, rules: seq<DnsRuleEntry>, final: DnsTag, conn: Conn)
    ensures var tag := Asked(o, sets, rules, final, conn);
      tag == final || exists k :: 0 <= k < |rules| && rules[k].server == tag && MatchHolds(o, sets, rules[k].pattern, conn, "")
  {
    if rules != [] && !MatchHolds(o, sets, rules[0].pattern, conn, "") {
      AskedAmong(o, sets, rules[1..], final, conn);
      var tag := Asked(o, sets, rules, final, conn);
      if tag != final {
        var k :| 0 <= k < |rules| - 1 && rules[1..][k].server == tag && MatchHolds(o, sets, rules[1..][k].pattern, conn, "");
        assert rules[k + 1] == rules[1..][k];
      }
    }
  }

  lemma FullTunnelState(plan: Plan, names: seq<string>, domains: seq<string>)
    requires !SplitTunnelling(plan.rules, plan.defaultAction)
    ensures var usable := UsableRules(plan.env.checks, plan.rules);
      var (start, final) := StartDns(plan, names, domains);
      && Traced(plan, usable, BaseDnsRules(plan, names, domains), DnsFold(plan, final, start, usable))
      && final == ViaTag(FinalOutbound(plan))
  {
    var usable := UsableRules(plan.env.checks, plan.rules);
    var base := DnsState(BaseServers(plan), BaseDnsRules(plan, names, domains), map[Exit := DnsProxy], map[]);
    ViaTraced(plan, usable, base.rules, base, FinalOutbound(plan));
    UsableRulesMembers(plan.env.checks, plan.rules);
    var (start, final) := StartDns(plan, names, domains);
    FoldTraced(plan, final, usable, base.rules, start, usable);
  }

  /** A name is put to a resolver by a rule it matches, the way that rule sends traffic; or the way of all the rest. */
  ghost predicate PutAlong(plan: Plan, o: Oracle, sets: seq<RuleSet>, conn: Conn, s: DnsServer) {
    || s.detour == Some(FinalOutbound(plan))
    || exists r <- UsableRules(plan.env.checks, plan.rules) ::
         && DomainPattern(plan, r).Some? && MatchHolds(o, sets, DomainPattern(plan, r).value, conn, "")
         && GoesAlong(plan, r, s) && RuleOutbound(plan, r) != DirectOut
  }

  /**
   * In a full tunnel, every name but the local network's and the servers' own
   * is put to a resolver behind a server: the one the name's traffic is sent by,
   * unless the very rule the name matches asks for the system resolver.
   */
  lemma FullTunnelNeverLeaks(
      plan: Plan, o: Oracle, sets: seq<RuleSet>, names: seq<string>, domains: seq<string>, conn: Conn, s: DnsServer)
    requires !SplitTunnelling(plan.rules, plan.defaultAction) && ProxiesProxy(plan)
    requires plan.resolved != map[] ==> names != []
    requires BaseAnswer(plan, names, domains, conn.host).None?
    requires var dns := DnsOf(plan, names, domains);
      s in dns.servers && s.tag == Asked(o, sets, dns.rules, dns.final, conn)
    ensures PutAlong(plan, o, sets, conn, s) && FinalOutbound(plan) != DirectOut
  {
    var usable := UsableRules(plan.env.checks, plan.rules);
    var (start, final) := StartDns(plan, names, domains);
    FullTunnelState(plan, names, domains);
    DnsClosed(plan, names, domains);
    AskedBeyondBase(plan, o, sets, names, domains, conn);
    NamesGoAlong(plan, o, sets, BaseDnsRules(plan, names, domains), DnsFold(plan, final, start, usable), conn, s);
  }

  /** Where the rules ahead of the graph's say nothing, the others are asked. */
  lemma AskedBeyondBase(plan: Plan, o: Oracle, sets: seq<RuleSet>, names: seq<string>, domains: seq<string>, conn: Conn)
    requires plan.resolved != map[] ==> names != []
    requires BaseAnswer(plan, names, domains, conn.host).None?
    ensures var dns, base := DnsOf(plan, names, domains), BaseDnsRules(plan, names, domains);
      base <= dns.rules
      && Asked(o, sets, dns.rules, dns.final, conn) == Asked(o, sets, dns.rules[|base|..], dns.final, conn)
  {
    var dns, base := DnsOf(plan, names, domains), BaseDnsRules(plan, names, domains);
    BaseRulesLead(plan, names, domains);
    assert dns.rules == base + dns.rules[|base|..];
    AskedBase(plan, o, sets, names, domains, dns.rules[|base|..], dns.final, conn);
  }

  lemma NamesGoAlong(
      plan: Plan, o: Oracle, sets: seq<RuleSet>, base: seq<DnsRuleEntry>, end: DnsState, conn: Conn, s: DnsServer)
    requires !SplitTunnelling(plan.rules, plan.defaultAction) && ProxiesProxy(plan)
    requires Traced(plan, UsableRules(plan.env.checks, plan.rules), base, end) && DistinctKeys(end.servers, DnsTagOf)
    requires s in end.servers && s.tag == Asked(o, sets, end.rules[|base|..], ViaTag(FinalOutbound(plan)), conn)
    ensures PutAlong(plan, o, sets, conn, s) && FinalOutbound(plan) != DirectOut
  {
    if s.tag == ViaTag(FinalOutbound(plan)) {
      ViaTagLeads(plan, base, end, FinalOutbound(plan), s);
    } else {
      var r := AskedByRule(plan, o, sets, base, end, conn, s.tag);
      NothingDirect(plan, r);
      TaggedGoesAlong(plan, base, end, r, s);
    }
  }

  lemma NothingDirect(plan: Plan, r: Rule)
    requires !SplitTunnelling(plan.rules, plan.defaultAction) && ProxiesProxy(plan)
    requires r in UsableRules(plan.env.checks, plan.rules)
    ensures RuleOutbound(plan, r) != DirectOut
  {
    UsableRulesMembers(plan.env.checks, plan.rules);
  }

  lemma AskedByRule(
      plan: Plan, o: Oracle, sets: seq<RuleSet>, base: seq<DnsRuleEntry>, end: DnsState, conn: Conn, tag: DnsTag)
      returns (r: Rule)
    requires Traced(plan, UsableRules(plan.env.checks, plan.rules), base, end)
    requires tag == Asked(o, sets, end.rules[|base|..], ViaTag(FinalOutbound(plan)), conn) != ViaTag(FinalOutbound(plan))
    ensures r in UsableRules(plan.env.checks, plan.rules) && Tagged(plan, end.custom, r, tag)
    ensures DomainPattern(plan, r).Some? && MatchHolds(o, sets, DomainPattern(plan, r).value, conn, "")
  {
    var rest := end.rules[|base|..];
    AskedAmong(o, sets, rest, ViaTag(FinalOutbound(plan)), conn);
    var k :| 0 <= k < |rest| && rest[k].server == tag && MatchHolds(o, sets, rest[k].pattern, conn, "");
    assert rest[k] == end.rules[|base| + k];
    r :| r in UsableRules(plan.env.checks, plan.rules) && DomainPattern(plan, r) == Some(rest[k].pattern)
      && Tagged(plan, end.custom, r, rest[k].server);
  }

  lemma ViaTagLeads(plan: Plan, base: seq<DnsRuleEntry>, end: DnsState, out: OutTag, s: DnsServer)
    requires Traced(plan, UsableRules(plan.env.checks, plan.rules), base, end) && s in end.servers && s.tag == ViaTag(out)
    ensures s.detour == Some(out)
  {
    var i :| 0 <= i < |end.servers| && end.servers[i] == s;
    if i < |BaseServers(plan)| {
      assert s == BaseServers(plan)[i];
    }
  }

  lemma TaggedGoesAlong(plan: Plan, base: seq<DnsRuleEntry>, end: DnsState, r: Rule, s: DnsServer)
    requires Traced(plan, UsableRules(plan.env.checks, plan.rules), base, end) && DistinctKeys(end.servers, DnsTagOf)
    requires s in end.servers && Tagged(plan, end.custom, r, s.tag) && RuleOutbound(plan, r) != DirectOut
    ensures GoesAlong(plan, r, s)
  {
    if OwnAddress(plan, r).Some? {
      var key := (r.dns, RuleOutbound(plan, r));
      var named := NamedServer(plan.env, s.tag, OwnAddress(plan, r).value, key.1);
      assert Made(plan, end.servers, key, s.tag);
      var i :| 0 <= i < |end.servers| && end.servers[i] == s;
      var j :| 0 <= j < |end.servers| && end.servers[j] == named;
      assert DnsTagOf(end.servers[i]) == DnsTagOf(end.servers[j]);
    } else {
      ViaTagLeads(plan, base, end, RuleOutbound(plan, r), s);
    }
  }

  // --------------------------------------------------- the configuration built

  lemma PlanProxies(request: Request, l: Layout)
    requires LaidOut(request, l)
    ensures ProxiesProxy(PlanOf(request, l))
  {
    forall id | id in l.servers.outboundFor
      ensures l.servers.outboundFor[id] != DirectOut
    {
      if l.servers.outboundFor[id] != Exit {
        var p :| p in l.servers.placed && p.outbound.tag == l.servers.outboundFor[id];
        var i :| 0 <= i < |l.servers.placed| && l.servers.placed[i] == p;
      }
    }
  }

  lemma {:induction false} SortedMembers(values: seq<string>, x: string)
    ensures |Sorted(values)| == |values|
    ensures x in Sorted(values) <==> x in values
  {
    if values != [] {
      SortedMembers(values[..|values| - 1], x);
      InsertMembers(Sorted(values[..|values| - 1]), values[|values| - 1], x);
    }
  }

  lemma {:induction false} InsertMembers(s: seq<string>, value: string, x: string)
    ensures |InsertSorted(s, value)| == |s| + 1
    ensures x in InsertSorted(s, value) <==> x in s || x == value
  {
    if s != [] && !Before(value, s[0]) {
      InsertMembers(s[1..], value, x);
    }
  }

  /** The looked-up names are the keys of the answers, so there are some when there are answers. */
  lemma ResolvedAreNamed(request: Request, domains: seq<string>, host: string)
    ensures host in ResolvedNames(Resolved(request, domains), domains) <==> host in Resolved(request, domains)
    ensures Resolved(request, domains) != map[] ==> ResolvedNames(Resolved(request, domains), domains) != []
  {
    var resolved := Resolved(request, domains);
    var keep := (d: string) => if d in resolved then Some(d) else None;
    SortedMembers(Collect(keep, domains), host);
    CollectMembers(keep, domains, host);
    if resolved != map[] {
      var d :| d in resolved;
      assert d in domains;
      CollectMembers(keep, domains, d);
      assert keep(d) == Some(d);
    }
  }

  /** The address an outbound dials, when it is a name, is among the servers' names. */
  lemma DialedNameListed(request: Request, l: Layout, dialed: Outbound)
    requires LaidOut(request, l)
    requires dialed in WiredOutbounds(request, l) && HostnameOf(request.env, dialed).Some?
    ensures HostnameOf(request.env, dialed).value in DomainsOf(request, l)
  {
    var resolved, placed := Resolved(request, DomainsOf(request, l)), Placements(request, l);
    var outbounds, endpoints := OutboundsOf(placed), EndpointsOf(placed);
    var k :| 0 <= k < |outbounds| && Wired(resolved, outbounds)[k] == dialed;
    var host := HostnameOf(request.env, dialed).value;
    assert outbounds[k] in outbounds + endpoints && HostnameOf(request.env, outbounds[k]) == Some(host);
    HostListed(request, outbounds, endpoints, outbounds[k], host);
  }

  lemma HostListed(request: Request, outbounds: seq<Outbound>, endpoints: seq<Outbound>, o: Outbound, host: string)
    requires o in outbounds + endpoints && HostnameOf(request.env, o) == Some(host)
    ensures host in ServerDomains(request, outbounds, endpoints)
  {
    var hostOf := (x: Outbound) => HostnameOf(request.env, x);
    var found := Collect(hostOf, outbounds + endpoints);
    CollectMembers(hostOf, outbounds + endpoints, host);
    assert hostOf(o) == Some(host);
    DedupeMembers(found, host);
    if request.engine.Some? {
      DedupeMembers(Dedupe(found) + request.engineDomains, host);
    }
  }

  lemma ServerNameGoesDirect(plan: Plan, o: Oracle, sets: seq<RuleSet>, names: seq<string>, domains: seq<string>, conn: Conn)
    requires conn.host in domains && conn.port != DNS_PORT
    ensures Run(o, sets, RulesOf(RouteEntries(plan, names, domains)), FinalOutbound(plan), conn, "") == Goes(DirectOut)
  {
    var usable := UsableRules(plan.env.checks, plan.rules);
    RulesOfThree(LeadingEntries(plan, names, domains), UserEntries(plan, usable), TrailingEntries(plan));
    RunLeading(plan, o, sets, names, domains,
      RulesOf(UserEntries(plan, usable)) + RulesOf(TrailingEntries(plan)), FinalOutbound(plan), conn);
  }

  /** A name is answered by a resolver that reaches no server, and traffic to it leaves directly. */
  ghost predicate ReachedOutside(
      o: Oracle, sets: seq<RuleSet>, dns: Dns, rules: seq<RouteRule>, final: OutTag, conn: Conn)
  {
    && AnswersAlone(dns.servers, Asked(o, sets, dns.rules, dns.final, conn))
    && (conn.port != DNS_PORT ==> Run(o, sets, rules, final, conn, "") == Goes(DirectOut))
  }

  lemma NameReachedOutside(request: Request, l: Layout, o: Oracle, sets: seq<RuleSet>, conn: Conn)
    requires LaidOut(request, l) && conn.host in DomainsOf(request, l)
    ensures var plan, names, domains := PlanOf(request, l), NamesOf(request, l), DomainsOf(request, l);
      ReachedOutside(o, sets, DnsOf(plan, names, domains), RulesOf(RouteEntries(plan, names, domains)), FinalOutbound(plan), conn)
  {
    var plan, names, domains := PlanOf(request, l), NamesOf(request, l), DomainsOf(request, l);
    ResolvedAreNamed(request, domains, conn.host);
    ServerNameResolves(plan, o, sets, names, domains, conn);
    if conn.port != DNS_PORT {
      ServerNameGoesDirect(plan, o, sets, names, domains, conn);
    }
  }

  /**
   * Bringing the tunnel up never needs the tunnel: the name of any outbound's
   * server, which the core knows in lower case, is answered, ahead of every rule
   * of the graph, by a resolver that reaches nothing through a server, and
   * traffic to it leaves directly, if the name is listed; as it is when the
   * address is written in lower case.
   */
  lemma ServersAreReachedOutside(request: Request, l: Layout, o: Oracle, dialed: Outbound, address: string, conn: Conn)
    requires LayoutOf(request) == Some(l)
    requires dialed in WiredOutbounds(request, l) && HostnameOf(request.env, dialed) == Some(address)
    requires conn.host == ToLower(address)
    ensures l.graph.rules.Some?
    ensures address in DomainsOf(request, l)
    ensures var c := ConfigOf(request, l);
      conn.host in DomainsOf(request, l) ==> ReachedOutside(o, c.sets, c.dns, c.rules, c.final, conn)
  {
    LayoutIsLaidOut(request);
    DialedNameListed(request, l, dialed);
    if conn.host in DomainsOf(request, l) {
      NameReachedOutside(request, l, o, SetsOf(PlanOf(request, l), NamesOf(request, l), DomainsOf(request, l)), conn);
    }
  }

  /** No usable rule asks for the system's own resolver. */
  predicate NobodyNamesLocal(plan: Plan) {
    forall r <- UsableRules(plan.env.checks, plan.rules) ::
      OwnAddress(plan, r).Some? ==> OwnAddress(plan, r).value.kind != "local"
  }

  /** The resolver asked is declared. */
  lemma AskedIsDeclared(plan: Plan, o: Oracle, sets: seq<RuleSet>, names: seq<string>, domains: seq<string>, conn: Conn)
    ensures var dns := DnsOf(plan, names, domains); HasServer(dns.servers, Asked(o, sets, dns.rules, dns.final, conn))
  {
    var dns := DnsOf(plan, names, domains);
    DnsClosed(plan, names, domains);
    AskedAmong(o, sets, dns.rules, dns.final, conn);
    if Asked(o, sets, dns.rules, dns.final, conn) != dns.final {
      var k :| 0 <= k < |dns.rules| && dns.rules[k].server == Asked(o, sets, dns.rules, dns.final, conn);
      assert dns.rules[k] in dns.rules;
    }
  }

  /**
   * The exact condition, in a full tunnel whose rules leave the system's resolver
   * alone: a name outside the local network is answered by a resolver that needs
   * no server exactly when it is listed. A server's address typed with capitals
   * is listed as typed, and so not under the name the core knows.
   */
  lemma OnlyListedNames(request: Request, l: Layout, o: Oracle, conn: Conn)
    requires LayoutOf(request) == Some(l)
    requires l.graph.rules.Some? && !SplitTunnelling(l.graph.rules.value, l.graph.defaultAction)
    requires NobodyNamesLocal(PlanOf(request, l)) && !LocalHost(conn.host)
    ensures var c := ConfigOf(request, l);
      AnswersAlone(c.dns.servers, Asked(o, c.sets, c.dns.rules, c.dns.final, conn)) <==> conn.host in DomainsOf(request, l)
  {
    LayoutIsLaidOut(request);
    var plan, names, domains := PlanOf(request, l), NamesOf(request, l), DomainsOf(request, l);
    if conn.host in domains {
      NameReachedOutside(request, l, o, SetsOf(plan, names, domains), conn);
    } else {
      UnlistedNeedsServer(request, l, o, conn);
    }
  }

  lemma UnlistedNeedsServer(request: Request, l: Layout, o: Oracle, conn: Conn)
    requires LayoutOf(request) == Some(l)
    requires l.graph.rules.Some? && !SplitTunnelling(l.graph.rules.value, l.graph.defaultAction)
    requires NobodyNamesLocal(PlanOf(request, l)) && !LocalHost(conn.host) && conn.host !in DomainsOf(request, l)
    ensures var c := ConfigOf(request, l); !AnswersAlone(c.dns.servers, Asked(o, c.sets, c.dns.rules, c.dns.final, conn))
  {
    LayoutIsLaidOut(request);
    var plan, c := PlanOf(request, l), ConfigOf(request, l);
    AskedIsDeclared(plan, o, c.sets, NamesOf(request, l), DomainsOf(request, l), conn);
    var tag := Asked(o, c.sets, c.dns.rules, c.dns.final, conn);
    var s :| s in c.dns.servers && s.tag == tag;
    BuiltTunnelNeverLeaks(request, l, o, conn, s);
    AlongNeedsServer(plan, o, c.sets, conn, s);
  }

  lemma AlongNeedsServer(plan: Plan, o: Oracle, sets: seq<RuleSet>, conn: Conn, s: DnsServer)
    requires PutAlong(plan, o, sets, conn, s) && NobodyNamesLocal(plan)
    ensures s.detour.Some?
  {
  }

  /** The whole configuration: what a connection gets from the document is what the graph says. */
  lemma BuiltConfigRoutes(request: Request, l: Layout, o: Oracle, conn: Conn)
    requires LayoutOf(request) == Some(l)
    ensures l.graph.rules.Some?
    ensures AllExact(PlanOf(request, l)) ==>
      var plan, c := PlanOf(request, l), ConfigOf(request, l);
      Run(o, c.sets, c.rules, c.final, conn, "") ==
        match AppDecision(plan, DomainsOf(request, l), conn)
        case Some(outcome) => outcome
        case None => if FirstHolding(plan, o, plan.rules, conn).Some? then Decide(plan, o, conn) else Unmatched(plan, conn)
  {
    LayoutIsLaidOut(request);
    if AllExact(PlanOf(request, l)) {
      var plan, names, domains := PlanOf(request, l), NamesOf(request, l), DomainsOf(request, l);
      SetsDeclaredOnce(plan, names, domains);
      CompilationPreservesMeaning(plan, o, SetsOf(plan, names, domains), names, domains, conn);
    }
  }

  /** A built full tunnel: names leave through a server. */
  lemma BuiltTunnelNeverLeaks(request: Request, l: Layout, o: Oracle, conn: Conn, s: DnsServer)
    requires LayoutOf(request) == Some(l)
    requires l.graph.rules.Some? && !SplitTunnelling(l.graph.rules.value, l.graph.defaultAction)
    requires !LocalHost(conn.host) && conn.host !in DomainsOf(request, l)
    requires var c := ConfigOf(request, l);
      s in c.dns.servers && s.tag == Asked(o, c.sets, c.dns.rules, c.dns.final, conn)
    ensures PutAlong(PlanOf(request, l), o, ConfigOf(request, l).sets, conn, s) && FinalOutbound(PlanOf(request, l)) != DirectOut
  {
    LayoutIsLaidOut(request);
    var plan, names, domains := PlanOf(request, l), NamesOf(request, l), DomainsOf(request, l);
    PlanProxies(request, l);
    ResolvedAreNamed(request, domains, conn.host);
    assert conn.host !in names;
    FullTunnelNeverLeaks(plan, o, SetsOf(plan, names, domains), names, domains, conn, s);
  }
}
