// The DNS section names only resolvers it declares (internal/sbconfig/build.go).

module DnsSection {
  import opened Wrappers
  import opened Sequences
  import opened CoreConfig
  import opened Models
  import opened RouteSpec
  import opened ConfigSpec
  import opened ConfigTags

  function DnsTagOf(s: DnsServer): DnsTag { s.tag }

  ghost predicate HasServer(servers: seq<DnsServer>, tag: DnsTag) {
    exists s <- servers :: s.tag == tag
  }

  /** An outbound the graph can send traffic to. */
  ghost predicate KnownOut(plan: Plan, out: OutTag) {
    out == Exit || out == DirectOut || out in plan.outboundFor.Values
  }

  ghost predicate ServerSound(plan: Plan, s: DnsServer) {
    && (s.detour.Some? ==> KnownOut(plan, s.detour.value))
    && (s.resolver.Some? ==> s.resolver.value == DnsDirect)
  }

  /** Which resolver tags are in use, and that each is declared once. */
  ghost predicate ServersSound(plan: Plan, s: DnsState) {
    && DistinctKeys(s.servers, DnsTagOf)
    && (forall x <- s.servers :: ServerSound(plan, x))
    && HasServer(s.servers, DnsProxy) && HasServer(s.servers, DnsDirect) && HasServer(s.servers, DnsLocal)
    && (plan.resolved != map[] ==> HasServer(s.servers, DnsServers))
    && (forall x <- s.servers :: x.tag.DnsVia? ==> x.tag.out in s.viaTags)
    && (forall x <- s.servers :: x.tag.DnsRule? ==> x.tag.n <= |s.custom|)
    && (forall out :: out in s.viaTags ==> HasServer(s.servers, s.viaTags[out]))
    && (forall key :: key in s.custom ==> HasServer(s.servers, s.custom[key]))
  }

  ghost predicate RulesSound(s: DnsState) {
    forall r <- s.rules :: HasServer(s.servers, r.server)
  }

  lemma MoreServers(servers: seq<DnsServer>, added: DnsServer, tag: DnsTag)
    ensures HasServer(servers, tag) ==> HasServer(servers + [added], tag)
    ensures HasServer(servers + [added], added.tag)
  {
    if x :| x in servers && x.tag == tag {
      assert x in servers + [added];
    }
    assert added in servers + [added];
  }

  /** Declaring one more resolver under a tag not in use keeps everything declared once. */
  lemma AddServer(plan: Plan, s: DnsState, added: DnsServer, viaTags: map<OutTag, DnsTag>, custom: map<(string, OutTag), DnsTag>)
    requires ServersSound(plan, s) && ServerSound(plan, added)
    requires forall x <- s.servers :: x.tag != added.tag
    requires added.tag.DnsVia? ==> added.tag.out in viaTags
    requires added.tag.DnsRule? ==> added.tag.n <= |custom|
    requires forall out :: out in s.viaTags ==> out in viaTags
    requires forall out :: out in viaTags ==> viaTags[out] == added.tag || (out in s.viaTags && viaTags[out] == s.viaTags[out])
    requires |s.custom| <= |custom|
    requires forall key :: key in custom ==> custom[key] == added.tag || (key in s.custom && custom[key] == s.custom[key])
    ensures ServersSound(plan, s.(servers := s.servers + [added], viaTags := viaTags, custom := custom))
    ensures RulesSound(s) ==> RulesSound(s.(servers := s.servers + [added], viaTags := viaTags, custom := custom))
  {
    forall tag
      ensures HasServer(s.servers, tag) ==> HasServer(s.servers + [added], tag)
    {
      MoreServers(s.servers, added, tag);
    }
    MoreServers(s.servers, added, added.tag);
  }

  lemma ViaSound(plan: Plan, s: DnsState, out: OutTag)
    requires ServersSound(plan, s) && RulesSound(s) && KnownOut(plan, out)
    ensures var (next, tag) := Via(plan.dns, s, out);
      ServersSound(plan, next) && RulesSound(next) && HasServer(next.servers, tag)
  {
    if out !in s.viaTags {
      AddServer(plan, s, ViaServer(plan.dns, DnsVia(out), out), s.viaTags[out := DnsVia(out)], s.custom);
      MoreServers(s.servers, ViaServer(plan.dns, DnsVia(out), out), DnsVia(out));
    }
  }

  lemma NamedServerSound(plan: Plan, tag: DnsTag, address: DnsAddress, out: OutTag)
    requires KnownOut(plan, out)
    ensures ServerSound(plan, NamedServer(plan.env, tag, address, out)) && NamedServer(plan.env, tag, address, out).tag == tag
  {
  }

  lemma AddNamedServer(plan: Plan, s: DnsState, key: (string, OutTag), added: DnsServer)
    requires ServersSound(plan, s) && RulesSound(s) && ServerSound(plan, added)
    requires key !in s.custom && added.tag == DnsRule(|s.custom| + 1)
    ensures var next := s.(servers := s.servers + [added], custom := s.custom[key := added.tag]);
      ServersSound(plan, next) && RulesSound(next) && HasServer(next.servers, added.tag)
  {
    assert |s.custom[key := added.tag]| == |s.custom| + 1;
    AddServer(plan, s, added, s.viaTags, s.custom[key := added.tag]);
    MoreServers(s.servers, added, added.tag);
  }

  lemma RuleOutboundKnown(plan: Plan, rule: Rule)
    ensures KnownOut(plan, RuleOutbound(plan, rule)) && KnownOut(plan, FinalOutbound(plan))
  {
  }

  /** A sound section in which a resolver was chosen. */
  ghost predicate Chosen(plan: Plan, s: DnsState, tag: Option<DnsTag>) {
    ServersSound(plan, s) && RulesSound(s) && (tag.Some? ==> HasServer(s.servers, tag.value))
  }

  lemma NewResolverSound(plan: Plan, s: DnsState, key: (string, OutTag), address: DnsAddress)
    requires ServersSound(plan, s) && RulesSound(s) && key !in s.custom && KnownOut(plan, key.1)
    ensures var tag := DnsRule(|s.custom| + 1);
      Chosen(plan, s.(servers := s.servers + [NamedServer(plan.env, tag, address, key.1)], custom := s.custom[key := tag]),
             Some(tag))
  {
    var tag := DnsRule(|s.custom| + 1);
    NamedServerSound(plan, tag, address, key.1);
    AddNamedServer(plan, s, key, NamedServer(plan.env, tag, address, key.1));
  }

  lemma SeenResolverSound(plan: Plan, s: DnsState, key: (string, OutTag))
    requires ServersSound(plan, s) && RulesSound(s) && key in s.custom
    ensures Chosen(plan, s, Some(s.custom[key]))
  {
  }

  /** The resolver in use already, a new one, or none. */
  lemma OwnResolverCases(plan: Plan, s: DnsState, rule: Rule)
    ensures var key, tag := (rule.dns, RuleOutbound(plan, rule)), DnsRule(|s.custom| + 1);
      || OwnResolver(plan, s, rule) == (s, None)
      || (key in s.custom && OwnResolver(plan, s, rule) == (s, Some(s.custom[key])))
      || (key !in s.custom && plan.env.parseDns(rule.dns).Some?
          && var server := NamedServer(plan.env, tag, plan.env.parseDns(rule.dns).value, key.1);
             OwnResolver(plan, s, rule)
               == (s.(servers := s.servers + [server], custom := s.custom[key := tag]), Some(tag)))
  {
  }

  lemma OwnResolverSound(plan: Plan, s: DnsState, rule: Rule)
    requires ServersSound(plan, s) && RulesSound(s)
    ensures Chosen(plan, OwnResolver(plan, s, rule).0, OwnResolver(plan, s, rule).1)
  {
    var key := (rule.dns, RuleOutbound(plan, rule));
    OwnResolverCases(plan, s, rule);
    RuleOutboundKnown(plan, rule);
    if key in s.custom {
      SeenResolverSound(plan, s, key);
    } else if plan.env.parseDns(rule.dns).Some? {
      NewResolverSound(plan, s, key, plan.env.parseDns(rule.dns).value);
    }
  }

  lemma RuleResolverSound(plan: Plan, s: DnsState, rule: Rule)
    requires ServersSound(plan, s) && RulesSound(s)
    ensures var (next, tag) := RuleResolver(plan, s, rule);
      ServersSound(plan, next) && RulesSound(next) && (tag.Some? ==> HasServer(next.servers, tag.value))
  {
    OwnResolverSound(plan, s, rule);
    var (own, tag) := OwnResolver(plan, s, rule);
    if tag.None? && rule.action == Proxy {
      ViaSound(plan, own, RuleOutbound(plan, rule));
    }
  }

  lemma DnsStepSound(plan: Plan, final: DnsTag, s: DnsState, rule: Rule)
    requires ServersSound(plan, s) && RulesSound(s)
    ensures ServersSound(plan, DnsStep(plan, final, s, rule)) && RulesSound(DnsStep(plan, final, s, rule))
  {
    RuleResolverSound(plan, s, rule);
  }

  lemma {:induction false} DnsFoldSound(plan: Plan, final: DnsTag, s: DnsState, rules: seq<Rule>)
    requires ServersSound(plan, s) && RulesSound(s)
    ensures ServersSound(plan, DnsFold(plan, final, s, rules)) && RulesSound(DnsFold(plan, final, s, rules))
  {
    if rules != [] {
      DnsFoldSound(plan, final, s, rules[..|rules| - 1]);
      DnsStepSound(plan, final, DnsFold(plan, final, s, rules[..|rules| - 1]), rules[|rules| - 1]);
    }
  }

  lemma BaseServersDeclared(plan: Plan)
    ensures var servers := BaseServers(plan);
      && HasServer(servers, DnsProxy) && HasServer(servers, DnsDirect) && HasServer(servers, DnsLocal)
      && (plan.resolved != map[] ==> HasServer(servers, DnsServers))
  {
    var servers := BaseServers(plan);
    assert servers[0] in servers && servers[1] in servers && servers[2] in servers;
    if plan.resolved != map[] {
      assert servers[3] in servers;
    }
  }

  lemma BaseServersSound(plan: Plan)
    ensures DistinctKeys(BaseServers(plan), DnsTagOf)
    ensures forall x <- BaseServers(plan) :: ServerSound(plan, x) && !x.tag.DnsVia? && !x.tag.DnsRule?
  {
  }

  lemma BaseRulesSound(plan: Plan, names: seq<string>, domains: seq<string>)
    ensures forall r <- BaseDnsRules(plan, names, domains) :: HasServer(BaseServers(plan), r.server)
  {
    BaseServersDeclared(plan);
  }

  lemma BaseSound(plan: Plan, names: seq<string>, domains: seq<string>)
    ensures var s := DnsState(BaseServers(plan), BaseDnsRules(plan, names, domains), map[Exit := DnsProxy], map[]);
      ServersSound(plan, s) && RulesSound(s)
  {
    BaseServersDeclared(plan);
    BaseServersSound(plan);
    BaseRulesSound(plan, names, domains);
  }

  lemma StartSound(plan: Plan, names: seq<string>, domains: seq<string>)
    ensures var (s, final) := StartDns(plan, names, domains);
      ServersSound(plan, s) && RulesSound(s) && HasServer(s.servers, final)
  {
    BaseSound(plan, names, domains);
    var s := DnsState(BaseServers(plan), BaseDnsRules(plan, names, domains), map[Exit := DnsProxy], map[]);
    if !SplitTunnelling(plan.rules, plan.defaultAction) {
      ViaSound(plan, s, FinalOutbound(plan));
    }
  }

  lemma {:induction false} ServersKept(plan: Plan, final: DnsTag, s: DnsState, rules: seq<Rule>, tag: DnsTag)
    requires HasServer(s.servers, tag)
    ensures HasServer(DnsFold(plan, final, s, rules).servers, tag)
  {
    if rules != [] {
      var before := DnsFold(plan, final, s, rules[..|rules| - 1]);
      ServersKept(plan, final, s, rules[..|rules| - 1], tag);
      StepKeepsServers(plan, final, before, rules[|rules| - 1]);
    }
  }

  lemma StepKeepsServers(plan: Plan, final: DnsTag, s: DnsState, rule: Rule)
    ensures s.servers <= DnsStep(plan, final, s, rule).servers
  {
  }

  /** Resolver tags never repeat, and every resolver named anywhere in the section is declared. */
  lemma DnsClosed(plan: Plan, names: seq<string>, domains: seq<string>)
    ensures var dns := DnsOf(plan, names, domains);
      && DistinctKeys(dns.servers, DnsTagOf)
      && HasServer(dns.servers, dns.final) && HasServer(dns.servers, DnsDirect)
      && (plan.resolved != map[] ==> HasServer(dns.servers, DnsServers))
      && (forall r <- dns.rules :: HasServer(dns.servers, r.server))
      && (forall x <- dns.servers :: ServerSound(plan, x))
  {
    var (start, final) := StartDns(plan, names, domains);
    var usable := UsableRules(plan.env.checks, plan.rules);
    StartSound(plan, names, domains);
    DnsFoldSound(plan, final, start, usable);
    ServersKept(plan, final, start, usable, final);
  }
}
