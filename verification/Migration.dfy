// An upgrade keeps routing what it routed (internal/models/routing.go,
// migrateLegacyRouting): the three-way mode the graph replaced, against the
// graph it becomes and the rules that graph is compiled to.

module Migration {
  import opened Wrappers
  import opened Sequences
  import opened Text
  import opened Models
  import opened Normalize
  import opened CoreConfig
  import opened RouteSpec
  import opened RouteMeaning
  import opened CompileTheorem
  import opened RouteTheorem

  // ----------------------------------------------------- what the old mode meant

  predicate WholeTunnel(legacy: Legacy) { legacy.mode == "" || legacy.mode == "all" }

  predicate ListsApps(legacy: Legacy) {
    legacy.mode == "apps" || legacy.mode == "apps_domains" || legacy.mode == "selected"
  }

  predicate ListsDomains(legacy: Legacy) {
    legacy.mode == "domains" || legacy.mode == "apps_domains" || legacy.mode == "selected"
  }

  /** Some entry of a list, blanks and stray spaces aside, is about this connection. */
  predicate Listed(plan: Plan, o: Oracle, kind: Kind, values: seq<string>, conn: Conn) {
    exists v <- values :: Trim(v) != "" && ValueHolds(plan, o, kind, Trim(v), conn)
  }

  /** Everything is tunnelled, or only the apps and domains listed. */
  predicate WasTunnelled(plan: Plan, o: Oracle, legacy: Legacy, conn: Conn) {
    || WholeTunnel(legacy)
    || (ListsApps(legacy) && Listed(plan, o, Apps, legacy.apps, conn))
    || (ListsDomains(legacy) && Listed(plan, o, Domains, legacy.domains, conn))
  }

  // ----------------------------------------------------------- the migrated graph

  /** A plan for settings that had no graph: it routes by what was migrated. */
  predicate Upgraded(plan: Plan, graph: Graph, legacy: Legacy) {
    && graph.rules.None? && graph.defaultAction == NO_ACTION
    && NormalGraph(graph, legacy).rules == Some(plan.rules)
    && NormalGraph(graph, legacy).defaultAction == plan.defaultAction
    && NormalGraph(graph, legacy).defaultServer == plan.defaultServer
  }

  predicate Plainly(kind: Kind) { kind == Apps || kind == Domains }

  /** A rule as migration writes one. */
  predicate Listing(rule: Rule, kind: Kind, values: seq<string>) {
    && Plainly(kind) && rule.kind == kind && rule.values == values
    && rule.action == Proxy && !rule.invert && rule.server == "" && rule.conditions == []
  }

  lemma PlainEntry(checks: Checks, kind: Kind, value: string)
    requires Plainly(kind)
    ensures CleanValue(checks, kind, value) == if Trim(value) != "" then Some(Trim(value)) else None
  {
  }

  lemma CleanedAny(checks: Checks, kind: Kind, values: seq<string>, p: string -> bool)
    requires Plainly(kind)
    ensures (exists w <- Cleaned(checks, kind, values) :: p(w)) <==> (exists v <- values :: Trim(v) != "" && p(Trim(v)))
  {
    forall v <- values
      ensures CleanValue(checks, kind, v) == if Trim(v) != "" then Some(Trim(v)) else None
    {
      PlainEntry(checks, kind, v);
    }
    DistinctAny(value => CleanValue(checks, kind, value), values, p);
  }

  lemma ListedIsCleaned(plan: Plan, o: Oracle, kind: Kind, values: seq<string>, conn: Conn)
    requires Plainly(kind)
    ensures AnyValueHolds(plan, o, kind, Cleaned(plan.env.checks, kind, values), conn) <==> Listed(plan, o, kind, values, conn)
  {
    CleanedAny(plan.env.checks, kind, values, v => ValueHolds(plan, o, kind, v, conn));
  }

  lemma HoldsIsUsable(plan: Plan, o: Oracle, rule: Rule, kind: Kind, values: seq<string>, conn: Conn)
    requires Listing(rule, kind, values)
    ensures Decides(plan, o, rule, conn) <==> AnyValueHolds(plan, o, kind, Cleaned(plan.env.checks, kind, values), conn)
  {
  }

  lemma ListingHolds(plan: Plan, o: Oracle, rule: Rule, kind: Kind, values: seq<string>, conn: Conn)
    requires Listing(rule, kind, values)
    ensures Decides(plan, o, rule, conn) <==> Listed(plan, o, kind, values, conn)
  {
    HoldsIsUsable(plan, o, rule, kind, values, conn);
    ListedIsCleaned(plan, o, kind, values, conn);
  }

  /** A listing is compiled exactly, whatever it holds. */
  lemma ListingExact(plan: Plan, rule: Rule, kind: Kind, values: seq<string>)
    requires Listing(rule, kind, values) && Usable(plan.env.checks, rule)
    ensures Narrow(plan, rule) && Wide(plan, rule)
  {
    ResolvedIsExact(plan, rule);
  }

  function AppsPart(legacy: Legacy): seq<Rule> {
    if ListsApps(legacy) && legacy.apps != [] then [LegacyRule("migrated-apps", Apps, legacy.apps)] else []
  }

  function DomainsPart(legacy: Legacy): seq<Rule> {
    if ListsDomains(legacy) && legacy.domains != [] then [LegacyRule("migrated-domains", Domains, legacy.domains)] else []
  }

  lemma MigratedIsParts(legacy: Legacy)
    ensures MigratedRules(legacy) == AppsPart(legacy) + DomainsPart(legacy)
    ensures MigratedAction(legacy) == if WholeTunnel(legacy) then Proxy else Direct
  {
  }

  lemma LegacyRuleKept(id: string, kind: Kind, values: seq<string>, index: nat)
    requires id != "" && Plainly(kind)
    ensures NormalRule(LegacyRule(id, kind, values), index) == Some(LegacyRule(id, kind, values))
  {
    TrimFixes("");
  }

  /** Migrated rules are already as normalising leaves them. */
  lemma MigratedRulesKept(legacy: Legacy)
    ensures KeptRules(MigratedRules(legacy)) == MigratedRules(legacy)
  {
    MigratedIsParts(legacy);
    forall i: nat
      ensures NormalRule(LegacyRule("migrated-apps", Apps, legacy.apps), i) == Some(LegacyRule("migrated-apps", Apps, legacy.apps))
      ensures NormalRule(LegacyRule("migrated-domains", Domains, legacy.domains), i)
        == Some(LegacyRule("migrated-domains", Domains, legacy.domains))
    {
      LegacyRuleKept("migrated-apps", Apps, legacy.apps, i);
      LegacyRuleKept("migrated-domains", Domains, legacy.domains, i);
    }
    SettledRulesKept(MigratedRules(legacy));
  }

  lemma UpgradedRules(plan: Plan, graph: Graph, legacy: Legacy)
    requires Upgraded(plan, graph, legacy)
    ensures plan.rules == AppsPart(legacy) + DomainsPart(legacy)
    ensures plan.defaultAction == if WholeTunnel(legacy) then Proxy else Direct
    ensures plan.defaultServer == if WholeTunnel(legacy) then Trim(graph.defaultServer) else ""
  {
    MigratedIsParts(legacy);
    MigratedRulesKept(legacy);
  }

  lemma UpgradedListings(plan: Plan, graph: Graph, legacy: Legacy, rule: Rule)
    requires Upgraded(plan, graph, legacy) && rule in plan.rules
    ensures Listing(rule, Apps, legacy.apps) || Listing(rule, Domains, legacy.domains)
  {
    UpgradedRules(plan, graph, legacy);
    var apps, domains := AppsPart(legacy), DomainsPart(legacy);
    assert rule in apps || rule in domains;
    PartsAreListings(legacy, rule);
  }

  lemma PartsAreListings(legacy: Legacy, rule: Rule)
    ensures rule in AppsPart(legacy) ==> Listing(rule, Apps, legacy.apps)
    ensures rule in DomainsPart(legacy) ==> Listing(rule, Domains, legacy.domains)
  {
  }

  lemma SomeRuleDecides(plan: Plan, o: Oracle, graph: Graph, legacy: Legacy, conn: Conn)
    requires Upgraded(plan, graph, legacy)
    ensures (exists r <- plan.rules :: Decides(plan, o, r, conn)) <==>
      (ListsApps(legacy) && Listed(plan, o, Apps, legacy.apps, conn))
      || (ListsDomains(legacy) && Listed(plan, o, Domains, legacy.domains, conn))
  {
    UpgradedRules(plan, graph, legacy);
    var apps, domains := LegacyRule("migrated-apps", Apps, legacy.apps), LegacyRule("migrated-domains", Domains, legacy.domains);
    ListingHolds(plan, o, apps, Apps, legacy.apps, conn);
    ListingHolds(plan, o, domains, Domains, legacy.domains, conn);
    assert forall r :: r in plan.rules <==> r in AppsPart(legacy) || r in DomainsPart(legacy);
    if ListsApps(legacy) && Listed(plan, o, Apps, legacy.apps, conn) {
      assert apps in plan.rules;
    }
    if ListsDomains(legacy) && Listed(plan, o, Domains, legacy.domains, conn) {
      assert domains in plan.rules;
    }
  }

  /**
   * The migrated graph decides as the old mode did: what was tunnelled goes
   * through the proxy, and everything else directly.
   */
  lemma MigrationKeepsRouting(plan: Plan, o: Oracle, graph: Graph, legacy: Legacy, conn: Conn)
    requires Upgraded(plan, graph, legacy)
    ensures Decide(plan, o, conn) ==
      if WasTunnelled(plan, o, legacy, conn)
      then Destination(plan, Proxy, if WholeTunnel(legacy) then plan.defaultServer else "")
      else Goes(DirectOut)
  {
    UpgradedRules(plan, graph, legacy);
    SomeRuleDecides(plan, o, graph, legacy, conn);
    FirstIsListing(plan, o, graph, legacy, conn);
  }

  lemma FirstIsAmong(plan: Plan, o: Oracle, rules: seq<Rule>, conn: Conn)
    ensures var first := FirstHolding(plan, o, rules, conn);
      && (first.Some? <==> exists r <- rules :: Decides(plan, o, r, conn))
      && (first.Some? ==> first.value in rules)
  {
    FirstHoldingIsFirst(plan, o, rules, conn);
  }

  lemma FirstIsListing(plan: Plan, o: Oracle, graph: Graph, legacy: Legacy, conn: Conn)
    requires Upgraded(plan, graph, legacy)
    ensures var first := FirstHolding(plan, o, plan.rules, conn);
      && (first.Some? <==> exists r <- plan.rules :: Decides(plan, o, r, conn))
      && (first.Some? ==> first.value.action == Proxy && first.value.server == "" && !WholeTunnel(legacy))
  {
    FirstIsAmong(plan, o, plan.rules, conn);
    forall r <- plan.rules
      ensures r.action == Proxy && r.server == "" && !WholeTunnel(legacy)
    {
      UpgradedProxies(plan, graph, legacy, r);
    }
  }

  lemma UpgradedProxies(plan: Plan, graph: Graph, legacy: Legacy, rule: Rule)
    requires Upgraded(plan, graph, legacy) && rule in plan.rules
    ensures rule.action == Proxy && rule.server == "" && !WholeTunnel(legacy)
  {
    UpgradedRules(plan, graph, legacy);
    UpgradedListings(plan, graph, legacy, rule);
  }

  /** And so does the core, on the rules the migrated graph is compiled to. */
  lemma UpgradeKeepsTraffic(
      plan: Plan, o: Oracle, sets: seq<RuleSet>, names: seq<string>, domains: seq<string>, graph: Graph, legacy: Legacy,
      conn: Conn)
    requires Upgraded(plan, graph, legacy) && SetsReady(plan, sets) && AppDecision(plan, domains, conn).None?
    requires conn.port != WINBOX_PORT && !conn.ipv6
    ensures Run(o, sets, RulesOf(RouteEntries(plan, names, domains)), FinalOutbound(plan), conn, "") ==
      if WasTunnelled(plan, o, legacy, conn)
      then Destination(plan, Proxy, if WholeTunnel(legacy) then plan.defaultServer else "")
      else Goes(DirectOut)
  {
    UpgradedRules(plan, graph, legacy);
    UsableRulesMembers(plan.env.checks, plan.rules);
    forall r <- UsableRules(plan.env.checks, plan.rules)
      ensures Narrow(plan, r) && Wide(plan, r)
    {
      UpgradedListings(plan, graph, legacy, r);
      if Listing(r, Apps, legacy.apps) {
        ListingExact(plan, r, Apps, legacy.apps);
      } else {
        ListingExact(plan, r, Domains, legacy.domains);
      }
    }
    CanvasDecides(plan, o, sets, names, domains, conn);
    MigrationKeepsRouting(plan, o, graph, legacy, conn);
  }
}
