// Every name a built configuration mentions is declared, once.

module ConfigClosed {
  import opened Wrappers
  import opened Sequences
  import opened Text
  import opened Models
  import opened Normalize
  import opened CoreConfig
  import opened RouteSpec
  import opened ConfigSpec
  import opened ConfigTags
  import opened DnsSection
  import RouteMeaning

  // ---------------------------------------------------- rule-sets in patterns

  /** Every rule-set tag a pattern mentions is one of these sets' tags. */
  ghost predicate UsesOnly(m: Match, sets: seq<RuleSet>) {
    match m
    case Plain(fields, _) => forall tag <- fields.ruleSet :: tag in TagsOf(sets)
    case Combined(_, parts, _) => forall p <- parts :: UsesOnly(p, sets)
  }

  ghost predicate Within(some: seq<RuleSet>, all: seq<RuleSet>) {
    forall tag :: tag in TagsOf(some) ==> tag in TagsOf(all)
  }

  lemma {:induction false} UsesMore(m: Match, some: seq<RuleSet>, all: seq<RuleSet>)
    requires UsesOnly(m, some) && Within(some, all)
    ensures UsesOnly(m, all)
    decreases m
  {
    match m
    case Plain(_, _) =>
    case Combined(_, parts, _) =>
      forall p <- parts ensures UsesOnly(p, all) { UsesMore(p, some, all); }
  }

  lemma WithinAppend(a: seq<RuleSet>, b: seq<RuleSet>)
    ensures Within(a, a + b) && Within(b, a + b)
  {
    assert TagsOf(a + b) == TagsOf(a) + TagsOf(b);
  }

  lemma AppsUseNoSets(env: Env, values: seq<string>)
    ensures AppsMatch(env, values).Some? ==> UsesOnly(AppsMatch(env, values).value, [])
  {
  }

  lemma BaseUses(plan: Plan, kind: Kind, values: seq<string>)
    ensures BaseMatch(plan, kind, values).Some? ==>
      UsesOnly(BaseMatch(plan, kind, values).value, if UsesSets(kind) then SetsFor(plan, kind, values, false) else [])
  {
    if kind.Apps? {
      AppsUseNoSets(plan.env, values);
    }
  }

  lemma InvertUses(m: Match, sets: seq<RuleSet>)
    ensures UsesOnly(m.(invert := true), sets) <==> UsesOnly(m, sets)
  {
  }

  lemma MatcherUses(plan: Plan, c: Condition)
    ensures MatcherOf(plan, c).Some? ==> UsesOnly(MatcherOf(plan, c).value, SetsOfMatcher(plan, c))
  {
    var values := Cleaned(plan.env.checks, c.kind, c.values);
    BaseUses(plan, c.kind, values);
    if BaseMatch(plan, c.kind, values).Some? {
      InvertUses(BaseMatch(plan, c.kind, values).value, SetsOfMatcher(plan, c));
    }
  }

  lemma {:induction false} PartsUse(plan: Plan, conditions: seq<Condition>, all: bool)
    ensures PartsOf(plan, conditions, all).Some? ==>
      forall p <- PartsOf(plan, conditions, all).value :: UsesOnly(p, SetsOfParts(plan, conditions, all))
  {
    if conditions != [] && PartsOf(plan, conditions, all).Some? {
      var init, last := conditions[..|conditions| - 1], conditions[|conditions| - 1];
      PartsUse(plan, init, all);
      MatcherUses(plan, last);
      var before, added := SetsOfParts(plan, init, all), SetsOfMatcher(plan, last);
      WithinAppend(before, added);
      forall p <- PartsOf(plan, conditions, all).value
        ensures UsesOnly(p, before + added)
      {
        if p in PartsOf(plan, init, all).value {
          UsesMore(p, before, before + added);
        } else {
          UsesMore(p, added, before + added);
        }
      }
    }
  }

  lemma PatternUses(plan: Plan, rule: Rule)
    ensures PatternOf(plan, rule).Some? ==> UsesOnly(PatternOf(plan, rule).value, SetsOfRule(plan, rule))
  {
    if rule.kind.Logical? {
      PartsUse(plan, UsableConditions(plan.env.checks, rule.conditions), rule.mode == All);
    } else {
      MatcherUses(plan, Matcher(rule));
    }
  }

  lemma MatcherIsPart(plan: Plan, c: Condition)
    requires !UsesSets(c.kind)
    ensures MatcherOf(plan, c).Some? ==> UsesOnly(MatcherOf(plan, c).value, [])
  {
    MatcherUses(plan, c);
  }

  lemma DomainPartUses(plan: Plan, c: Condition)
    ensures DomainPart(plan, c).Some? ==> UsesOnly(DomainPart(plan, c).value, SetsOfDomainPart(plan, c))
  {
    if AboutDomains(c) && !c.invert && !UsesSets(c.kind) {
      MatcherIsPart(plan, c);
    }
  }

  lemma {:induction false} DomainPartsUse(plan: Plan, conditions: seq<Condition>)
    ensures forall p <- DomainPartsOf(plan, conditions) :: UsesOnly(p, SetsOfDomainParts(plan, conditions))
  {
    if conditions != [] {
      var init, last := conditions[..|conditions| - 1], conditions[|conditions| - 1];
      DomainPartsUse(plan, init);
      DomainPartUses(plan, last);
      var before, added := SetsOfDomainParts(plan, init), SetsOfDomainPart(plan, last);
      WithinAppend(before, added);
      forall p <- DomainPartsOf(plan, conditions)
        ensures UsesOnly(p, before + added)
      {
        if p in DomainPartsOf(plan, init) {
          UsesMore(p, before, before + added);
        } else {
          UsesMore(p, added, before + added);
        }
      }
    }
  }

  lemma DomainPatternUses(plan: Plan, rule: Rule)
    ensures DomainPattern(plan, rule).Some? ==> UsesOnly(DomainPattern(plan, rule).value, SetsOfDomains(plan, rule))
  {
    DomainPartsUse(plan, Matchers(plan.env.checks, rule));
  }

  // ---------------------------------------------------- what has been declared

  lemma {:induction false} DeclareAllTags(sets: seq<RuleSet>, batch: seq<RuleSet>)
    ensures forall tag :: tag in TagsOf(DeclareAll(sets, batch)) <==> tag in TagsOf(sets) || tag in TagsOf(batch)
    ensures NoRepeats(TagsOf(sets)) ==> NoRepeats(TagsOf(DeclareAll(sets, batch)))
    ensures forall s <- DeclareAll(sets, batch) :: s in sets || s in batch
  {
    if batch != [] {
      var init, last := batch[..|batch| - 1], batch[|batch| - 1];
      DeclareAllTags(sets, init);
      assert batch == init + [last];
      assert TagsOf(batch) == TagsOf(init) + [last.tag];
      var before := DeclareAll(sets, init);
      assert TagsOf(before + [last]) == TagsOf(before) + [last.tag];
    }
  }

  lemma SetsForFaithful(plan: Plan, kind: Kind, values: seq<string>, domainsOnly: bool)
    ensures RouteMeaning.Faithful(plan, SetsFor(plan, kind, values, domainsOnly))
  {
    RouteMeaning.SetsForNamed(plan, kind, values, domainsOnly);
  }

  lemma {:induction false} PartsFaithful(plan: Plan, conditions: seq<Condition>, all: bool)
    ensures RouteMeaning.Faithful(plan, SetsOfParts(plan, conditions, all))
  {
    if conditions != [] {
      var last := conditions[|conditions| - 1];
      PartsFaithful(plan, conditions[..|conditions| - 1], all);
      SetsForFaithful(plan, last.kind, Cleaned(plan.env.checks, last.kind, last.values), false);
    }
  }

  lemma RuleFaithful(plan: Plan, rule: Rule)
    ensures RouteMeaning.Faithful(plan, SetsOfRule(plan, rule))
  {
    if rule.kind.Logical? {
      PartsFaithful(plan, UsableConditions(plan.env.checks, rule.conditions), rule.mode == All);
    } else {
      SetsForFaithful(plan, rule.kind, Cleaned(plan.env.checks, rule.kind, rule.values), false);
    }
  }

  lemma {:induction false} DomainPartsFaithful(plan: Plan, conditions: seq<Condition>)
    ensures RouteMeaning.Faithful(plan, SetsOfDomainParts(plan, conditions))
  {
    if conditions != [] {
      var last := conditions[|conditions| - 1];
      DomainPartsFaithful(plan, conditions[..|conditions| - 1]);
      SetsForFaithful(plan, last.kind, last.values, true);
    }
  }

  lemma {:induction false} RulesFaithful(plan: Plan, rules: seq<Rule>)
    ensures RouteMeaning.Faithful(plan, SetsOfRules(plan, rules))
  {
    if rules != [] {
      RulesFaithful(plan, rules[..|rules| - 1]);
      RuleFaithful(plan, rules[|rules| - 1]);
    }
  }

  lemma {:induction false} DnsSetsFaithful(plan: Plan, final: DnsTag, s: DnsState, rules: seq<Rule>)
    ensures RouteMeaning.Faithful(plan, DnsSets(plan, final, s, rules))
  {
    if rules != [] {
      var last := rules[|rules| - 1];
      DnsSetsFaithful(plan, final, s, rules[..|rules| - 1]);
      DomainPartsFaithful(plan, Matchers(plan.env.checks, last));
    }
  }

  /** Two sections declare as they go; the result holds each set they named, once, under its own tag. */
  lemma SetsDeclaredOnce(plan: Plan, names: seq<string>, domains: seq<string>)
    ensures var sets := SetsOf(plan, names, domains);
      && NoRepeats(TagsOf(sets))
      && RouteMeaning.Faithful(plan, sets)
      && RouteMeaning.Declares(sets, SetsOfRules(plan, UsableRules(plan.env.checks, plan.rules)))
      && RouteMeaning.Declares(sets, DnsSetsOf(plan, names, domains))
  {
    var usable := UsableRules(plan.env.checks, plan.rules);
    var (start, final) := StartDns(plan, names, domains);
    RulesFaithful(plan, usable);
    DnsSetsFaithful(plan, final, start, usable);
    AllDeclared(plan, SetsOfRules(plan, usable) + DnsSetsOf(plan, names, domains));
  }

  lemma AllDeclared(plan: Plan, batch: seq<RuleSet>)
    requires RouteMeaning.Faithful(plan, batch)
    ensures NoRepeats(TagsOf(DeclareAll([], batch))) && RouteMeaning.Faithful(plan, DeclareAll([], batch))
    ensures forall s <- batch :: s in DeclareAll([], batch)
  {
    var sets := DeclareAll([], batch);
    DeclareAllTags([], batch);
    forall s <- batch
      ensures s in sets
    {
      var k :| 0 <= k < |batch| && batch[k] == s;
      assert TagsOf(batch)[k] == s.tag;
      assert s.tag in TagsOf(sets);
      var m :| 0 <= m < |sets| && TagsOf(sets)[m] == s.tag;
      assert sets[m] in sets;
    }
  }

  lemma DeclaredTags(some: seq<RuleSet>, all: seq<RuleSet>)
    requires RouteMeaning.Declares(all, some)
    ensures Within(some, all)
  {
    forall tag | tag in TagsOf(some)
      ensures tag in TagsOf(all)
    {
      var k :| 0 <= k < |some| && TagsOf(some)[k] == tag;
      assert some[k] in some;
      var m :| 0 <= m < |all| && all[m] == some[k];
      assert TagsOf(all)[m] == tag;
    }
  }

  // --------------------------------------------------------- the route section

  /** What an action refers to is declared. */
  ghost predicate ActionClosed(c: Config, action: RouteAction) {
    match action
    case Route(out) => Declared(c.outbounds + c.endpoints, out)
    case Resolve(server) => HasServer(c.dns.servers, server)
    case _ => true
  }

  ghost predicate EntryRefers(plan: Plan, e: Entry) {
    match e.rule.action
    case Route(out) => KnownOut(plan, out)
    case Resolve(server) => server == DnsServers && plan.resolved != map[]
    case _ => true
  }

  lemma {:induction false} UserEntriesRefer(plan: Plan, rules: seq<Rule>)
    ensures forall e <- UserEntries(plan, rules) ::
      EntryRefers(plan, e) && UsesOnly(e.rule.pattern, SetsOfRules(plan, rules))
  {
    if rules != [] {
      var init, last := rules[..|rules| - 1], rules[|rules| - 1];
      UserEntriesRefer(plan, init);
      PatternUses(plan, last);
      var before, added := SetsOfRules(plan, init), SetsOfRule(plan, last);
      WithinAppend(before, added);
      forall e <- UserEntries(plan, rules)
        ensures EntryRefers(plan, e) && UsesOnly(e.rule.pattern, before + added)
      {
        if e in UserEntries(plan, init) {
          UsesMore(e.rule.pattern, before, before + added);
        } else {
          assert e in UserEntry(plan, last);
          UsesMore(e.rule.pattern, added, before + added);
        }
      }
    }
  }

  ghost predicate OwnRefers(plan: Plan, entries: seq<Entry>) {
    forall e <- entries :: EntryRefers(plan, e) && UsesOnly(e.rule.pattern, [])
  }

  lemma LeadingRefer(plan: Plan)
    ensures OwnRefers(plan, BypassEntries(plan)) && OwnRefers(plan, BaseEntries(plan))
  {
  }

  lemma ServersRefer(plan: Plan, names: seq<string>, domains: seq<string>)
    ensures OwnRefers(plan, ServerEntries(plan, names, domains)) && OwnRefers(plan, LOCAL_ENTRIES)
  {
  }

  lemma TrailingRefer(plan: Plan)
    ensures OwnRefers(plan, WinboxEntries(plan)) && OwnRefers(plan, DefaultEntries(plan))
    ensures OwnRefers(plan, [OwnEntry(NO_FIELDS.(onlyIpv6 := true), Reject(false))])
  {
  }

  lemma RefersAppend(plan: Plan, a: seq<Entry>, b: seq<Entry>)
    requires OwnRefers(plan, a) && OwnRefers(plan, b)
    ensures OwnRefers(plan, a + b)
  {
  }

  lemma OwnEntriesRefer(plan: Plan, names: seq<string>, domains: seq<string>)
    ensures OwnRefers(plan, LeadingEntries(plan, names, domains)) && OwnRefers(plan, TrailingEntries(plan))
  {
    LeadingRefer(plan);
    ServersRefer(plan, names, domains);
    TrailingRefer(plan);
    RefersAppend(plan, BypassEntries(plan), BaseEntries(plan));
    RefersAppend(plan, BypassEntries(plan) + BaseEntries(plan), ServerEntries(plan, names, domains));
    RefersAppend(plan, BypassEntries(plan) + BaseEntries(plan) + ServerEntries(plan, names, domains), LOCAL_ENTRIES);
    var v6 := [OwnEntry(NO_FIELDS.(onlyIpv6 := true), Reject(false))];
    RefersAppend(plan, WinboxEntries(plan), v6);
    RefersAppend(plan, WinboxEntries(plan) + v6, DefaultEntries(plan));
  }

  lemma NoSetsUsed(m: Match, sets: seq<RuleSet>)
    requires UsesOnly(m, [])
    ensures UsesOnly(m, sets)
  {
    UsesMore(m, [], sets);
  }

  lemma RouteEntriesRefer(plan: Plan, names: seq<string>, domains: seq<string>)
    ensures forall r <- RulesOf(RouteEntries(plan, names, domains)) ::
      EntryRefers(plan, Entry(r, "")) && UsesOnly(r.pattern, SetsOfRules(plan, UsableRules(plan.env.checks, plan.rules)))
  {
    var usable := UsableRules(plan.env.checks, plan.rules);
    var entries := RouteEntries(plan, names, domains);
    UserEntriesRefer(plan, usable);
    OwnEntriesRefer(plan, names, domains);
    forall r <- RulesOf(entries)
      ensures EntryRefers(plan, Entry(r, "")) && UsesOnly(r.pattern, SetsOfRules(plan, usable))
    {
      var k :| 0 <= k < |entries| && RulesOf(entries)[k] == r;
      var e := entries[k];
      assert e in entries;
      if e !in UserEntries(plan, usable) {
        assert e in LeadingEntries(plan, names, domains) || e in TrailingEntries(plan);
        NoSetsUsed(r.pattern, SetsOfRules(plan, usable));
      }
    }
  }

  // ----------------------------------------------------------- the DNS section

  lemma {:induction false} DnsRulesUse(plan: Plan, final: DnsTag, s: DnsState, rules: seq<Rule>)
    requires forall r <- s.rules :: UsesOnly(r.pattern, [])
    ensures forall r <- DnsFold(plan, final, s, rules).rules :: UsesOnly(r.pattern, DnsSets(plan, final, s, rules))
  {
    if rules != [] {
      var init, last := rules[..|rules| - 1], rules[|rules| - 1];
      DnsRulesUse(plan, final, s, init);
      var mid := DnsFold(plan, final, s, init);
      var before := DnsSets(plan, final, s, init);
      var added := if AsksDns(plan, final, mid, last) then SetsOfDomains(plan, last) else [];
      WithinAppend(before, added);
      DomainPatternUses(plan, last);
      StepRules(plan, final, mid, last);
      forall r <- DnsStep(plan, final, mid, last).rules
        ensures UsesOnly(r.pattern, before + added)
      {
        if r in mid.rules {
          UsesMore(r.pattern, before, before + added);
        } else {
          UsesMore(r.pattern, added, before + added);
        }
      }
    }
  }

  lemma ResolverKeepsRules(plan: Plan, s: DnsState, rule: Rule)
    ensures RuleResolver(plan, s, rule).0.rules == s.rules
  {
  }

  lemma StepRules(plan: Plan, final: DnsTag, s: DnsState, rule: Rule)
    ensures forall r <- DnsStep(plan, final, s, rule).rules :: r !in s.rules ==>
      AsksDns(plan, final, s, rule) && DomainPattern(plan, rule) == Some(r.pattern)
      && Some(r.server) == RuleResolver(plan, s, rule).1
  {
    ResolverKeepsRules(plan, s, rule);
  }

  lemma DnsRulesClosed(plan: Plan, names: seq<string>, domains: seq<string>)
    ensures forall r <- DnsOf(plan, names, domains).rules :: UsesOnly(r.pattern, DnsSetsOf(plan, names, domains))
  {
    var (start, final) := StartDns(plan, names, domains);
    DnsRulesUse(plan, final, start, UsableRules(plan.env.checks, plan.rules));
  }

  // ------------------------------------------------------------- the document

  ghost predicate OutboundClosed(c: Config, o: Outbound) {
    && (o.detour.Some? ==> Declared(c.outbounds + c.endpoints, o.detour.value))
    && (o.resolver.Some? ==> HasServer(c.dns.servers, o.resolver.value))
    && (o.kind.UrlTest? ==> forall m <- o.kind.members :: Declared(c.outbounds + c.endpoints, m))
  }

  /** Every reference in the document is to something it declares. */
  ghost predicate Closed(c: Config) {
    && (forall r <- c.rules :: ActionClosed(c, r.action) && UsesOnly(r.pattern, c.sets))
    && Declared(c.outbounds + c.endpoints, c.final)
    && HasServer(c.dns.servers, c.defaultResolver)
    && (forall o <- c.outbounds + c.endpoints :: OutboundClosed(c, o))
    && (forall r <- c.dns.rules :: HasServer(c.dns.servers, r.server) && UsesOnly(r.pattern, c.sets))
    && HasServer(c.dns.servers, c.dns.final)
    && (forall s <- c.dns.servers ::
          && (s.detour.Some? ==> Declared(c.outbounds + c.endpoints, s.detour.value))
          && (s.resolver.Some? ==> HasServer(c.dns.servers, s.resolver.value)))
    && (forall s <- c.sets :: s.source.Remote? ==> Declared(c.outbounds + c.endpoints, s.source.downloadDetour))
  }

  /** Within each kind no tag is declared twice. */
  ghost predicate TagsUnique(c: Config) {
    && DistinctKeys(c.outbounds + c.endpoints, OutboundTag)
    && DistinctKeys(c.dns.servers, DnsTagOf)
    && NoRepeats(TagsOf(c.sets))
  }

  // ------------------------------------------------------------ the theorems

  lemma ChainHopPlaced(request: Request, l: Layout, k: nat)
    requires LaidOut(request, l) && 1 <= k <= |l.hops|
    ensures HasTag(Placements(request, l), ChainHop(k))
  {
    var p := ChainPlacements(l.hops)[k - 1];
    assert p in ChainPlacements(l.hops);
    assert p in Placements(request, l);
  }

  lemma PlacedAmong(request: Request, l: Layout, tag: OutTag)
    requires LaidOut(request, l)
    requires HasTag(ExitPlacements(request, l.exit, ChainTail(|l.hops|)), tag) || HasTag(l.servers.placed, tag) || tag == DirectOut
    ensures HasTag(Placements(request, l), tag)
  {
    assert DIRECT in Placements(request, l);
    forall p | p in ExitPlacements(request, l.exit, ChainTail(|l.hops|)) || p in l.servers.placed
      ensures p in Placements(request, l)
    {
    }
  }

  /** Whatever the graph can send traffic to was placed. */
  lemma KnownIsPlaced(request: Request, l: Layout, out: OutTag)
    requires LaidOut(request, l) && KnownOut(PlanOf(request, l), out)
    ensures HasTag(Placements(request, l), out)
  {
    ExitTags(request, l.exit, ChainTail(|l.hops|));
    if out != Exit && out != DirectOut {
      var id :| id in l.servers.outboundFor && l.servers.outboundFor[id] == out;
    }
    PlacedAmong(request, l, out);
  }

  lemma MemberPlaced(request: Request, l: Layout, tag: OutTag)
    requires LaidOut(request, l) && request.alternatives != []
    requires tag in MemberTags(|Members(request, l.exit)|)
    ensures HasTag(ExitPlacements(request, l.exit, ChainTail(|l.hops|)), tag)
  {
    var members := Members(request, l.exit);
    var tail := ChainTail(|l.hops|);
    var k :| 0 <= k < |members| && MemberTags(|members|)[k] == tag;
    assert MemberPlacements(members, tail)[k] in ExitPlacements(request, l.exit, tail);
  }

  /** What each placement leans on was placed too. */
  ghost predicate Leans(p: Placement, hops: nat, members: seq<OutTag>) {
    && p.outbound.resolver.None?
    && (p.outbound.detour.Some? ==> p.outbound.detour.value.ChainHop? && 1 <= p.outbound.detour.value.n <= hops)
    && (p.outbound.kind.UrlTest? ==> p.outbound.kind.members == members)
  }

  lemma PlacementsLean(request: Request, l: Layout)
    requires LaidOut(request, l)
    ensures forall p <- Placements(request, l) :: Leans(p, |l.hops|, MemberTags(|Members(request, l.exit)|))
    ensures forall p <- Placements(request, l) :: p.outbound.kind.UrlTest? ==> request.alternatives != []
  {
    var members := MemberTags(|Members(request, l.exit)|);
    forall p <- ChainPlacements(l.hops) ensures Leans(p, |l.hops|, members) {}
    forall p <- ExitPlacements(request, l.exit, ChainTail(|l.hops|)) ensures Leans(p, |l.hops|, members) {}
    forall p <- l.servers.placed ensures Leans(p, |l.hops|, members) {}
  }

  lemma OutboundsClosed(request: Request, l: Layout, o: Outbound)
    requires LaidOut(request, l)
    requires o in Everything(Resolved(request, DomainsOf(request, l)), Placements(request, l))
    ensures var all := Everything(Resolved(request, DomainsOf(request, l)), Placements(request, l));
      && (o.detour.Some? ==> Declared(all, o.detour.value))
      && (o.resolver.Some? ==> o.resolver == Some(DnsServers) && Resolved(request, DomainsOf(request, l)) != map[])
      && (o.kind.UrlTest? ==> forall m <- o.kind.members :: Declared(all, m))
  {
    var resolved := Resolved(request, DomainsOf(request, l));
    var placed := Placements(request, l);
    var p := DeclaredWasPlaced(resolved, placed, o);
    PlacementsLean(request, l);
    if o.detour.Some? {
      ChainHopPlaced(request, l, o.detour.value.n);
      TagIsDeclared(resolved, placed, o.detour.value);
    }
    if o.kind.UrlTest? {
      forall m <- o.kind.members
        ensures Declared(Everything(resolved, placed), m)
      {
        MemberPlaced(request, l, m);
        PlacedAmong(request, l, m);
        TagIsDeclared(resolved, placed, m);
      }
    }
  }

  lemma TagIsDeclared(resolved: map<string, seq<string>>, placed: seq<Placement>, tag: OutTag)
    requires HasTag(placed, tag)
    ensures Declared(Everything(resolved, placed), tag)
  {
    var p :| p in placed && p.outbound.tag == tag;
    PlacedIsDeclared(resolved, placed, p);
  }

  lemma KnownIsDeclared(request: Request, l: Layout, out: OutTag)
    requires LaidOut(request, l) && KnownOut(PlanOf(request, l), out)
    ensures Declared(Everything(Resolved(request, DomainsOf(request, l)), Placements(request, l)), out)
  {
    KnownIsPlaced(request, l, out);
    TagIsDeclared(Resolved(request, DomainsOf(request, l)), Placements(request, l), out);
  }

  lemma RemoteSetsUseExit(plan: Plan, sets: seq<RuleSet>)
    requires RouteMeaning.Faithful(plan, sets)
    ensures forall s <- sets :: s.source.Remote? ==> s.source.downloadDetour == Exit
  {
    forall s <- sets
      ensures s.source.Remote? ==> s.source.downloadDetour == Exit
    {
      assert RouteMeaning.SetNamed(plan, s.tag) == Some(s);
    }
  }

  /** The parts of Closed, stated over the pieces the document is made of. */
  ghost predicate PiecesClosed(
      plan: Plan, all: seq<Outbound>, rules: seq<RouteRule>, dns: Dns, sets: seq<RuleSet>, resolved: map<string, seq<string>>)
  {
    && (forall r <- rules :: EntryRefers(plan, Entry(r, "")) && UsesOnly(r.pattern, sets))
    && (forall out :: KnownOut(plan, out) ==> Declared(all, out))
    && (forall o <- all ::
          && (o.detour.Some? ==> Declared(all, o.detour.value))
          && (o.resolver.Some? ==> o.resolver == Some(DnsServers) && resolved != map[])
          && (o.kind.UrlTest? ==> forall m <- o.kind.members :: Declared(all, m)))
    && (forall r <- dns.rules :: HasServer(dns.servers, r.server) && UsesOnly(r.pattern, sets))
    && HasServer(dns.servers, dns.final) && HasServer(dns.servers, DnsDirect)
    && (resolved != map[] ==> HasServer(dns.servers, DnsServers))
    && (forall s <- dns.servers :: ServerSound(plan, s))
    && (forall s <- sets :: s.source.Remote? ==> s.source.downloadDetour == Exit)
    && resolved == plan.resolved
  }

  lemma PiecesMakeClosed(plan: Plan, c: Config, all: seq<Outbound>)
    requires PiecesClosed(plan, all, c.rules, c.dns, c.sets, plan.resolved)
    requires all == c.outbounds + c.endpoints && KnownOut(plan, c.final) && c.defaultResolver == DnsDirect
    ensures Closed(c)
  {
  }

  lemma SectionsClosed(plan: Plan, names: seq<string>, domains: seq<string>)
    ensures var sets := SetsOf(plan, names, domains);
      && (forall r <- RulesOf(RouteEntries(plan, names, domains)) :: EntryRefers(plan, Entry(r, "")) && UsesOnly(r.pattern, sets))
      && (forall r <- DnsOf(plan, names, domains).rules :: UsesOnly(r.pattern, sets))
      && (forall s <- sets :: s.source.Remote? ==> s.source.downloadDetour == Exit)
  {
    var sets := SetsOf(plan, names, domains);
    var routeSets := SetsOfRules(plan, UsableRules(plan.env.checks, plan.rules));
    SetsDeclaredOnce(plan, names, domains);
    RemoteSetsUseExit(plan, sets);
    RouteEntriesRefer(plan, names, domains);
    DnsRulesClosed(plan, names, domains);
    DeclaredTags(routeSets, sets);
    DeclaredTags(DnsSetsOf(plan, names, domains), sets);
    forall r <- RulesOf(RouteEntries(plan, names, domains)) ensures UsesOnly(r.pattern, sets) {
      UsesMore(r.pattern, routeSets, sets);
    }
    forall r <- DnsOf(plan, names, domains).rules ensures UsesOnly(r.pattern, sets) {
      UsesMore(r.pattern, DnsSetsOf(plan, names, domains), sets);
    }
  }

  /**
   * Every built configuration is closed, with tags unique in their kind: the
   * core refuses a document that names anything it does not declare, or
   * declares anything twice.
   */
  lemma BuiltConfigIsClosed(request: Request)
    requires LayoutOf(request).Some?
    ensures LaidOut(request, LayoutOf(request).value)
    ensures var c := ConfigOf(request, LayoutOf(request).value); Closed(c) && TagsUnique(c)
  {
    var l := LayoutOf(request).value;
    LayoutIsLaidOut(request);
    var plan, names, domains := PlanOf(request, l), NamesOf(request, l), DomainsOf(request, l);
    var all := Everything(plan.resolved, Placements(request, l));
    SectionsClosed(plan, names, domains);
    DnsClosed(plan, names, domains);
    SetsDeclaredOnce(plan, names, domains);
    PlacementTagsDistinct(request, l);
    EverythingDistinct(plan.resolved, Placements(request, l));
    forall out | KnownOut(plan, out) ensures Declared(all, out) {
      KnownIsDeclared(request, l, out);
    }
    forall o <- all
      ensures o.detour.Some? ==> Declared(all, o.detour.value)
      ensures o.resolver.Some? ==> o.resolver == Some(DnsServers) && plan.resolved != map[]
      ensures o.kind.UrlTest? ==> forall m <- o.kind.members :: Declared(all, m)
    {
      OutboundsClosed(request, l, o);
    }
    RuleOutboundKnown(plan, Rule("", Apps, [], Proxy, false, "", "", NO_MODE, []));
    PiecesMakeClosed(plan, ConfigOf(request, l), all);
  }
}
