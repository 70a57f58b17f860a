// The whole route section against the whole graph.

module RouteTheorem {
  import opened Wrappers
  import opened Sequences
  import opened Text
  import opened Models
  import opened CoreConfig
  import opened RouteSpec
  import opened RouteMeaning
  import opened CompileTheorem
  import opened CompileExactly

  // ------------------------------------------------------- first match, plainly

  /** FirstHolding is the rule at the least index that decides. */
  lemma {:induction false} FirstHoldingIsFirst(plan: Plan, o: Oracle, rules: seq<Rule>, conn: Conn)
    ensures FirstHolding(plan, o, rules, conn).None? <==> forall r <- rules :: !Decides(plan, o, r, conn)
    ensures FirstHolding(plan, o, rules, conn).Some? ==>
      exists i :: 0 <= i < |rules| && rules[i] == FirstHolding(plan, o, rules, conn).value
        && Decides(plan, o, rules[i], conn) && forall j :: 0 <= j < i ==> !Decides(plan, o, rules[j], conn)
  {
    if rules != [] {
      var init, last := rules[..|rules| - 1], rules[|rules| - 1];
      FirstHoldingIsFirst(plan, o, init, conn);
      assert rules == init + [last];
      if FirstHolding(plan, o, init, conn).Some? {
        var i :| 0 <= i < |init| && init[i] == FirstHolding(plan, o, init, conn).value
          && Decides(plan, o, init[i], conn) && forall j :: 0 <= j < i ==> !Decides(plan, o, init[j], conn);
        assert rules[i] == init[i] && rules[i] in rules;
      }
    }
  }

  lemma {:induction false} FirstAmongUsable(plan: Plan, o: Oracle, rules: seq<Rule>, conn: Conn)
    ensures FirstHolding(plan, o, UsableRules(plan.env.checks, rules), conn) == FirstHolding(plan, o, rules, conn)
  {
    if rules != [] {
      FirstAmongUsable(plan, o, rules[..|rules| - 1], conn);
    }
  }

  lemma RulesOfTwo(a: seq<Entry>, b: seq<Entry>, rest: seq<RouteRule>)
    ensures RulesOf(a + b) + rest == RulesOf(a) + (RulesOf(b) + rest)
  {
  }

  lemma RulesOfThree(a: seq<Entry>, b: seq<Entry>, c: seq<Entry>)
    ensures RulesOf(a + b + c) == RulesOf(a) + (RulesOf(b) + RulesOf(c))
  {
  }

  lemma RulesOfFour(a: seq<Entry>, b: seq<Entry>, c: seq<Entry>, d: seq<Entry>, rest: seq<RouteRule>)
    ensures RulesOf(a + b + c + d) + rest == RulesOf(a) + (RulesOf(b) + (RulesOf(c) + (RulesOf(d) + rest)))
  {
    RulesOfTwo(a + b + c, d, rest);
    RulesOfTwo(a + b, c, RulesOf(d) + rest);
    RulesOfTwo(a, b, RulesOf(c) + (RulesOf(d) + rest));
  }

  // ------------------------------------------------------------ running rules

  predicate Final(action: RouteAction) {
    !action.Sniff? && !action.Resolve?
  }

  lemma RunOne(o: Oracle, sets: seq<RuleSet>, rule: RouteRule, rest: seq<RouteRule>, final: OutTag, conn: Conn, sniffed: string)
    ensures !MatchHolds(o, sets, rule.pattern, conn, sniffed) ==>
      Run(o, sets, [rule] + rest, final, conn, sniffed) == Run(o, sets, rest, final, conn, sniffed)
    ensures MatchHolds(o, sets, rule.pattern, conn, sniffed) && rule.action.Route? ==>
      Run(o, sets, [rule] + rest, final, conn, sniffed) == Goes(rule.action.out)
    ensures MatchHolds(o, sets, rule.pattern, conn, sniffed) && rule.action.Reject? ==>
      Run(o, sets, [rule] + rest, final, conn, sniffed) == Refused(rule.action.drop)
    ensures MatchHolds(o, sets, rule.pattern, conn, sniffed) && rule.action.HijackDns? ==>
      Run(o, sets, [rule] + rest, final, conn, sniffed) == AnsweredAsDns
    ensures MatchHolds(o, sets, rule.pattern, conn, sniffed) && rule.action.Resolve? ==>
      Run(o, sets, [rule] + rest, final, conn, sniffed) == Run(o, sets, rest, final, conn, sniffed)
    ensures MatchHolds(o, sets, rule.pattern, conn, sniffed) && rule.action.Sniff? ==>
      Run(o, sets, [rule] + rest, final, conn, sniffed)
      == Run(o, sets, rest, final, conn, if conn.protocol in rule.action.sniffers then conn.protocol else sniffed)
  {
    assert ([rule] + rest)[1..] == rest;
  }

  function ActionOutcome(action: RouteAction): Outcome {
    match action case Route(out) => Goes(out) case Reject(drop) => Refused(drop) case _ => AnsweredAsDns
  }

  lemma ActionIsDestination(plan: Plan, action: Action, server: string)
    ensures Final(ActionFor(plan, action, server)) && !ActionFor(plan, action, server).HijackDns?
    ensures ActionOutcome(ActionFor(plan, action, server)) == Destination(plan, action, server)
  {
  }

  /** The emitted form of a rule holds exactly when the rule does. */
  ghost predicate Exact(plan: Plan, o: Oracle, sets: seq<RuleSet>, rule: Rule, conn: Conn, sniffed: string) {
    PatternHolds(plan, o, sets, rule, conn, sniffed) <==> RuleHolds(plan, o, rule, conn)
  }

  /** The user's part of the list: the first rule that holds decides, otherwise the search goes on below. */
  lemma {:induction false} RunUser(
      plan: Plan, o: Oracle, sets: seq<RuleSet>, rules: seq<Rule>, rest: seq<RouteRule>, final: OutTag,
      conn: Conn, sniffed: string)
    requires forall r <- rules :: Usable(plan.env.checks, r) && Exact(plan, o, sets, r, conn, sniffed)
    ensures Run(o, sets, RulesOf(UserEntries(plan, rules)) + rest, final, conn, sniffed) ==
      match FirstHolding(plan, o, rules, conn)
      case Some(rule) => Destination(plan, rule.action, rule.server)
      case None => Run(o, sets, rest, final, conn, sniffed)
  {
    if rules == [] {
      assert RulesOf(UserEntries(plan, rules)) + rest == rest;
    } else {
      var init, last := rules[..|rules| - 1], rules[|rules| - 1];
      assert last in rules && forall r <- init :: r in rules;
      var tail := RulesOf(UserEntry(plan, last)) + rest;
      RulesOfTwo(UserEntries(plan, init), UserEntry(plan, last), rest);
      RunUser(plan, o, sets, init, tail, final, conn, sniffed);
      RunUserEntry(plan, o, sets, last, rest, final, conn, sniffed);
    }
  }

  lemma RunUserEntry(
      plan: Plan, o: Oracle, sets: seq<RuleSet>, rule: Rule, rest: seq<RouteRule>, final: OutTag,
      conn: Conn, sniffed: string)
    requires Usable(plan.env.checks, rule) && Exact(plan, o, sets, rule, conn, sniffed)
    ensures Run(o, sets, RulesOf(UserEntry(plan, rule)) + rest, final, conn, sniffed) ==
      if Decides(plan, o, rule, conn) then Destination(plan, rule.action, rule.server)
      else Run(o, sets, rest, final, conn, sniffed)
  {
    match PatternOf(plan, rule) {
      case None =>
        assert RulesOf(UserEntry(plan, rule)) + rest == rest;
      case Some(pattern) =>
        var emitted := RouteRule(pattern, ActionFor(plan, rule.action, rule.server));
        assert RulesOf(UserEntry(plan, rule)) == [emitted];
        ActionIsDestination(plan, rule.action, rule.server);
        RunOne(o, sets, emitted, rest, final, conn, sniffed);
    }
  }

  // ------------------------------------------------------- the app's own rules

  predicate LocalName(host: string) {
    (exists s <- LOCAL_SUFFIXES :: HasSuffix(host, s)) || (exists s <- CONNECTIVITY_DOMAINS :: HasSuffix(host, s))
  }

  /** The connections the app decides ahead of the graph, and where they go. */
  function AppDecision(plan: Plan, serverDomains: seq<string>, conn: Conn): Option<Outcome> {
    if plan.bypass && conn.inbound == BYPASS_TAG then Some(Goes(DirectOut))
    else if conn.port == DNS_PORT then Some(AnsweredAsDns)
    else if conn.isPrivate || conn.host in serverDomains || LocalName(conn.host) then Some(Goes(DirectOut))
    else None
  }

  function Sniffed(plan: Plan, conn: Conn): string {
    if conn.protocol in Sniffers(plan) then conn.protocol else ""
  }

  lemma OwnFieldsHold(o: Oracle, sets: seq<RuleSet>, conn: Conn, sniffed: string, names: seq<string>)
    ensures FieldsHold(o, sets, NO_FIELDS.(inbound := [BYPASS_TAG]), conn, sniffed) <==> conn.inbound == BYPASS_TAG
    ensures FieldsHold(o, sets, NO_FIELDS.(port := [DNS_PORT]), conn, sniffed) <==> conn.port == DNS_PORT
    ensures FieldsHold(o, sets, NO_FIELDS, conn, sniffed)
    ensures FieldsHold(o, sets, NO_FIELDS.(ipIsPrivate := true), conn, sniffed) <==> conn.isPrivate
    ensures FieldsHold(o, sets, NO_FIELDS.(domain := names), conn, sniffed) <==> conn.host in names || names == []
    ensures FieldsHold(o, sets, NO_FIELDS.(domainSuffix := names), conn, sniffed) <==>
      (exists s <- names :: HasSuffix(conn.host, s)) || names == []
    ensures FieldsHold(o, sets, NO_FIELDS.(port := [WINBOX_PORT]), conn, sniffed) <==> conn.port == WINBOX_PORT
    ensures FieldsHold(o, sets, NO_FIELDS.(onlyIpv6 := true), conn, sniffed) <==> conn.ipv6
  {
  }

  lemma RunBypass(plan: Plan, o: Oracle, sets: seq<RuleSet>, rest: seq<RouteRule>, final: OutTag, conn: Conn)
    ensures Run(o, sets, RulesOf(BypassEntries(plan)) + rest, final, conn, "") ==
      if plan.bypass && conn.inbound == BYPASS_TAG then Goes(DirectOut) else Run(o, sets, rest, final, conn, "")
  {
    if plan.bypass {
      var rule := BypassEntries(plan)[0].rule;
      assert RulesOf(BypassEntries(plan)) == [rule];
      RunOne(o, sets, rule, rest, final, conn, "");
      OwnFieldsHold(o, sets, conn, "", []);
    } else {
      assert RulesOf(BypassEntries(plan)) + rest == rest;
    }
  }

  lemma RunBase(plan: Plan, o: Oracle, sets: seq<RuleSet>, rest: seq<RouteRule>, final: OutTag, conn: Conn)
    ensures Run(o, sets, RulesOf(BaseEntries(plan)) + rest, final, conn, "") ==
      if conn.port == DNS_PORT then AnsweredAsDns
      else if conn.isPrivate then Goes(DirectOut)
      else Run(o, sets, rest, final, conn, Sniffed(plan, conn))
  {
    var rules := RulesOf(BaseEntries(plan));
    assert rules == [rules[0], rules[1], rules[2]];
    var second, third := [rules[1]] + ([rules[2]] + rest), [rules[2]] + rest;
    assert rules + rest == [rules[0]] + second;
    OwnFieldsHold(o, sets, conn, "", []);
    OwnFieldsHold(o, sets, conn, Sniffed(plan, conn), []);
    RunOne(o, sets, rules[0], second, final, conn, "");
    RunOne(o, sets, rules[1], third, final, conn, "");
    RunOne(o, sets, rules[2], rest, final, conn, Sniffed(plan, conn));
  }

  lemma RunServers(
      plan: Plan, o: Oracle, sets: seq<RuleSet>, resolvedNames: seq<string>, serverDomains: seq<string>,
      rest: seq<RouteRule>, final: OutTag, conn: Conn, sniffed: string)
    ensures Run(o, sets, RulesOf(ServerEntries(plan, resolvedNames, serverDomains)) + rest, final, conn, sniffed) ==
      if conn.host in serverDomains then Goes(DirectOut) else Run(o, sets, rest, final, conn, sniffed)
  {
    var entries := ServerEntries(plan, resolvedNames, serverDomains);
    var toServers := if serverDomains != [] then [entries[|entries| - 1].rule] else [];
    OwnFieldsHold(o, sets, conn, sniffed, serverDomains);
    if serverDomains != [] {
      RunOne(o, sets, toServers[0], rest, final, conn, sniffed);
    } else {
      assert toServers + rest == rest;
    }
    if plan.resolved != map[] {
      assert RulesOf(entries) + rest == [entries[0].rule] + (toServers + rest);
      RunOne(o, sets, entries[0].rule, toServers + rest, final, conn, sniffed);
    } else {
      assert RulesOf(entries) == toServers;
    }
  }

  lemma RunLocal(o: Oracle, sets: seq<RuleSet>, rest: seq<RouteRule>, final: OutTag, conn: Conn, sniffed: string)
    ensures Run(o, sets, RulesOf(LOCAL_ENTRIES) + rest, final, conn, sniffed) ==
      if LocalName(conn.host) then Goes(DirectOut) else Run(o, sets, rest, final, conn, sniffed)
  {
    var rules := RulesOf(LOCAL_ENTRIES);
    assert rules + rest == [rules[0]] + ([rules[1]] + rest);
    OwnFieldsHold(o, sets, conn, sniffed, LOCAL_SUFFIXES);
    OwnFieldsHold(o, sets, conn, sniffed, CONNECTIVITY_DOMAINS);
    RunOne(o, sets, rules[0], [rules[1]] + rest, final, conn, sniffed);
    RunOne(o, sets, rules[1], rest, final, conn, sniffed);
  }

  lemma RunLeading(
      plan: Plan, o: Oracle, sets: seq<RuleSet>, resolvedNames: seq<string>, serverDomains: seq<string>,
      rest: seq<RouteRule>, final: OutTag, conn: Conn)
    ensures Run(o, sets, RulesOf(LeadingEntries(plan, resolvedNames, serverDomains)) + rest, final, conn, "") ==
      match AppDecision(plan, serverDomains, conn)
      case Some(outcome) => outcome
      case None => Run(o, sets, rest, final, conn, Sniffed(plan, conn))
  {
    var servers := ServerEntries(plan, resolvedNames, serverDomains);
    var fourth := RulesOf(LOCAL_ENTRIES) + rest;
    var third := RulesOf(servers) + fourth;
    var second := RulesOf(BaseEntries(plan)) + third;
    RulesOfFour(BypassEntries(plan), BaseEntries(plan), servers, LOCAL_ENTRIES, rest);
    RunBypass(plan, o, sets, second, final, conn);
    RunBase(plan, o, sets, third, final, conn);
    RunServers(plan, o, sets, resolvedNames, serverDomains, fourth, final, conn, Sniffed(plan, conn));
    RunLocal(o, sets, rest, final, conn, Sniffed(plan, conn));
  }

  /** Below the graph: Winbox in a split tunnel, literal IPv6, then the default. */
  function Unmatched(plan: Plan, conn: Conn): Outcome {
    if SplitTunnelling(plan.rules, plan.defaultAction) && conn.port == WINBOX_PORT then Goes(Exit)
    else if conn.ipv6 then Refused(false)
    else Destination(plan, plan.defaultAction, plan.defaultServer)
  }

  lemma RunDefault(plan: Plan, o: Oracle, sets: seq<RuleSet>, conn: Conn, sniffed: string)
    requires ValidAction(plan.defaultAction)
    ensures Run(o, sets, RulesOf(DefaultEntries(plan)), FinalOutbound(plan), conn, sniffed)
      == Destination(plan, plan.defaultAction, plan.defaultServer)
  {
    var rules := RulesOf(DefaultEntries(plan));
    if rules != [] {
      OwnFieldsHold(o, sets, conn, sniffed, []);
      assert rules == [rules[0]] + [];
      RunOne(o, sets, rules[0], [], FinalOutbound(plan), conn, sniffed);
    }
  }

  lemma RunTrailing(plan: Plan, o: Oracle, sets: seq<RuleSet>, conn: Conn, sniffed: string)
    requires ValidAction(plan.defaultAction)
    ensures Run(o, sets, RulesOf(TrailingEntries(plan)), FinalOutbound(plan), conn, sniffed) == Unmatched(plan, conn)
  {
    var final := FinalOutbound(plan);
    var v6 := OwnEntry(NO_FIELDS.(onlyIpv6 := true), Reject(false)).rule;
    var below := RulesOf(DefaultEntries(plan));
    OwnFieldsHold(o, sets, conn, sniffed, []);
    RunDefault(plan, o, sets, conn, sniffed);
    RunOne(o, sets, v6, below, final, conn, sniffed);
    var winbox := RulesOf(WinboxEntries(plan));
    assert RulesOf(TrailingEntries(plan)) == winbox + ([v6] + below);
    if winbox == [] {
      assert winbox + ([v6] + below) == [v6] + below;
    } else {
      assert winbox == [winbox[0]];
      RunOne(o, sets, winbox[0], [v6] + below, final, conn, sniffed);
    }
  }

  // ------------------------------------------------------------ the theorems

  /** Every usable rule's emitted form is neither wider nor narrower than the rule. */
  predicate AllExact(plan: Plan) {
    forall r <- UsableRules(plan.env.checks, plan.rules) :: Narrow(plan, r) && Wide(plan, r)
  }

  /** The rules' sets are declared, and each declared set is the one its tag names. */
  ghost predicate SetsReady(plan: Plan, sets: seq<RuleSet>) {
    Faithful(plan, sets) && Declares(sets, SetsOfRules(plan, UsableRules(plan.env.checks, plan.rules)))
  }

  lemma {:induction false} RuleSetsDeclared(plan: Plan, rules: seq<Rule>, rule: Rule)
    requires rule in rules
    ensures Declares(SetsOfRules(plan, rules), SetsOfRule(plan, rule))
  {
    var init, last := rules[..|rules| - 1], rules[|rules| - 1];
    assert rules == init + [last];
    if rule in init {
      RuleSetsDeclared(plan, init, rule);
    }
  }

  /** A protocol a usable rule names is one the core is told to sniff for. */
  lemma ProtocolSniffed(plan: Plan, rule: Rule, c: Condition, protocol: string)
    requires rule in UsableRules(plan.env.checks, plan.rules) && c in Matchers(plan.env.checks, rule)
    requires c.kind == Protocol && protocol in c.values
    ensures protocol in Sniffers(plan)
  {
    var checks := plan.env.checks;
    var usable := UsableRules(checks, plan.rules);
    var lists := ProtocolLists(checks, usable);
    var own := Map((d: Condition) => if d.kind == Protocol then d.values else [], Matchers(checks, rule));
    FlattenMembers(own, protocol);
    MapMembers((d: Condition) => if d.kind == Protocol then d.values else [], Matchers(checks, rule), c.values);
    assert protocol in ProtocolsOf(checks, rule);
    FlattenMembers(lists, protocol);
    MapMembers(r => ProtocolsOf(checks, r), usable, ProtocolsOf(checks, rule));
    DistinctMembers(Keep, BASE_SNIFFERS + Flatten(lists), protocol);
    assert Keep(protocol) == Some(protocol);
  }

  lemma {:induction false} UsableConditionCleaned(checks: Checks, conditions: seq<Condition>, c: Condition)
    requires c in UsableConditions(checks, conditions)
    ensures exists values :: c.values == Cleaned(checks, c.kind, values)
  {
    var init, last := conditions[..|conditions| - 1], conditions[|conditions| - 1];
    if c in UsableConditions(checks, init) {
      UsableConditionCleaned(checks, init, c);
    } else {
      assert c.values == Cleaned(checks, c.kind, last.values);
    }
  }

  lemma MatcherCleaned(checks: Checks, rule: Rule, c: Condition)
    requires c in Matchers(checks, rule)
    ensures forall v :: v in Cleaned(checks, c.kind, c.values) <==> v in c.values
    ensures "" !in c.values
  {
    if rule.kind.Logical? {
      UsableConditionCleaned(checks, rule.conditions, c);
      var values :| c.values == Cleaned(checks, c.kind, values);
      CleanedTwice(checks, c.kind, values);
    } else {
      CleanedTwice(checks, rule.kind, rule.values);
    }
  }

  lemma RuleIsReady(plan: Plan, sets: seq<RuleSet>, rule: Rule, conn: Conn)
    requires SetsReady(plan, sets) && rule in UsableRules(plan.env.checks, plan.rules)
    ensures RuleReady(plan, sets, rule, conn, Sniffed(plan, conn))
  {
    var checks := plan.env.checks;
    UsableRulesMembers(checks, plan.rules);
    RuleSetsDeclared(plan, UsableRules(checks, plan.rules), rule);
    forall c <- Matchers(checks, rule)
      ensures Sniffable(c.kind, Cleaned(checks, c.kind, c.values), conn, Sniffed(plan, conn))
    {
      MatcherCleaned(checks, rule, c);
      if c.kind == Protocol {
        forall v <- Cleaned(checks, c.kind, c.values)
          ensures v == conn.protocol <==> v == Sniffed(plan, conn)
        {
          ProtocolSniffed(plan, rule, c, v);
        }
      }
    }
  }

  lemma AllRulesExact(plan: Plan, o: Oracle, sets: seq<RuleSet>, conn: Conn)
    requires SetsReady(plan, sets) && AllExact(plan)
    ensures forall r <- UsableRules(plan.env.checks, plan.rules) ::
      Usable(plan.env.checks, r) && Exact(plan, o, sets, r, conn, Sniffed(plan, conn))
  {
    UsableRulesMembers(plan.env.checks, plan.rules);
    forall r <- UsableRules(plan.env.checks, plan.rules)
      ensures Exact(plan, o, sets, r, conn, Sniffed(plan, conn))
    {
      RuleIsReady(plan, sets, r, conn);
      RuleStrays(plan, o, sets, r, conn, Sniffed(plan, conn));
    }
  }

  /**
   * Compilation preserves meaning, for every connection: what the app's own
   * rules take aside, the first match over the emitted list and route.final is
   * the graph's own decision. Below the graph only Winbox and literal IPv6 are
   * treated apart.
   */
  lemma CompilationPreservesMeaning(
      plan: Plan, o: Oracle, sets: seq<RuleSet>, resolvedNames: seq<string>, serverDomains: seq<string>, conn: Conn)
    requires SetsReady(plan, sets) && AllExact(plan) && ValidAction(plan.defaultAction)
    ensures Run(o, sets, RulesOf(RouteEntries(plan, resolvedNames, serverDomains)), FinalOutbound(plan), conn, "") ==
      match AppDecision(plan, serverDomains, conn)
      case Some(outcome) => outcome
      case None => if FirstHolding(plan, o, plan.rules, conn).Some? then Decide(plan, o, conn) else Unmatched(plan, conn)
  {
    var usable := UsableRules(plan.env.checks, plan.rules);
    var trailing := RulesOf(TrailingEntries(plan));
    var rest := RulesOf(UserEntries(plan, usable)) + trailing;
    RulesOfThree(LeadingEntries(plan, resolvedNames, serverDomains), UserEntries(plan, usable), TrailingEntries(plan));
    RunLeading(plan, o, sets, resolvedNames, serverDomains, rest, FinalOutbound(plan), conn);
    AllRulesExact(plan, o, sets, conn);
    RunUser(plan, o, sets, usable, trailing, FinalOutbound(plan), conn, Sniffed(plan, conn));
    FirstAmongUsable(plan, o, plan.rules, conn);
    RunTrailing(plan, o, sets, conn, Sniffed(plan, conn));
  }

  /** Off the app's own classes the core does exactly what the canvas says. */
  lemma CanvasDecides(
      plan: Plan, o: Oracle, sets: seq<RuleSet>, resolvedNames: seq<string>, serverDomains: seq<string>, conn: Conn)
    requires SetsReady(plan, sets) && AllExact(plan) && ValidAction(plan.defaultAction)
    requires AppDecision(plan, serverDomains, conn).None?
    requires FirstHolding(plan, o, plan.rules, conn).None? ==> conn.port != WINBOX_PORT && !conn.ipv6
    ensures Run(o, sets, RulesOf(RouteEntries(plan, resolvedNames, serverDomains)), FinalOutbound(plan), conn, "")
      == Decide(plan, o, conn)
  {
    CompilationPreservesMeaning(plan, o, sets, resolvedNames, serverDomains, conn);
  }

  /** "Every list resolves, and nothing inverts an entry that names nothing" is enough for exactness. */
  lemma ResolvedIsExact(plan: Plan, rule: Rule)
    requires Usable(plan.env.checks, rule)
    requires var parts := if rule.kind.Logical? then UsableConditions(plan.env.checks, rule.conditions) else [Matcher(rule)];
      forall c <- parts :: Resolves(plan, c) && (c.invert || rule.invert ==> NamesSomething(plan, c))
    ensures Narrow(plan, rule) && Wide(plan, rule)
  {
    if rule.kind.Logical? {
      UsableConditionsMembers(plan.env.checks, rule.conditions);
    }
    var parts := if rule.kind.Logical? then UsableConditions(plan.env.checks, rule.conditions) else [Matcher(rule)];
    forall c <- parts
      ensures MatcherOf(plan, c).Some? <==> NamesSomething(plan, c)
    {
      EmittedIsNamed(plan, c);
    }
    EmittedIsExact(plan, rule);
  }

  lemma EmittedIsExact(plan: Plan, rule: Rule)
    requires Usable(plan.env.checks, rule)
    requires var parts := if rule.kind.Logical? then UsableConditions(plan.env.checks, rule.conditions) else [Matcher(rule)];
      forall c <- parts :: Resolves(plan, c) && (MatcherOf(plan, c).Some? || (!c.invert && !rule.invert))
    ensures Narrow(plan, rule) && Wide(plan, rule)
  {
    if rule.kind.Logical? && rule.invert {
      var usable := UsableConditions(plan.env.checks, rule.conditions);
      var all := rule.mode == All;
      CollectAllMembers(c => MatcherOf(plan, c), usable, all, MatcherOf(plan, usable[0]).value);
      assert usable[0] in usable;
    }
  }

  /** A rule with no inversion never matches more than it says, whatever lists are missing. */
  lemma UninvertedIsNarrow(plan: Plan, rule: Rule)
    requires !rule.invert && forall c <- rule.conditions :: !c.invert
    ensures Narrow(plan, rule)
  {
    UsableKeepsInvert(plan.env.checks, rule.conditions);
  }

  lemma {:induction false} UsableKeepsInvert(checks: Checks, conditions: seq<Condition>)
    requires forall c <- conditions :: !c.invert
    ensures forall c <- UsableConditions(checks, conditions) :: !c.invert
  {
    if conditions != [] {
      var init, last := conditions[..|conditions| - 1], conditions[|conditions| - 1];
      assert last in conditions && forall c <- init :: c in conditions;
      UsableKeepsInvert(checks, init);
    }
  }
}
