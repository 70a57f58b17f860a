// Whose count a connection shows up in, against what decided it
// (internal/sbconfig/route.go, internal/app/routing.go).

module RuleOwners {
  import opened Wrappers
  import opened Sequences
  import opened Models
  import opened CoreConfig
  import opened RouteSpec
  import opened RouteMeaning
  import opened CompileTheorem
  import opened RouteTheorem
  import opened HitSpec

  /** Which entry decides a connection: the first that matches and is final, or none. */
  function Takes(o: Oracle, sets: seq<RuleSet>, entries: seq<Entry>, conn: Conn, sniffed: string): (i: nat)
    ensures i <= |entries|
  {
    if entries == [] then 0
    else if !MatchHolds(o, sets, entries[0].rule.pattern, conn, sniffed) then 1 + Takes(o, sets, entries[1..], conn, sniffed)
    else 1 + match entries[0].rule.action
      case Sniff(names) => Takes(o, sets, entries[1..], conn, if conn.protocol in names then conn.protocol else sniffed)
      case Resolve(_) => Takes(o, sets, entries[1..], conn, sniffed)
      case _ => -1
  }

  /** Its owner; unmatched connections belong to the default. */
  function Owner(o: Oracle, sets: seq<RuleSet>, entries: seq<Entry>, conn: Conn, sniffed: string): string {
    if entries == [] then DEFAULT_OWNER
    else if !MatchHolds(o, sets, entries[0].rule.pattern, conn, sniffed) then Owner(o, sets, entries[1..], conn, sniffed)
    else match entries[0].rule.action
      case Sniff(names) => Owner(o, sets, entries[1..], conn, if conn.protocol in names then conn.protocol else sniffed)
      case Resolve(_) => Owner(o, sets, entries[1..], conn, sniffed)
      case _ => entries[0].owner
  }

  lemma {:induction false} OwnerIsTaker(o: Oracle, sets: seq<RuleSet>, entries: seq<Entry>, conn: Conn, sniffed: string)
    ensures var i := Takes(o, sets, entries, conn, sniffed);
      Owner(o, sets, entries, conn, sniffed) == if i < |entries| then entries[i].owner else DEFAULT_OWNER
  {
    if entries != [] {
      OwnerIsTaker(o, sets, entries[1..], conn, sniffed);
      if entries[0].rule.action.Sniff? {
        OwnerIsTaker(o, sets, entries[1..], conn,
          if conn.protocol in entries[0].rule.action.sniffers then conn.protocol else sniffed);
      }
    }
  }

  /** What is known of a connection that no rule of a list decides; None when one does. */
  function Through(o: Oracle, sets: seq<RuleSet>, rules: seq<RouteRule>, conn: Conn, sniffed: string): Option<string> {
    if rules == [] then Some(sniffed)
    else if !MatchHolds(o, sets, rules[0].pattern, conn, sniffed) then Through(o, sets, rules[1..], conn, sniffed)
    else match rules[0].action
      case Sniff(names) => Through(o, sets, rules[1..], conn, if conn.protocol in names then conn.protocol else sniffed)
      case Resolve(_) => Through(o, sets, rules[1..], conn, sniffed)
      case _ => None
  }

  lemma TailOfTwo<T>(a: seq<T>, b: seq<T>)
    requires a != []
    ensures (a + b)[0] == a[0] && (a + b)[1..] == a[1..] + b
  {
  }

  lemma {:induction false} RunThrough(
      o: Oracle, sets: seq<RuleSet>, rules: seq<RouteRule>, rest: seq<RouteRule>, final: OutTag, other: OutTag, conn: Conn, sniffed: string)
    ensures Run(o, sets, rules + rest, final, conn, sniffed) ==
      match Through(o, sets, rules, conn, sniffed)
      case Some(known) => Run(o, sets, rest, final, conn, known)
      case None => Run(o, sets, rules, other, conn, sniffed)
  {
    if rules == [] {
      NothingBefore(rest);
    } else {
      TailOfTwo(rules, rest);
      RunThrough(o, sets, rules[1..], rest, final, other, conn, sniffed);
      if rules[0].action.Sniff? {
        RunThrough(o, sets, rules[1..], rest, final, other, conn,
          if conn.protocol in rules[0].action.sniffers then conn.protocol else sniffed);
      }
    }
  }

  lemma RulesOfTail(entries: seq<Entry>)
    requires entries != []
    ensures RulesOf(entries)[0] == entries[0].rule && RulesOf(entries)[1..] == RulesOf(entries[1..])
  {
  }

  lemma {:induction false} OwnerThrough(
      o: Oracle, sets: seq<RuleSet>, entries: seq<Entry>, rest: seq<Entry>, conn: Conn, sniffed: string)
    ensures Owner(o, sets, entries + rest, conn, sniffed) ==
      match Through(o, sets, RulesOf(entries), conn, sniffed)
      case Some(known) => Owner(o, sets, rest, conn, known)
      case None => Owner(o, sets, entries, conn, sniffed)
  {
    if entries == [] {
      NothingBefore(rest);
    } else {
      TailOfTwo(entries, rest);
      RulesOfTail(entries);
      OwnerThrough(o, sets, entries[1..], rest, conn, sniffed);
      if entries[0].rule.action.Sniff? {
        OwnerThrough(o, sets, entries[1..], rest, conn,
          if conn.protocol in entries[0].rule.action.sniffers then conn.protocol else sniffed);
      }
    }
  }

  predicate AppOwned(entries: seq<Entry>) {
    forall i :: 0 <= i < |entries| ==> entries[i].owner == ""
  }

  lemma {:induction false} AppOwnedOwner(o: Oracle, sets: seq<RuleSet>, entries: seq<Entry>, conn: Conn, sniffed: string)
    requires AppOwned(entries) && Through(o, sets, RulesOf(entries), conn, sniffed).None?
    ensures Owner(o, sets, entries, conn, sniffed) == ""
  {
    if entries != [] {
      RulesOfTail(entries);
      if MatchHolds(o, sets, entries[0].rule.pattern, conn, sniffed) {
        if entries[0].rule.action.Sniff? {
          AppOwnedOwner(o, sets, entries[1..], conn,
            if conn.protocol in entries[0].rule.action.sniffers then conn.protocol else sniffed);
        } else if entries[0].rule.action.Resolve? {
          AppOwnedOwner(o, sets, entries[1..], conn, sniffed);
        }
      } else {
        AppOwnedOwner(o, sets, entries[1..], conn, sniffed);
      }
    }
  }

  // ------------------------------------------------------------ part by part

  /** A rule that tells by the protocol sniffed. */
  function Asks(protocol: string): seq<RouteRule> {
    [RouteRule(Plain(NO_FIELDS.(protocol := [protocol]), false), Route(DirectOut))]
  }

  lemma AsksHolds(o: Oracle, sets: seq<RuleSet>, conn: Conn, sniffed: string, protocol: string)
    ensures Run(o, sets, Asks(protocol), Exit, conn, sniffed) == if sniffed == protocol then Goes(DirectOut) else Goes(Exit)
  {
    var rule := Asks(protocol)[0];
    assert Asks(protocol) == [rule] + [];
    RunOne(o, sets, rule, [], Exit, conn, sniffed);
    assert FieldsHold(o, sets, NO_FIELDS.(protocol := [protocol]), conn, sniffed) <==> sniffed == protocol;
  }

  /** The app's leading rules take exactly the app's own connections, and learn the protocol of the rest. */
  lemma LeadingThrough(
      plan: Plan, o: Oracle, sets: seq<RuleSet>, names: seq<string>, domains: seq<string>, conn: Conn)
    ensures Through(o, sets, RulesOf(LeadingEntries(plan, names, domains)), conn, "") ==
      if AppDecision(plan, domains, conn).Some? then None else Some(Sniffed(plan, conn))
  {
    var leading := RulesOf(LeadingEntries(plan, names, domains));
    var protocol := Sniffed(plan, conn);
    RunLeading(plan, o, sets, names, domains, [], ServerOut(0), conn);
    RunLeading(plan, o, sets, names, domains, [], ServerOut(1), conn);
    RunLeading(plan, o, sets, names, domains, Asks(protocol), Exit, conn);
    RunThrough(o, sets, leading, [], ServerOut(0), Exit, conn, "");
    RunThrough(o, sets, leading, [], ServerOut(1), Exit, conn, "");
    RunThrough(o, sets, leading, Asks(protocol), Exit, Exit, conn, "");
    AsksHolds(o, sets, conn, protocol, protocol);
    if Through(o, sets, leading, conn, "").Some? {
      AsksHolds(o, sets, conn, Through(o, sets, leading, conn, "").value, protocol);
    }
  }

  lemma UserEntryOwner(
      plan: Plan, o: Oracle, sets: seq<RuleSet>, rule: Rule, rest: seq<Entry>, conn: Conn, sniffed: string)
    requires Usable(plan.env.checks, rule) && Exact(plan, o, sets, rule, conn, sniffed)
    ensures Owner(o, sets, UserEntry(plan, rule) + rest, conn, sniffed) ==
      if Decides(plan, o, rule, conn) then rule.id else Owner(o, sets, rest, conn, sniffed)
  {
    match PatternOf(plan, rule) {
      case None => NothingBefore(rest);
      case Some(pattern) =>
        ActionIsDestination(plan, rule.action, rule.server);
        TailOfTwo(UserEntry(plan, rule), rest);
        NothingBefore(rest);
    }
  }

  lemma Regrouped<T>(a: seq<T>, b: seq<T>, c: seq<T>)
    ensures (a + b) + c == a + (b + c)
  {
  }

  lemma {:induction false} UserOwner(
      plan: Plan, o: Oracle, sets: seq<RuleSet>, rules: seq<Rule>, rest: seq<Entry>, conn: Conn, sniffed: string)
    requires forall r <- rules :: Usable(plan.env.checks, r) && Exact(plan, o, sets, r, conn, sniffed)
    ensures Owner(o, sets, UserEntries(plan, rules) + rest, conn, sniffed) ==
      match FirstHolding(plan, o, rules, conn)
      case Some(rule) => rule.id
      case None => Owner(o, sets, rest, conn, sniffed)
  {
    if rules == [] {
      NothingBefore(rest);
    } else {
      var init, last := rules[..|rules| - 1], rules[|rules| - 1];
      assert last in rules && forall r <- init :: r in rules;
      Regrouped(UserEntries(plan, init), UserEntry(plan, last), rest);
      UserOwner(plan, o, sets, init, UserEntry(plan, last) + rest, conn, sniffed);
      UserEntryOwner(plan, o, sets, last, rest, conn, sniffed);
    }
  }

  /** Below the graph: the app's Winbox and IPv6 rules, then the default. */
  function OwnerBelow(plan: Plan, conn: Conn): string {
    if SplitTunnelling(plan.rules, plan.defaultAction) && conn.port == WINBOX_PORT then ""
    else if conn.ipv6 then "" else DEFAULT_OWNER
  }

  lemma OwnerOne(o: Oracle, sets: seq<RuleSet>, e: Entry, rest: seq<Entry>, conn: Conn, sniffed: string)
    requires !e.rule.action.Sniff? && !e.rule.action.Resolve?
    ensures Owner(o, sets, [e] + rest, conn, sniffed) ==
      if MatchHolds(o, sets, e.rule.pattern, conn, sniffed) then e.owner else Owner(o, sets, rest, conn, sniffed)
  {
    TailOfTwo([e], rest);
    NothingBefore(rest);
  }

  lemma DefaultOwner(plan: Plan, o: Oracle, sets: seq<RuleSet>, conn: Conn, sniffed: string)
    ensures Owner(o, sets, DefaultEntries(plan), conn, sniffed) == DEFAULT_OWNER
  {
    OwnFieldsHold(o, sets, conn, sniffed, []);
    ActionIsDestination(plan, plan.defaultAction, "");
  }

  lemma TrailingOwner(plan: Plan, o: Oracle, sets: seq<RuleSet>, conn: Conn, sniffed: string)
    ensures Owner(o, sets, TrailingEntries(plan), conn, sniffed) == OwnerBelow(plan, conn)
  {
    var v6 := OwnEntry(NO_FIELDS.(onlyIpv6 := true), Reject(false));
    OwnFieldsHold(o, sets, conn, sniffed, []);
    DefaultOwner(plan, o, sets, conn, sniffed);
    OwnerOne(o, sets, v6, DefaultEntries(plan), conn, sniffed);
    Regrouped(WinboxEntries(plan), [v6], DefaultEntries(plan));
    if WinboxEntries(plan) == [] {
      NothingBefore([v6] + DefaultEntries(plan));
    } else {
      OwnerOne(o, sets, WinboxEntries(plan)[0], [v6] + DefaultEntries(plan), conn, sniffed);
      assert WinboxEntries(plan) == [WinboxEntries(plan)[0]];
    }
  }

  lemma LeadingAppOwned(plan: Plan, names: seq<string>, domains: seq<string>)
    ensures AppOwned(LeadingEntries(plan, names, domains))
  {
    var bypass, base, servers := BypassEntries(plan), BaseEntries(plan), ServerEntries(plan, names, domains);
    AppOwnedBoth(bypass, base);
    AppOwnedBoth(bypass + base, servers);
    AppOwnedBoth(bypass + base + servers, LOCAL_ENTRIES);
  }

  lemma AppOwnedBoth(a: seq<Entry>, b: seq<Entry>)
    requires AppOwned(a) && AppOwned(b)
    ensures AppOwned(a + b)
  {
  }

  // ------------------------------------------------------------- the theorem

  /** How the core reports the rule that decided a connection. */
  function MatchedBy(o: Oracle, sets: seq<RuleSet>, entries: seq<Entry>, conn: Conn): Matched {
    var i := Takes(o, sets, entries, conn, "");
    if i < |entries| then Known(i) else NoRule
  }

  /** Whose doing a connection is: "" when the app decided it itself. */
  function DeciderOf(plan: Plan, o: Oracle, domains: seq<string>, conn: Conn): string {
    if AppDecision(plan, domains, conn).Some? then ""
    else match FirstHolding(plan, o, plan.rules, conn)
      case Some(rule) => rule.id
      case None => OwnerBelow(plan, conn)
  }

  lemma OwnerIsAttributed(o: Oracle, sets: seq<RuleSet>, entries: seq<Entry>, conn: Conn)
    ensures var owner := Owner(o, sets, entries, conn, "");
      AttributedTo(|entries|, OwnersOf(entries), MatchedBy(o, sets, entries, conn)) == if owner == "" then None else Some(owner)
  {
    OwnerIsTaker(o, sets, entries, conn, "");
  }

  lemma OwnerIsDecider(
      plan: Plan, o: Oracle, sets: seq<RuleSet>, names: seq<string>, domains: seq<string>, conn: Conn)
    requires SetsReady(plan, sets) && AllExact(plan)
    ensures Owner(o, sets, RouteEntries(plan, names, domains), conn, "") == DeciderOf(plan, o, domains, conn)
  {
    var leading, trailing := LeadingEntries(plan, names, domains), TrailingEntries(plan);
    var usable := UsableRules(plan.env.checks, plan.rules);
    Regrouped(leading, UserEntries(plan, usable), trailing);
    OwnerThrough(o, sets, leading, UserEntries(plan, usable) + trailing, conn, "");
    LeadingThrough(plan, o, sets, names, domains, conn);
    LeadingAppOwned(plan, names, domains);
    if AppDecision(plan, domains, conn).Some? {
      AppOwnedOwner(o, sets, leading, conn, "");
    } else {
      AllRulesExact(plan, o, sets, conn);
      UserOwner(plan, o, sets, usable, trailing, conn, Sniffed(plan, conn));
      FirstAmongUsable(plan, o, plan.rules, conn);
      TrailingOwner(plan, o, sets, conn, Sniffed(plan, conn));
    }
  }

  /**
   * The count a connection shows up in is the graph rule's that decided it, or
   * the default's; the app's own decisions are counted nowhere.
   */
  lemma HitsNameTheDecider(
      plan: Plan, o: Oracle, sets: seq<RuleSet>, names: seq<string>, domains: seq<string>, conn: Conn)
    requires SetsReady(plan, sets) && AllExact(plan)
    ensures var entries := RouteEntries(plan, names, domains);
      AttributedTo(|entries|, OwnersOf(entries), MatchedBy(o, sets, entries, conn)) ==
        if DeciderOf(plan, o, domains, conn) == "" then None else Some(DeciderOf(plan, o, domains, conn))
  {
    OwnerIsDecider(plan, o, sets, names, domains, conn);
    OwnerIsAttributed(o, sets, RouteEntries(plan, names, domains), conn);
  }
}
