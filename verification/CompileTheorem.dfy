// The compiled rule list means what the graph means.

module CompileTheorem {
  import opened Wrappers
  import opened Sequences
  import opened Text
  import opened DomainLabels
  import opened Models
  import opened CoreConfig
  import opened RouteSpec
  import opened RouteMeaning

  // ------------------------------------------------------- declared rule-sets

  predicate ResolvedHolds(plan: Plan, o: Oracle, kind: Kind, value: string, conn: Conn) {
    SetFor(plan, kind, value, false).Some? && o.holds(SetFor(plan, kind, value, false).value, conn)
  }

  lemma TagHolds(plan: Plan, o: Oracle, sets: seq<RuleSet>, s: RuleSet, conn: Conn)
    requires Faithful(plan, sets) && s in sets
    ensures SetHolds(o, sets, s.tag, conn) <==> o.holds(s, conn)
  {
  }

  lemma SetsMean(plan: Plan, o: Oracle, sets: seq<RuleSet>, kind: Kind, values: seq<string>, conn: Conn)
    requires Faithful(plan, sets) && Declares(sets, SetsFor(plan, kind, values, false))
    ensures (exists tag <- TagsOf(SetsFor(plan, kind, values, false)) :: SetHolds(o, sets, tag, conn))
      <==> (exists v <- values :: ResolvedHolds(plan, o, kind, v, conn))
  {
    var found := SetsFor(plan, kind, values, false);
    CollectAny(value => SetFor(plan, kind, value, false), values, s => o.holds(s, conn));
    assert (exists s <- found :: o.holds(s, conn)) <==> (exists v <- values :: ResolvedHolds(plan, o, kind, v, conn));
    forall s <- found
      ensures SetHolds(o, sets, s.tag, conn) <==> o.holds(s, conn)
    {
      TagHolds(plan, o, sets, s, conn);
    }
    if s :| s in found && o.holds(s, conn) {
      MapMembers((s: RuleSet) => s.tag, found, s.tag);
    }
    if tag :| tag in TagsOf(found) && SetHolds(o, sets, tag, conn) {
      MapMembers((s: RuleSet) => s.tag, found, tag);
    }
  }

  lemma SetFieldsHold(o: Oracle, sets: seq<RuleSet>, tags: seq<SetTag>, conn: Conn, sniffed: string)
    ensures var f := NO_FIELDS.(ruleSet := tags);
      (f != NO_FIELDS && FieldsHold(o, sets, f, conn, sniffed)) <==> (exists tag <- tags :: SetHolds(o, sets, tag, conn))
  {
  }

  // ------------------------------------------------------------- conditions

  /** What the emitted form of these entries can see: everything but lists that did not resolve. */
  predicate VisibleHolds(plan: Plan, o: Oracle, kind: Kind, value: string, conn: Conn) {
    if UsesSets(kind) then ResolvedHolds(plan, o, kind, value, conn) else ValueHolds(plan, o, kind, value, conn)
  }

  predicate AnyVisible(plan: Plan, o: Oracle, kind: Kind, values: seq<string>, conn: Conn) {
    exists v <- values :: VisibleHolds(plan, o, kind, v, conn)
  }

  /** Whatever protocols these entries name are among those the core was told to sniff for. */
  predicate Sniffable(kind: Kind, values: seq<string>, conn: Conn, sniffed: string) {
    kind == Protocol ==> forall v <- values :: v == conn.protocol <==> v == sniffed
  }

  ghost predicate Ready(plan: Plan, sets: seq<RuleSet>, condition: Condition, conn: Conn, sniffed: string) {
    && Faithful(plan, sets)
    && Declares(sets, SetsOfMatcher(plan, condition))
    && ValidMatcherKind(condition.kind)
    && Sniffable(condition.kind, Cleaned(plan.env.checks, condition.kind, condition.values), conn, sniffed)
  }

  lemma SetKindMeans(plan: Plan, o: Oracle, sets: seq<RuleSet>, kind: Kind, values: seq<string>, conn: Conn, sniffed: string)
    requires Faithful(plan, sets) && UsesSets(kind) && Declares(sets, SetsFor(plan, kind, values, false))
    ensures (BaseMatch(plan, kind, values).Some? && MatchHolds(o, sets, BaseMatch(plan, kind, values).value, conn, sniffed))
      <==> AnyVisible(plan, o, kind, values, conn)
  {
    var tags := TagsOf(SetsFor(plan, kind, values, false));
    SetsMean(plan, o, sets, kind, values, conn);
    SetFieldsHold(o, sets, tags, conn, sniffed);
    assert BaseMatch(plan, kind, values) == NonEmpty(NO_FIELDS.(ruleSet := tags));
    assert AnyVisible(plan, o, kind, values, conn) <==> (exists v <- values :: ResolvedHolds(plan, o, kind, v, conn));
  }

  lemma AnyPortVisible(plan: Plan, o: Oracle, values: seq<string>, conn: Conn)
    ensures AnyVisible(plan, o, Port, values, conn) <==> (exists v <- values :: PortHolds(v, conn.port))
  {
    forall v <- values
      ensures VisibleHolds(plan, o, Port, v, conn) <==> PortHolds(v, conn.port)
    {
    }
  }

  lemma PortBase(plan: Plan, values: seq<string>)
    ensures BaseMatch(plan, Port, values) ==
      NonEmpty(NO_FIELDS.(port := SinglePorts(values), portRange := PortRanges(values)))
  {
  }

  lemma PortKindMeans(plan: Plan, o: Oracle, sets: seq<RuleSet>, values: seq<string>, conn: Conn, sniffed: string)
    requires forall v <- values :: PortBounds(v).Some?
    ensures (BaseMatch(plan, Port, values).Some? && MatchHolds(o, sets, BaseMatch(plan, Port, values).value, conn, sniffed))
      <==> AnyVisible(plan, o, Port, values, conn)
  {
    var f := NO_FIELDS.(port := SinglePorts(values), portRange := PortRanges(values));
    PortBase(plan, values);
    assert NonEmpty(f).Some? && MatchHolds(o, sets, NonEmpty(f).value, conn, sniffed)
      <==> f != NO_FIELDS && FieldsHold(o, sets, f, conn, sniffed);
    PortFieldsHold(o, sets, SinglePorts(values), PortRanges(values), conn, sniffed);
    PortListsMean(values, conn.port);
    AnyPortVisible(plan, o, values, conn);
  }

  lemma PlainKindMeans(plan: Plan, o: Oracle, sets: seq<RuleSet>, kind: Kind, values: seq<string>, conn: Conn, sniffed: string)
    requires values != [] && (kind.Ip? || kind.DomainRegex? || kind.Protocol? || kind.Network?) && Sniffable(kind, values, conn, sniffed)
    ensures (BaseMatch(plan, kind, values).Some? && MatchHolds(o, sets, BaseMatch(plan, kind, values).value, conn, sniffed))
      <==> AnyVisible(plan, o, kind, values, conn)
  {
    var m := BaseMatch(plan, kind, values).value;
    if kind == Ip || kind == DomainRegex {
      assert FieldsHold(o, sets, m.fields, conn, sniffed) <==> AddressHolds(o, m.fields, conn);
    } else if kind == Protocol {
      assert FieldsHold(o, sets, m.fields, conn, sniffed) <==> sniffed in values;
    } else {
      assert FieldsHold(o, sets, m.fields, conn, sniffed) <==> conn.network in values;
    }
  }

  lemma BaseMeans(plan: Plan, o: Oracle, sets: seq<RuleSet>, kind: Kind, values: seq<string>, conn: Conn, sniffed: string)
    requires values != [] && ValidMatcherKind(kind) && Faithful(plan, sets) && Sniffable(kind, values, conn, sniffed)
    requires UsesSets(kind) ==> Declares(sets, SetsFor(plan, kind, values, false))
    requires kind == Port ==> forall v <- values :: PortBounds(v).Some?
    ensures (BaseMatch(plan, kind, values).Some? && MatchHolds(o, sets, BaseMatch(plan, kind, values).value, conn, sniffed))
      <==> AnyVisible(plan, o, kind, values, conn)
  {
    if UsesSets(kind) {
      SetKindMeans(plan, o, sets, kind, values, conn, sniffed);
    } else if kind == Apps {
      AppsMean(o, sets, plan.env, values, conn, sniffed);
    } else if kind == Domains {
      DomainsMean(o, sets, values, conn, sniffed);
    } else if kind == Port {
      PortKindMeans(plan, o, sets, values, conn, sniffed);
    } else {
      PlainKindMeans(plan, o, sets, kind, values, conn, sniffed);
    }
  }

  predicate VisibleConditionHolds(plan: Plan, o: Oracle, c: Condition, conn: Conn) {
    AnyVisible(plan, o, c.kind, Cleaned(plan.env.checks, c.kind, c.values), conn) != c.invert
  }

  lemma BaseNeverInverted(plan: Plan, kind: Kind, values: seq<string>)
    ensures BaseMatch(plan, kind, values).Some? ==> !BaseMatch(plan, kind, values).value.invert
  {
  }

  lemma InvertedMeans(o: Oracle, sets: seq<RuleSet>, m: Match, conn: Conn, sniffed: string)
    requires !m.invert
    ensures MatchHolds(o, sets, m.(invert := true), conn, sniffed) == !MatchHolds(o, sets, m, conn, sniffed)
  {
  }

  /** A condition's emitted form says what the condition says, as far as its lists resolved. */
  lemma MatcherMeans(plan: Plan, o: Oracle, sets: seq<RuleSet>, c: Condition, conn: Conn, sniffed: string)
    requires Ready(plan, sets, c, conn, sniffed)
    ensures MatcherOf(plan, c).Some? ==>
      (MatchHolds(o, sets, MatcherOf(plan, c).value, conn, sniffed) <==> VisibleConditionHolds(plan, o, c, conn))
    ensures MatcherOf(plan, c).None? ==>
      !AnyVisible(plan, o, c.kind, Cleaned(plan.env.checks, c.kind, c.values), conn)
  {
    var values := Cleaned(plan.env.checks, c.kind, c.values);
    if values != [] {
      CleanedMembers(plan.env.checks, c.kind, c.values);
      BaseMeans(plan, o, sets, c.kind, values, conn, sniffed);
      BaseNeverInverted(plan, c.kind, values);
      if BaseMatch(plan, c.kind, values).Some? {
        InvertedMeans(o, sets, BaseMatch(plan, c.kind, values).value, conn, sniffed);
      }
    }
  }

  // --------------------------------------- how far an emitted form can stray

  predicate Resolves(plan: Plan, c: Condition) {
    UsesSets(c.kind) ==>
      forall v <- Cleaned(plan.env.checks, c.kind, c.values) :: SetFor(plan, c.kind, v, false).Some?
  }

  /** Something checkable before building: the emitted condition cannot hold where the condition does not. */
  predicate NeverMore(plan: Plan, c: Condition) {
    !c.invert || MatcherOf(plan, c).None? || Resolves(plan, c)
  }

  /** The condition cannot hold where its emitted form does not, or is missing. */
  predicate NeverLess(plan: Plan, c: Condition) {
    if MatcherOf(plan, c).None? then !c.invert && Resolves(plan, c) else c.invert || Resolves(plan, c)
  }

  lemma VisibleIsPart(plan: Plan, o: Oracle, c: Condition, conn: Conn)
    ensures var values := Cleaned(plan.env.checks, c.kind, c.values);
      (AnyVisible(plan, o, c.kind, values, conn) ==> AnyValueHolds(plan, o, c.kind, values, conn))
      && (Resolves(plan, c) ==> (AnyVisible(plan, o, c.kind, values, conn) <==> AnyValueHolds(plan, o, c.kind, values, conn)))
  {
    var values := Cleaned(plan.env.checks, c.kind, c.values);
    forall v <- values
      ensures VisibleHolds(plan, o, c.kind, v, conn) ==> ValueHolds(plan, o, c.kind, v, conn)
      ensures Resolves(plan, c) ==> (VisibleHolds(plan, o, c.kind, v, conn) <==> ValueHolds(plan, o, c.kind, v, conn))
    {
      VisibleValue(plan, o, c.kind, v, conn);
    }
  }

  lemma VisibleValue(plan: Plan, o: Oracle, kind: Kind, v: string, conn: Conn)
    ensures VisibleHolds(plan, o, kind, v, conn) ==> ValueHolds(plan, o, kind, v, conn)
    ensures SetFor(plan, kind, v, false).Some? || !UsesSets(kind) ==>
      (VisibleHolds(plan, o, kind, v, conn) <==> ValueHolds(plan, o, kind, v, conn))
  {
  }

  predicate EmittedHolds(plan: Plan, o: Oracle, sets: seq<RuleSet>, c: Condition, conn: Conn, sniffed: string) {
    match MatcherOf(plan, c) case Some(m) => MatchHolds(o, sets, m, conn, sniffed) case None => false
  }

  lemma ConditionStrays(plan: Plan, o: Oracle, sets: seq<RuleSet>, c: Condition, conn: Conn, sniffed: string)
    requires Ready(plan, sets, c, conn, sniffed)
    ensures NeverMore(plan, c) && EmittedHolds(plan, o, sets, c, conn, sniffed) ==> ConditionHolds(plan, o, c, conn)
    ensures NeverLess(plan, c) && ConditionHolds(plan, o, c, conn) ==> EmittedHolds(plan, o, sets, c, conn, sniffed)
  {
    MatcherMeans(plan, o, sets, c, conn, sniffed);
    VisibleIsPart(plan, o, c, conn);
    assert ConditionHolds(plan, o, c, conn) <==>
      AnyValueHolds(plan, o, c.kind, Cleaned(plan.env.checks, c.kind, c.values), conn) != c.invert;
  }

  /** Where the guard fails, some world makes the emitted condition hold where the condition does not. */
  lemma WideningWitness(plan: Plan, sets: seq<RuleSet>, c: Condition, conn: Conn, sniffed: string) returns (o: Oracle)
    requires Ready(plan, sets, c, conn, sniffed) && !NeverMore(plan, c)
    ensures EmittedHolds(plan, o, sets, c, conn, sniffed) && !ConditionHolds(plan, o, c, conn)
  {
    o := Oracle((p, h) => false, (p, a) => false, (s, k) => false, (k, v, n) => true);
    var values := Cleaned(plan.env.checks, c.kind, c.values);
    var missing :| missing in values && SetFor(plan, c.kind, missing, false).None?;
    assert ValueHolds(plan, o, c.kind, missing, conn);
    MatcherMeans(plan, o, sets, c, conn, sniffed);
  }

  // ----------------------------------------------------------------- rules

  /** The emitted rule never matches more than the rule. */
  predicate Narrow(plan: Plan, rule: Rule) {
    PatternOf(plan, rule).None?
    || (if !rule.kind.Logical? then NeverMore(plan, Matcher(rule))
        else forall c <- UsableConditions(plan.env.checks, rule.conditions) ::
          if rule.invert then NeverLess(plan, c) else NeverMore(plan, c))
  }

  /** The emitted rule never matches less than the rule. */
  predicate Wide(plan: Plan, rule: Rule) {
    if !rule.kind.Logical? then NeverLess(plan, Matcher(rule))
    else
      && (rule.invert ==> PatternOf(plan, rule).Some?)
      && (forall c <- UsableConditions(plan.env.checks, rule.conditions) ::
            if rule.invert then NeverMore(plan, c) else NeverLess(plan, c))
  }

  predicate PatternHolds(plan: Plan, o: Oracle, sets: seq<RuleSet>, rule: Rule, conn: Conn, sniffed: string) {
    match PatternOf(plan, rule) case Some(m) => MatchHolds(o, sets, m, conn, sniffed) case None => false
  }

  /** The emitted parts are the emitted conditions, all of them when all are asked for. */
  lemma PartsMean(plan: Plan, o: Oracle, sets: seq<RuleSet>, conditions: seq<Condition>, all: bool, conn: Conn, sniffed: string)
    ensures PartsOf(plan, conditions, all).None? <==> all && exists c <- conditions :: MatcherOf(plan, c).None?
    ensures var parts := PartsOf(plan, conditions, all); parts.Some? ==>
      && ((exists p <- parts.value :: MatchHolds(o, sets, p, conn, sniffed))
          <==> (exists c <- conditions :: EmittedHolds(plan, o, sets, c, conn, sniffed)))
      && (all ==> ((forall p <- parts.value :: MatchHolds(o, sets, p, conn, sniffed))
          <==> (forall c <- conditions :: EmittedHolds(plan, o, sets, c, conn, sniffed))))
  {
    var emit := c => MatcherOf(plan, c);
    CollectAllMembers(emit, conditions, all, Plain(NO_FIELDS, false));
    var parts := PartsOf(plan, conditions, all);
    if parts.Some? {
      forall c <- conditions | MatcherOf(plan, c).Some?
        ensures MatcherOf(plan, c).value in parts.value
      {
        CollectAllMembers(emit, conditions, all, MatcherOf(plan, c).value);
      }
      forall p <- parts.value
        ensures exists c <- conditions :: MatcherOf(plan, c) == Some(p)
      {
        CollectAllMembers(emit, conditions, all, p);
        var c :| c in conditions && emit(c) == Some(p);
      }
    }
  }

  lemma {:induction false} PartsDeclare(plan: Plan, conditions: seq<Condition>, all: bool)
    requires PartsOf(plan, conditions, all).Some?
    ensures forall c <- conditions :: Declares(SetsOfParts(plan, conditions, all), SetsOfMatcher(plan, c))
  {
    if conditions != [] {
      var init, last := conditions[..|conditions| - 1], conditions[|conditions| - 1];
      PartsDeclare(plan, init, all);
      assert conditions == init + [last];
    }
  }

  /** What makes a rule's emitted form readable: its sets are declared and its protocols are sniffed for. */
  ghost predicate RuleReady(plan: Plan, sets: seq<RuleSet>, rule: Rule, conn: Conn, sniffed: string) {
    && Faithful(plan, sets)
    && Declares(sets, SetsOfRule(plan, rule))
    && Usable(plan.env.checks, rule)
    && forall c <- Matchers(plan.env.checks, rule) ::
         Sniffable(c.kind, Cleaned(plan.env.checks, c.kind, c.values), conn, sniffed)
  }

  lemma {:induction false} UsableConditionsMembers(checks: Checks, conditions: seq<Condition>)
    ensures forall c <- UsableConditions(checks, conditions) :: ValidMatcherKind(c.kind)
  {
    if conditions != [] {
      var init, last := conditions[..|conditions| - 1], conditions[|conditions| - 1];
      UsableConditionsMembers(checks, init);
      assert conditions == init + [last];
      assert last in conditions;
    }
  }

  /** All of the conditions hold, or any of them. */
  predicate ConditionsHold(plan: Plan, o: Oracle, conditions: seq<Condition>, all: bool, conn: Conn) {
    if all then forall c <- conditions :: ConditionHolds(plan, o, c, conn)
    else exists c <- conditions :: ConditionHolds(plan, o, c, conn)
  }

  predicate EmittedAll(plan: Plan, o: Oracle, sets: seq<RuleSet>, conditions: seq<Condition>, all: bool, conn: Conn, sniffed: string) {
    if all then forall c <- conditions :: EmittedHolds(plan, o, sets, c, conn, sniffed)
    else exists c <- conditions :: EmittedHolds(plan, o, sets, c, conn, sniffed)
  }

  predicate PartsHold(o: Oracle, sets: seq<RuleSet>, parts: seq<Match>, all: bool, conn: Conn, sniffed: string) {
    if all then forall p <- parts :: MatchHolds(o, sets, p, conn, sniffed)
    else exists p <- parts :: MatchHolds(o, sets, p, conn, sniffed)
  }

  lemma AssembledHolds(o: Oracle, sets: seq<RuleSet>, mode: Mode, parts: seq<Match>, invert: bool, conn: Conn, sniffed: string)
    requires parts != []
    ensures MatchHolds(o, sets, Assemble(mode, parts, invert).value, conn, sniffed)
      == (PartsHold(o, sets, parts, mode == All, conn, sniffed) != invert)
  {
    if |parts| == 1 && !invert {
      assert forall p :: p in parts <==> p == parts[0];
    }
  }

  lemma PatternIsEmitted(plan: Plan, o: Oracle, sets: seq<RuleSet>, rule: Rule, conn: Conn, sniffed: string)
    requires rule.kind.Logical? && PatternOf(plan, rule).Some?
    ensures var usable := UsableConditions(plan.env.checks, rule.conditions);
      PatternHolds(plan, o, sets, rule, conn, sniffed)
      == (EmittedAll(plan, o, sets, usable, rule.mode == All, conn, sniffed) != rule.invert)
  {
    var usable := UsableConditions(plan.env.checks, rule.conditions);
    var parts := PartsOf(plan, usable, rule.mode == All).value;
    PartsMean(plan, o, sets, usable, rule.mode == All, conn, sniffed);
    AssembledHolds(o, sets, rule.mode, parts, rule.invert, conn, sniffed);
  }

  lemma EmittedImplies(plan: Plan, o: Oracle, sets: seq<RuleSet>, conditions: seq<Condition>, all: bool, conn: Conn, sniffed: string)
    ensures (forall c <- conditions :: EmittedHolds(plan, o, sets, c, conn, sniffed) ==> ConditionHolds(plan, o, c, conn))
      ==> (EmittedAll(plan, o, sets, conditions, all, conn, sniffed) ==> ConditionsHold(plan, o, conditions, all, conn))
    ensures (forall c <- conditions :: ConditionHolds(plan, o, c, conn) ==> EmittedHolds(plan, o, sets, c, conn, sniffed))
      ==> (ConditionsHold(plan, o, conditions, all, conn) ==> EmittedAll(plan, o, sets, conditions, all, conn, sniffed))
  {
  }

  lemma LogicalStrays(plan: Plan, o: Oracle, sets: seq<RuleSet>, rule: Rule, conn: Conn, sniffed: string)
    requires rule.kind.Logical? && RuleReady(plan, sets, rule, conn, sniffed) && PatternOf(plan, rule).Some?
    ensures Narrow(plan, rule) && PatternHolds(plan, o, sets, rule, conn, sniffed) ==> RuleHolds(plan, o, rule, conn)
    ensures Wide(plan, rule) && RuleHolds(plan, o, rule, conn) ==> PatternHolds(plan, o, sets, rule, conn, sniffed)
  {
    var usable := UsableConditions(plan.env.checks, rule.conditions);
    var all := rule.mode == All;
    UsableConditionsMembers(plan.env.checks, rule.conditions);
    PartsDeclare(plan, usable, all);
    PatternIsEmitted(plan, o, sets, rule, conn, sniffed);
    EmittedImplies(plan, o, sets, usable, all, conn, sniffed);
    assert RuleHolds(plan, o, rule, conn) == (ConditionsHold(plan, o, usable, all, conn) != rule.invert);
    forall c <- usable
      ensures NeverMore(plan, c) && EmittedHolds(plan, o, sets, c, conn, sniffed) ==> ConditionHolds(plan, o, c, conn)
      ensures NeverLess(plan, c) && ConditionHolds(plan, o, c, conn) ==> EmittedHolds(plan, o, sets, c, conn, sniffed)
    {
      ConditionStrays(plan, o, sets, c, conn, sniffed);
    }
  }

  /** A rule dropped because "all of" lost a part could not have held, if that part resolves. */
  lemma DroppedNeverHolds(plan: Plan, o: Oracle, sets: seq<RuleSet>, rule: Rule, conn: Conn, sniffed: string)
    requires rule.kind.Logical? && RuleReady(plan, sets, rule, conn, sniffed)
    requires PatternOf(plan, rule).None? && Wide(plan, rule) && Usable(plan.env.checks, rule)
    ensures !RuleHolds(plan, o, rule, conn)
  {
    var usable := UsableConditions(plan.env.checks, rule.conditions);
    var all := rule.mode == All;
    UsableConditionsMembers(plan.env.checks, rule.conditions);
    PartsMean(plan, o, sets, usable, all, conn, sniffed);
    forall c <- usable | MatcherOf(plan, c).None?
      ensures !ConditionHolds(plan, o, c, conn)
    {
      NothingEmittedNothingDeclared(plan, c);
      ConditionStrays(plan, o, sets, c, conn, sniffed);
    }
    if PartsOf(plan, usable, all).Some? {
      NoPartsNoMatchers(plan, usable, all);
    }
  }

  lemma NothingEmittedNothingDeclared(plan: Plan, c: Condition)
    requires MatcherOf(plan, c).None? && ValidMatcherKind(c.kind)
    ensures SetsOfMatcher(plan, c) == []
  {
    var values := Cleaned(plan.env.checks, c.kind, c.values);
    if UsesSets(c.kind) && values != [] {
      var tags := TagsOf(SetsFor(plan, c.kind, values, false));
      assert BaseMatch(plan, c.kind, values) == NonEmpty(NO_FIELDS.(ruleSet := tags));
    }
  }

  lemma NoPartsNoMatchers(plan: Plan, conditions: seq<Condition>, all: bool)
    requires PartsOf(plan, conditions, all) == Some([])
    ensures forall c <- conditions :: MatcherOf(plan, c).None?
  {
    forall c <- conditions
      ensures MatcherOf(plan, c).None?
    {
      if MatcherOf(plan, c).Some? {
        CollectAllMembers(d => MatcherOf(plan, d), conditions, all, MatcherOf(plan, c).value);
      }
    }
  }

  /** The guards do their work: a narrow rule never matches more, a wide one never less. */
  lemma RuleStrays(plan: Plan, o: Oracle, sets: seq<RuleSet>, rule: Rule, conn: Conn, sniffed: string)
    requires RuleReady(plan, sets, rule, conn, sniffed)
    ensures Narrow(plan, rule) && PatternHolds(plan, o, sets, rule, conn, sniffed) ==> RuleHolds(plan, o, rule, conn)
    ensures Wide(plan, rule) && RuleHolds(plan, o, rule, conn) ==> PatternHolds(plan, o, sets, rule, conn, sniffed)
  {
    if !rule.kind.Logical? {
      SniffableOnce(plan.env.checks, rule, conn, sniffed);
      ConditionStrays(plan, o, sets, Matcher(rule), conn, sniffed);
    } else if PatternOf(plan, rule).Some? {
      LogicalStrays(plan, o, sets, rule, conn, sniffed);
    } else if Wide(plan, rule) {
      DroppedNeverHolds(plan, o, sets, rule, conn, sniffed);
    }
  }

  lemma SniffableOnce(checks: Checks, rule: Rule, conn: Conn, sniffed: string)
    requires !rule.kind.Logical?
    requires forall c <- Matchers(checks, rule) :: Sniffable(c.kind, Cleaned(checks, c.kind, c.values), conn, sniffed)
    ensures Sniffable(rule.kind, Cleaned(checks, rule.kind, rule.values), conn, sniffed)
  {
    var c := Matcher(rule).(values := Cleaned(checks, rule.kind, rule.values));
    assert c in Matchers(checks, rule);
    CleanedTwice(checks, rule.kind, rule.values);
  }
}
