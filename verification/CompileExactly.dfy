// When a condition's compiled form says exactly what the condition says, in every
// world: which entries name something, and what an inversion of nothing does.

module CompileExactly {
  import opened Wrappers
  import opened Sequences
  import opened Text
  import opened Models
  import opened CoreConfig
  import opened RouteSpec
  import opened RouteMeaning
  import opened CompileTheorem

  // ------------------------------------------------------ entries naming something

  predicate SomeText(values: seq<string>) { exists v <- values :: v != "" }

  /** An entry the core can be given: a program with a name or a path, a domain, a list that resolves. */
  predicate EntryNames(plan: Plan, kind: Kind, value: string) {
    match kind
    case Apps => plan.env.android || SomeText(plan.env.namesOf(value)) || SomeText(plan.env.pathsOf(value))
    case Domains => DomainEntry(value) != "" && DomainEntry(value) != "*."
    case GeoSite => SetFor(plan, kind, value, false).Some?
    case GeoIp => SetFor(plan, kind, value, false).Some?
    case ListUrl => SetFor(plan, kind, value, false).Some?
    case _ => true
  }

  predicate NamesSomething(plan: Plan, c: Condition) {
    exists v <- Cleaned(plan.env.checks, c.kind, c.values) :: EntryNames(plan, c.kind, v)
  }

  lemma SomeMember<T>(values: seq<T>)
    ensures values != [] <==> exists v :: v in values
  {
    if values != [] {
      assert values[0] in values;
    }
  }

  lemma DistinctSome<S, T(!new)>(accept: S -> Option<T>, values: seq<S>)
    ensures Distinct(accept, values) != [] <==> exists v <- values :: accept(v).Some?
  {
    var all := (t: T) => true;
    DistinctAny(accept, values, all);
    SomeMember(Distinct(accept, values));
    assert (exists t <- Distinct(accept, values) :: all(t)) <==> (exists t :: t in Distinct(accept, values));
    assert (exists v <- values :: accept(v).Some? && all(accept(v).value)) <==> (exists v <- values :: accept(v).Some?);
  }

  lemma CollectSome<S, T(!new)>(accept: S -> Option<T>, values: seq<S>)
    ensures Collect(accept, values) != [] <==> exists v <- values :: accept(v).Some?
  {
    var all := (t: T) => true;
    CollectAny(accept, values, all);
    SomeMember(Collect(accept, values));
    assert (exists t <- Collect(accept, values) :: all(t)) <==> (exists t :: t in Collect(accept, values));
    assert (exists v <- values :: accept(v).Some? && all(accept(v).value)) <==> (exists v <- values :: accept(v).Some?);
  }

  /** Deduping a flattened list leaves something exactly when one of its parts has some text. */
  lemma FlatSome(f: string -> seq<string>, values: seq<string>)
    ensures SomeText(Flatten(Map(f, values))) <==> exists v <- values :: SomeText(f(v))
  {
    if text :| text in Flatten(Map(f, values)) && text != "" {
      FlatMapMembers(f, values, text);
      var v :| v in values && text in f(v);
      assert SomeText(f(v));
    }
    if v :| v in values && SomeText(f(v)) {
      var text :| text in f(v) && text != "";
      FlatMapMembers(f, values, text);
    }
  }

  lemma EitherText(a: seq<string>, b: seq<string>)
    ensures SomeText(a + b) <==> SomeText(a) || SomeText(b)
  {
    assert forall v :: v in a + b <==> v in a || v in b;
  }

  lemma DedupeSome(values: seq<string>)
    ensures Dedupe(values) != [] <==> SomeText(values)
  {
    forall v
      ensures v in Dedupe(values) <==> v != "" && v in values
    {
      DedupeMembers(values, v);
    }
    SomeMember(Dedupe(values));
  }

  lemma AppsName(env: Env, values: seq<string>)
    ensures AppsMatch(env, values).Some? <==>
      env.android || exists v <- values :: SomeText(env.namesOf(v)) || SomeText(env.pathsOf(v))
  {
    if !env.android {
      var own, base := Flatten(Map(env.namesOf, values)), Flatten(Map(env.baseNames, ProcessPaths(env, values)));
      DedupeSome(Flatten(Map(env.pathsOf, values)));
      DedupeSome(own + base);
      FlatSome(env.pathsOf, values);
      FlatSome(env.namesOf, values);
      NoPathsNoBases(env, values);
      EitherText(own, base);
    }
  }

  lemma NoPathsNoBases(env: Env, values: seq<string>)
    ensures ProcessPaths(env, values) == [] ==> Flatten(Map(env.baseNames, ProcessPaths(env, values))) == []
  {
  }

  lemma DomainNames(value: string)
    ensures ExactOf(value).Some? || SuffixOf(value).Some? <==> DomainEntry(value) != "" && DomainEntry(value) != "*."
  {
  }

  lemma DomainsName(plan: Plan, values: seq<string>)
    ensures BaseMatch(plan, Domains, values).Some? <==> exists v <- values :: EntryNames(plan, Domains, v)
  {
    var f := NO_FIELDS.(domain := ExactDomains(values), domainSuffix := SuffixDomains(values));
    assert f == NO_FIELDS <==> ExactDomains(values) == [] && SuffixDomains(values) == [];
    DistinctSome(ExactOf, values);
    DistinctSome(SuffixOf, values);
    forall v <- values
      ensures ExactOf(v).Some? || SuffixOf(v).Some? <==> EntryNames(plan, Domains, v)
    {
      DomainNames(v);
    }
  }

  lemma SetsName(plan: Plan, kind: Kind, values: seq<string>)
    requires UsesSets(kind)
    ensures BaseMatch(plan, kind, values).Some? <==> exists v <- values :: EntryNames(plan, kind, v)
  {
    var found := SetsFor(plan, kind, values, false);
    CollectSome(value => SetFor(plan, kind, value, false), values);
    assert TagsOf(found) == [] <==> found == [];
    assert BaseMatch(plan, kind, values) == NonEmpty(NO_FIELDS.(ruleSet := TagsOf(found)));
  }

  lemma PortsName(plan: Plan, values: seq<string>)
    requires values != [] && forall v <- values :: PortBounds(v).Some?
    ensures BaseMatch(plan, Port, values).Some?
  {
    var f := NO_FIELDS.(port := SinglePorts(values), portRange := PortRanges(values));
    assert f == NO_FIELDS <==> SinglePorts(values) == [] && PortRanges(values) == [];
    CollectSome(SinglePort, values);
    CollectSome(RangeText, values);
    PortBase(plan, values);
    var v := values[0];
    assert v in values && (SinglePort(v).Some? || RangeText(v).Some?);
  }

  /** A condition is emitted exactly when one of its entries names something. */
  lemma EmittedIsNamed(plan: Plan, c: Condition)
    requires ValidMatcherKind(c.kind)
    ensures MatcherOf(plan, c).Some? <==> NamesSomething(plan, c)
  {
    var values := Cleaned(plan.env.checks, c.kind, c.values);
    SomeMember(values);
    if values != [] {
      CleanedMembers(plan.env.checks, c.kind, c.values);
      KindNames(plan, c.kind, values);
    }
  }

  lemma KindNames(plan: Plan, kind: Kind, values: seq<string>)
    requires ValidMatcherKind(kind) && values != []
    requires kind == Port ==> forall v <- values :: PortBounds(v).Some?
    ensures BaseMatch(plan, kind, values).Some? <==> exists v <- values :: EntryNames(plan, kind, v)
  {
    if UsesSets(kind) {
      SetsName(plan, kind, values);
    } else if kind == Apps {
      AppsName(plan.env, values);
      assert values[0] in values;
    } else if kind == Domains {
      DomainsName(plan, values);
    } else {
      assert values[0] in values;
      if kind == Port {
        PortsName(plan, values);
      }
    }
  }

  // ------------------------------------------------------------ exactness, both ways

  /** Where the other guard fails, some world makes the condition hold where its emitted form does not. */
  lemma NarrowingWitness(plan: Plan, sets: seq<RuleSet>, c: Condition, conn: Conn, sniffed: string) returns (o: Oracle)
    requires Ready(plan, sets, c, conn, sniffed) && !NeverLess(plan, c)
    ensures ConditionHolds(plan, o, c, conn) && !EmittedHolds(plan, o, sets, c, conn, sniffed)
  {
    o := Oracle((p, h) => false, (p, a) => false, (s, k) => false, (k, v, n) => !c.invert);
    var values := Cleaned(plan.env.checks, c.kind, c.values);
    MatcherMeans(plan, o, sets, c, conn, sniffed);
    if c.invert {
      NothingUnlisted(plan, o, c, conn);
    } else {
      var missing :| missing in values && SetFor(plan, c.kind, missing, false).None?;
      assert ValueHolds(plan, o, c.kind, missing, conn);
    }
  }

  /** In a world where missing lists hold nothing, the emitted form sees all there is. */
  lemma NothingUnlisted(plan: Plan, o: Oracle, c: Condition, conn: Conn)
    requires forall k, v, n :: !o.unlisted(k, v, n)
    ensures AnyVisible(plan, o, c.kind, Cleaned(plan.env.checks, c.kind, c.values), conn)
      <==> AnyValueHolds(plan, o, c.kind, Cleaned(plan.env.checks, c.kind, c.values), conn)
  {
    forall v <- Cleaned(plan.env.checks, c.kind, c.values)
      ensures VisibleHolds(plan, o, c.kind, v, conn) <==> ValueHolds(plan, o, c.kind, v, conn)
    {
    }
  }

  /** The two say the same in every world. */
  ghost predicate ExactCondition(plan: Plan, sets: seq<RuleSet>, c: Condition, conn: Conn, sniffed: string) {
    forall o: Oracle :: EmittedHolds(plan, o, sets, c, conn, sniffed) <==> ConditionHolds(plan, o, c, conn)
  }

  /**
   * A condition's compiled form says what the condition says, in every world,
   * exactly when all its lists resolve and it does not invert entries of which
   * none names anything.
   */
  lemma ConditionExactly(plan: Plan, sets: seq<RuleSet>, c: Condition, conn: Conn, sniffed: string)
    requires Ready(plan, sets, c, conn, sniffed)
    ensures ExactCondition(plan, sets, c, conn, sniffed) <==> Resolves(plan, c) && (c.invert ==> NamesSomething(plan, c))
  {
    EmittedIsNamed(plan, c);
    if NeverMore(plan, c) && NeverLess(plan, c) {
      forall o: Oracle
        ensures EmittedHolds(plan, o, sets, c, conn, sniffed) <==> ConditionHolds(plan, o, c, conn)
      {
        ConditionStrays(plan, o, sets, c, conn, sniffed);
      }
    } else if !NeverMore(plan, c) {
      var o := WideningWitness(plan, sets, c, conn, sniffed);
    } else {
      var o := NarrowingWitness(plan, sets, c, conn, sniffed);
    }
  }

  /** So does a plain rule's, whose sets are declared and whose protocols are sniffed for. */
  lemma PlainRuleExactly(plan: Plan, sets: seq<RuleSet>, rule: Rule, conn: Conn, sniffed: string)
    requires !rule.kind.Logical? && RuleReady(plan, sets, rule, conn, sniffed)
    ensures (forall o: Oracle :: PatternHolds(plan, o, sets, rule, conn, sniffed) <==> RuleHolds(plan, o, rule, conn))
      <==> Resolves(plan, Matcher(rule)) && (rule.invert ==> NamesSomething(plan, Matcher(rule)))
  {
    SniffableOnce(plan.env.checks, rule, conn, sniffed);
    ConditionExactly(plan, sets, Matcher(rule), conn, sniffed);
    forall o: Oracle
      ensures PatternHolds(plan, o, sets, rule, conn, sniffed) <==> EmittedHolds(plan, o, sets, Matcher(rule), conn, sniffed)
      ensures RuleHolds(plan, o, rule, conn) <==> ConditionHolds(plan, o, Matcher(rule), conn)
    {
    }
  }

  // -------------------------------------------------------- rules of several conditions

  /** A part that names nothing is not emitted, and on the canvas holds always or never. */
  lemma NamelessHolds(plan: Plan, o: Oracle, sets: seq<RuleSet>, c: Condition, conn: Conn, sniffed: string)
    requires Faithful(plan, sets) && ValidMatcherKind(c.kind) && Resolves(plan, c) && !NamesSomething(plan, c)
    requires Sniffable(c.kind, Cleaned(plan.env.checks, c.kind, c.values), conn, sniffed)
    ensures !EmittedHolds(plan, o, sets, c, conn, sniffed) && ConditionHolds(plan, o, c, conn) == c.invert
  {
    EmittedIsNamed(plan, c);
    NothingEmittedNothingDeclared(plan, c);
    var plain := c.(invert := false);
    EmittedIsNamed(plan, plain);
    NothingEmittedNothingDeclared(plan, plain);
    ConditionStrays(plan, o, sets, plain, conn, sniffed);
  }

  lemma NamedHolds(plan: Plan, o: Oracle, sets: seq<RuleSet>, c: Condition, conn: Conn, sniffed: string)
    requires Ready(plan, sets, c, conn, sniffed) && Resolves(plan, c) && NamesSomething(plan, c)
    ensures EmittedHolds(plan, o, sets, c, conn, sniffed) <==> ConditionHolds(plan, o, c, conn)
  {
    EmittedIsNamed(plan, c);
    ConditionStrays(plan, o, sets, c, conn, sniffed);
  }

  function PartsIn(plan: Plan, rule: Rule): seq<Condition> { UsableConditions(plan.env.checks, rule.conditions) }

  predicate AllNamed(plan: Plan, rule: Rule) { forall c <- PartsIn(plan, rule) :: NamesSomething(plan, c) }

  predicate SomeNamed(plan: Plan, rule: Rule) { exists c <- PartsIn(plan, rule) :: NamesSomething(plan, c) }

  /**
   * What a nameless part takes with it. An all-of rule, or one with nothing else,
   * is given up: it matters where it would have held. An any-of rule goes on
   * without the part: it matters when the part is inverted and no other holds.
   */
  predicate Falters(plan: Plan, o: Oracle, rule: Rule, conn: Conn) {
    if rule.mode == All || !SomeNamed(plan, rule) then !AllNamed(plan, rule) && RuleHolds(plan, o, rule, conn)
    else
      && (exists c <- PartsIn(plan, rule) :: !NamesSomething(plan, c) && c.invert)
      && (forall c <- PartsIn(plan, rule) :: NamesSomething(plan, c) ==> !ConditionHolds(plan, o, c, conn))
  }

  lemma KeptExactly(plan: Plan, rule: Rule)
    requires rule.kind.Logical? && Usable(plan.env.checks, rule)
    ensures PatternOf(plan, rule).Some? <==> if rule.mode == All then AllNamed(plan, rule) else SomeNamed(plan, rule)
  {
    var parts, all := PartsIn(plan, rule), rule.mode == All;
    var emit := c => MatcherOf(plan, c);
    UsableConditionsMembers(plan.env.checks, rule.conditions);
    forall c <- parts
      ensures MatcherOf(plan, c).Some? <==> NamesSomething(plan, c)
    {
      EmittedIsNamed(plan, c);
    }
    CollectAllMembers(emit, parts, all, Plain(NO_FIELDS, false));
    if PartsOf(plan, parts, all) == Some([]) {
      NoPartsNoMatchers(plan, parts, all);
      assert parts[0] in parts;
    } else if PartsOf(plan, parts, all).Some? {
      var first := PartsOf(plan, parts, all).value[0];
      CollectAllMembers(emit, parts, all, first);
      var c :| c in parts && emit(c) == Some(first);
    }
  }

  /** A given-up rule never matches, so it is exact where it does not hold. */
  lemma GivenUpExactly(plan: Plan, o: Oracle, sets: seq<RuleSet>, rule: Rule, conn: Conn, sniffed: string)
    requires rule.kind.Logical? && Usable(plan.env.checks, rule) && PatternOf(plan, rule).None?
    ensures (PatternHolds(plan, o, sets, rule, conn, sniffed) <==> RuleHolds(plan, o, rule, conn)) <==> !Falters(plan, o, rule, conn)
  {
    KeptExactly(plan, rule);
    var parts := PartsIn(plan, rule);
    assert parts[0] in parts;
  }

  lemma PartsHoldSo(plan: Plan, o: Oracle, sets: seq<RuleSet>, rule: Rule, conn: Conn, sniffed: string)
    requires rule.kind.Logical? && RuleReady(plan, sets, rule, conn, sniffed) && PatternOf(plan, rule).Some?
    requires forall c <- PartsIn(plan, rule) :: Resolves(plan, c)
    ensures forall c <- PartsIn(plan, rule) ::
      if NamesSomething(plan, c) then EmittedHolds(plan, o, sets, c, conn, sniffed) == ConditionHolds(plan, o, c, conn)
      else !EmittedHolds(plan, o, sets, c, conn, sniffed) && ConditionHolds(plan, o, c, conn) == c.invert
  {
    var parts := PartsIn(plan, rule);
    UsableConditionsMembers(plan.env.checks, rule.conditions);
    PartsDeclare(plan, parts, rule.mode == All);
    forall c <- parts
      ensures if NamesSomething(plan, c) then EmittedHolds(plan, o, sets, c, conn, sniffed) == ConditionHolds(plan, o, c, conn)
        else !EmittedHolds(plan, o, sets, c, conn, sniffed) && ConditionHolds(plan, o, c, conn) == c.invert
    {
      if NamesSomething(plan, c) {
        NamedHolds(plan, o, sets, c, conn, sniffed);
      } else {
        NamelessHolds(plan, o, sets, c, conn, sniffed);
      }
    }
  }

  /**
   * A rule of several conditions whose lists all resolve says, of a connection in
   * a world, what it says on the canvas exactly when no nameless part falters.
   */
  lemma LogicalExactly(plan: Plan, o: Oracle, sets: seq<RuleSet>, rule: Rule, conn: Conn, sniffed: string)
    requires rule.kind.Logical? && RuleReady(plan, sets, rule, conn, sniffed)
    requires forall c <- PartsIn(plan, rule) :: Resolves(plan, c)
    ensures (PatternHolds(plan, o, sets, rule, conn, sniffed) <==> RuleHolds(plan, o, rule, conn)) <==> !Falters(plan, o, rule, conn)
  {
    if PatternOf(plan, rule).None? {
      GivenUpExactly(plan, o, sets, rule, conn, sniffed);
    } else {
      KeptExactly(plan, rule);
      PatternIsEmitted(plan, o, sets, rule, conn, sniffed);
      PartsHoldSo(plan, o, sets, rule, conn, sniffed);
    }
  }

  // --------------------------------------------------------------- the failing input

  /** Everything but ".": a domain entry with nothing left of it. */
  function AllButNothing(action: Action): Rule {
    Rule("all", Domains, ["."], action, true, "", "", OtherMode(""), [])
  }

  lemma DotCleaned(checks: Checks)
    ensures Cleaned(checks, Domains, ["."]) == ["."]
  {
    TrimFixes(".");
    assert ["."][..0] == [];
    assert CleanValue(checks, Domains, ".") == Some(".");
  }

  lemma DotNamesNothing(plan: Plan, action: Action)
    ensures PatternOf(plan, AllButNothing(action)).None? && Resolves(plan, Matcher(AllButNothing(action)))
  {
    var c := Matcher(AllButNothing(action));
    DotCleaned(plan.env.checks);
    DotIsEmpty();
    assert forall v :: v in ["."] <==> v == ".";
    assert !NamesSomething(plan, c);
    EmittedIsNamed(plan, c);
  }

  lemma OnlyEntry(plan: Plan, o: Oracle, kind: Kind, value: string, conn: Conn)
    ensures AnyValueHolds(plan, o, kind, [value], conn) <==> ValueHolds(plan, o, kind, value, conn)
  {
    assert forall v :: v in [value] <==> v == value;
  }

  lemma DotHoldsNowhere(plan: Plan, o: Oracle, conn: Conn)
    ensures !AnyValueHolds(plan, o, Domains, ["."], conn)
  {
    DotIsEmpty();
    assert !DomainHolds(".", conn.host);
    OnlyEntry(plan, o, Domains, ".", conn);
  }

  /**
   * Such a rule is usable, nothing it needs is missing, and on the canvas it
   * holds for every connection; it compiles to nothing, and never matches.
   */
  lemma InvertedDotIsLost(plan: Plan, o: Oracle, sets: seq<RuleSet>, action: Action, conn: Conn, sniffed: string)
    requires ValidAction(action)
    ensures var rule := AllButNothing(action);
      && Usable(plan.env.checks, rule) && Resolves(plan, Matcher(rule))
      && RuleHolds(plan, o, rule, conn)
      && PatternOf(plan, rule).None? && !PatternHolds(plan, o, sets, rule, conn, sniffed)
  {
    DotCleaned(plan.env.checks);
    DotHoldsNowhere(plan, o, conn);
    DotNamesNothing(plan, action);
  }

  lemma DotIsEmpty()
    ensures DomainEntry(".") == ""
  {
    TrimFixes(".");
    assert ToLower(".") == ".";
    assert "."[0..] == ".";
  }
}
