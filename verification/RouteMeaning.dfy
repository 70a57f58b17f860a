// What a routing graph means and what the emitted rules mean, over connections.
// Target semantics follow the sing-box documentation, "Route Rule".

module RouteMeaning {
  import opened Wrappers
  import opened Sequences
  import opened Text
  import opened DomainLabels
  import opened Models
  import opened CoreConfig
  import opened RouteSpec

  /** host is the lower-case name the core knows a connection by, "" when there is none. */
  datatype Conn = Conn(
    inbound: string, host: string, port: int, ipv6: bool, isPrivate: bool, address: string,
    protocol: string, network: string,
    packageName: string, processName: string, processPath: string)

  /** The world outside: patterns, prefixes, what a rule-set holds, and what a missing list would have held. */
  datatype Oracle = Oracle(
    regex: (string, string) -> bool,
    prefix: (string, string) -> bool,
    holds: (RuleSet, Conn) -> bool,
    unlisted: (Kind, string, Conn) -> bool)

  // --------------------------------------------------------- source meaning

  predicate EntryNamesProcess(env: Env, entry: string, conn: Conn) {
    || (conn.processName != "" && conn.processName in env.namesOf(entry))
    || (conn.processName != "" && exists path <- env.pathsOf(entry) :: path != "" && conn.processName in env.baseNames(path))
    || (conn.processPath != "" && conn.processPath in env.pathsOf(entry))
  }

  /** "site.com" is the site and everything under it; "*.site.com" and ".site.com" only what is under it. */
  predicate DomainHolds(value: string, host: string) {
    var domain := DomainEntry(value);
    if domain == "" || domain == "*." then false
    else if "*." <= domain then Below(host, domain[2..])
    else if "." <= domain then Below(host, domain[1..])
    else host == domain || Below(host, domain)
  }

  /** A single port, or an inclusive range. */
  predicate PortHolds(value: string, port: int) {
    match PortBounds(value) case Some(bounds) => bounds.0 <= port <= bounds.1 case None => false
  }

  predicate ValueHolds(plan: Plan, o: Oracle, kind: Kind, value: string, conn: Conn) {
    match kind
    case Apps => if plan.env.android then conn.packageName == value else EntryNamesProcess(plan.env, value, conn)
    case Domains => DomainHolds(value, conn.host)
    case Ip => o.prefix(value, conn.address)
    case DomainRegex => conn.host != "" && o.regex(value, conn.host)
    case Port => PortHolds(value, conn.port)
    case Protocol => conn.protocol == value
    case Network => conn.network == value
    case _ =>
      match SetFor(plan, kind, value, false)
      case Some(found) => o.holds(found, conn)
      case None => o.unlisted(kind, value, conn)
  }

  predicate AnyValueHolds(plan: Plan, o: Oracle, kind: Kind, values: seq<string>, conn: Conn) {
    exists value <- values :: ValueHolds(plan, o, kind, value, conn)
  }

  /** Any of the entries, or none of them when inverted. */
  predicate ConditionHolds(plan: Plan, o: Oracle, condition: Condition, conn: Conn) {
    AnyValueHolds(plan, o, condition.kind, Cleaned(plan.env.checks, condition.kind, condition.values), conn)
    != condition.invert
  }

  predicate RuleHolds(plan: Plan, o: Oracle, rule: Rule, conn: Conn) {
    if !rule.kind.Logical? then ConditionHolds(plan, o, Matcher(rule), conn)
    else
      var usable := UsableConditions(plan.env.checks, rule.conditions);
      (if rule.mode == All then forall c <- usable :: ConditionHolds(plan, o, c, conn)
       else exists c <- usable :: ConditionHolds(plan, o, c, conn)) != rule.invert
  }

  datatype Outcome = Goes(out: OutTag) | Refused(drop: bool) | AnsweredAsDns

  /** Where a destination on the canvas sends traffic. */
  function Destination(plan: Plan, action: Action, server: string): Outcome {
    match action
    case Direct => Goes(DirectOut)
    case Block => Refused(false)
    case Drop => Refused(true)
    case _ => Goes(if server in plan.outboundFor && server != "" then plan.outboundFor[server] else Exit)
  }

  predicate Decides(plan: Plan, o: Oracle, rule: Rule, conn: Conn) {
    Usable(plan.env.checks, rule) && RuleHolds(plan, o, rule, conn)
  }

  /** The topmost usable rule that holds. */
  function FirstHolding(plan: Plan, o: Oracle, rules: seq<Rule>, conn: Conn): Option<Rule> {
    if rules == [] then None
    else
      var earlier := FirstHolding(plan, o, rules[..|rules| - 1], conn);
      var last := rules[|rules| - 1];
      if earlier.Some? then earlier else if Decides(plan, o, last, conn) then Some(last) else None
  }

  /** The graph's meaning: its topmost usable rule that holds decides, else the default. */
  function Decide(plan: Plan, o: Oracle, conn: Conn): Outcome {
    match FirstHolding(plan, o, plan.rules, conn)
    case Some(rule) => Destination(plan, rule.action, rule.server)
    case None => Destination(plan, plan.defaultAction, plan.defaultServer)
  }

  // --------------------------------------------------------- target meaning

  predicate SetHolds(o: Oracle, sets: seq<RuleSet>, tag: SetTag, conn: Conn) {
    exists s <- sets :: s.tag == tag && o.holds(s, conn)
  }

  predicate RangeHolds(text: string, port: int) {
    var (low, high) := CutAt(text, ':');
    high.Some?
    && match (ParsePort(low), ParsePort(high.value))
       case (Some(first), Some(last)) => first <= port <= last
       case _ => false
  }

  predicate AddressHolds(o: Oracle, f: Fields, conn: Conn) {
    || conn.host in f.domain
    || (exists suffix <- f.domainSuffix :: HasSuffix(conn.host, suffix))
    || (conn.host != "" && exists pattern <- f.domainRegex :: o.regex(pattern, conn.host))
    || (exists prefix <- f.ipCidr :: o.prefix(prefix, conn.address))
    || (f.ipIsPrivate && conn.isPrivate)
  }

  /** Fields of one group are alternatives; a rule asks for every group it mentions. */
  predicate FieldsHold(o: Oracle, sets: seq<RuleSet>, f: Fields, conn: Conn, sniffed: string) {
    && (f.inbound != [] ==> conn.inbound in f.inbound)
    && (f.domain != [] || f.domainSuffix != [] || f.domainRegex != [] || f.ipCidr != [] || f.ipIsPrivate
        ==> AddressHolds(o, f, conn))
    && (f.port != [] || f.portRange != []
        ==> conn.port in f.port || exists r <- f.portRange :: RangeHolds(r, conn.port))
    && (f.protocol != [] ==> sniffed in f.protocol)
    && (f.network != [] ==> conn.network in f.network)
    && (f.packageName != [] ==> conn.packageName in f.packageName)
    && (f.processName != [] ==> conn.processName in f.processName)
    && (f.processPath != [] ==> conn.processPath in f.processPath)
    && (f.ruleSet != [] ==> exists tag <- f.ruleSet :: SetHolds(o, sets, tag, conn))
    && (f.onlyIpv6 ==> conn.ipv6)
  }

  predicate MatchHolds(o: Oracle, sets: seq<RuleSet>, m: Match, conn: Conn, sniffed: string) {
    match m
    case Plain(fields, invert) => FieldsHold(o, sets, fields, conn, sniffed) != invert
    case Combined(mode, parts, invert) =>
      (if mode == All then forall p <- parts :: MatchHolds(o, sets, p, conn, sniffed)
       else exists p <- parts :: MatchHolds(o, sets, p, conn, sniffed)) != invert
  }

  /** The core takes rules in order; sniffing and resolving go on to the next, anything else ends the search. */
  function Run(o: Oracle, sets: seq<RuleSet>, rules: seq<RouteRule>, final: OutTag, conn: Conn, sniffed: string): Outcome {
    if rules == [] then Goes(final)
    else if !MatchHolds(o, sets, rules[0].pattern, conn, sniffed) then Run(o, sets, rules[1..], final, conn, sniffed)
    else match rules[0].action
      case Route(out) => Goes(out)
      case Reject(drop) => Refused(drop)
      case HijackDns => AnsweredAsDns
      case Resolve(_) => Run(o, sets, rules[1..], final, conn, sniffed)
      case Sniff(names) =>
        Run(o, sets, rules[1..], final, conn, if conn.protocol in names then conn.protocol else sniffed)
  }

  // ------------------------------------------------- declared sets and tags

  function SetNamed(plan: Plan, tag: SetTag): Option<RuleSet> {
    match tag
    case GeoTag(kind, value) => GeoSet(plan, kind, value)
    case ListTag(address) => ListSet(plan, address, false)
    case ListDomainsTag(address) => ListSet(plan, address, true)
  }

  /** Every declared set is the one its tag stands for, so a tag can only mean one set. */
  ghost predicate Faithful(plan: Plan, sets: seq<RuleSet>) {
    forall s <- sets :: SetNamed(plan, s.tag) == Some(s)
  }

  ghost predicate Declares(sets: seq<RuleSet>, batch: seq<RuleSet>) {
    forall s <- batch :: s in sets
  }

  lemma SetForNamed(plan: Plan, kind: Kind, value: string, domainsOnly: bool)
    ensures SetFor(plan, kind, value, domainsOnly).Some? ==>
      SetNamed(plan, SetFor(plan, kind, value, domainsOnly).value.tag) == SetFor(plan, kind, value, domainsOnly)
  {
  }

  lemma SetsForNamed(plan: Plan, kind: Kind, values: seq<string>, domainsOnly: bool)
    ensures Faithful(plan, SetsFor(plan, kind, values, domainsOnly))
  {
    forall s <- SetsFor(plan, kind, values, domainsOnly)
      ensures SetNamed(plan, s.tag) == Some(s)
    {
      CollectMembers(value => SetFor(plan, kind, value, domainsOnly), values, s);
      var value :| value in values && SetFor(plan, kind, value, domainsOnly) == Some(s);
      SetForNamed(plan, kind, value, domainsOnly);
    }
  }

  // ------------------------------------------------------------- kind by kind

  lemma DomainListsMean(values: seq<string>, host: string)
    ensures (exists v <- values :: DomainHolds(v, host)) <==>
      host in ExactDomains(values) || exists s <- SuffixDomains(values) :: HasSuffix(host, s)
  {
    var below := s => HasSuffix(host, s);
    DistinctMembers(ExactOf, values, host);
    DistinctAny(SuffixOf, values, below);
    assert (exists s <- SuffixDomains(values) :: HasSuffix(host, s)) <==> (exists s <- SuffixDomains(values) :: below(s));
    forall v <- values
      ensures DomainHolds(v, host) <==> ExactOf(v) == Some(host) || (SuffixOf(v).Some? && below(SuffixOf(v).value))
    {
      DomainValueMeans(v, host);
    }
  }

  lemma DomainsMean(o: Oracle, sets: seq<RuleSet>, values: seq<string>, conn: Conn, sniffed: string)
    ensures var f := NO_FIELDS.(domain := ExactDomains(values), domainSuffix := SuffixDomains(values));
      (f != NO_FIELDS && FieldsHold(o, sets, f, conn, sniffed)) <==> (exists v <- values :: DomainHolds(v, conn.host))
  {
    DomainListsMean(values, conn.host);
    DomainFieldsHold(o, sets, ExactDomains(values), SuffixDomains(values), conn, sniffed);
  }

  lemma DomainFieldsHold(o: Oracle, sets: seq<RuleSet>, exact: seq<string>, suffixes: seq<string>, conn: Conn, sniffed: string)
    ensures var f := NO_FIELDS.(domain := exact, domainSuffix := suffixes);
      (f != NO_FIELDS && FieldsHold(o, sets, f, conn, sniffed)) <==>
      (conn.host in exact || exists s <- suffixes :: HasSuffix(conn.host, s))
  {
    var f := NO_FIELDS.(domain := exact, domainSuffix := suffixes);
    assert f == NO_FIELDS <==> exact == [] && suffixes == [];
    assert AddressHolds(o, f, conn) <==> conn.host in exact || exists s <- suffixes :: HasSuffix(conn.host, s);
  }

  /** A domain entry's exact name and suffix together hold exactly on label boundaries. */
  lemma DomainValueMeans(value: string, host: string)
    ensures DomainHolds(value, host) <==>
      ExactOf(value) == Some(host) || (SuffixOf(value).Some? && HasSuffix(host, SuffixOf(value).value))
  {
    var domain := DomainEntry(value);
    if domain == "" || domain == "*." {
    } else if "*." <= domain {
      assert domain[1..] == "." + domain[2..];
      SuffixIsBelow(host, domain[2..]);
    } else if "." <= domain {
      assert domain == "." + domain[1..];
      SuffixIsBelow(host, domain[1..]);
    } else {
      SuffixIsBelow(host, domain);
    }
  }

  /** Text that reads as a number has no colon, so the core cuts a range where the app joined it. */
  lemma NumberHasNoColon(text: string)
    requires Atoi(text).Some?
    ensures ':' !in text
  {
    var digits := if text != [] && IsSign(text[0]) then text[1..] else text;
    assert AllDigits(digits);
    assert text == digits || text == [text[0]] + digits;
  }

  lemma RangeTextMeans(low: string, high: string, port: int)
    requires Atoi(low).Some?
    ensures RangeHolds(low + ":" + high, port) <==>
      ParsePort(low).Some? && ParsePort(high).Some? && ParsePort(low).value <= port <= ParsePort(high).value
  {
    NumberHasNoColon(low);
    CutJoined(low, ':', high);
  }

  lemma ParsePortTrimmed(text: string)
    ensures ParsePort(Trim(text)) == ParsePort(text)
  {
    TrimmedTwice(text);
  }

  lemma PortRangeMeans(low: string, high: string, port: int)
    requires Span(ParsePort(low), ParsePort(high)).Some?
    ensures RangeHolds(Trim(low) + ":" + Trim(high), port) <==> ParsePort(low).value <= port <= ParsePort(high).value
  {
    ParsePortTrimmed(low);
    ParsePortTrimmed(high);
    RangeTextMeans(Trim(low), Trim(high), port);
  }

  lemma SinglePortMeans(text: string, port: int)
    requires ParsePort(text).Some?
    ensures Atoi(Trim(text)) == Some(ParsePort(text).value) && ParsePort(text).value % 65536 == ParsePort(text).value
  {
  }

  lemma PortValueMeans(value: string, port: int)
    requires PortBounds(value).Some?
    ensures PortHolds(value, port) <==>
      SinglePort(value) == Some(port) || (RangeText(value).Some? && RangeHolds(RangeText(value).value, port))
  {
    var (low, high) := CutAt(value, '-');
    match high {
      case Some(last) => PortRangeMeans(low, last, port);
      case None => SinglePortMeans(low, port);
    }
  }

  lemma PortListsMean(values: seq<string>, port: int)
    requires forall v <- values :: PortBounds(v).Some?
    ensures (exists v <- values :: PortHolds(v, port)) <==>
      port in SinglePorts(values) || exists r <- PortRanges(values) :: RangeHolds(r, port)
  {
    var inRange := r => RangeHolds(r, port);
    CollectMembers(SinglePort, values, port);
    CollectAny(RangeText, values, inRange);
    assert (exists r <- PortRanges(values) :: RangeHolds(r, port)) <==> (exists r <- PortRanges(values) :: inRange(r));
    forall v <- values
      ensures PortHolds(v, port) <==>
        SinglePort(v) == Some(port) || (RangeText(v).Some? && inRange(RangeText(v).value))
    {
      PortValueMeans(v, port);
    }
  }

  lemma PortFieldsHold(o: Oracle, sets: seq<RuleSet>, single: seq<int>, ranges: seq<string>, conn: Conn, sniffed: string)
    ensures var f := NO_FIELDS.(port := single, portRange := ranges);
      (f != NO_FIELDS && FieldsHold(o, sets, f, conn, sniffed)) <==>
      (conn.port in single || exists r <- ranges :: RangeHolds(r, conn.port))
  {
    var f := NO_FIELDS.(port := single, portRange := ranges);
    assert f == NO_FIELDS <==> single == [] && ranges == [];
  }

  lemma FlatMapMembers(f: string -> seq<string>, values: seq<string>, value: string)
    ensures value in Flatten(Map(f, values)) <==> (exists v <- values :: value in f(v))
  {
    FlattenMembers(Map(f, values), value);
    if v :| v in values && value in f(v) {
      MapMembers(f, values, f(v));
    }
    if part :| part in Map(f, values) && value in part {
      MapMembers(f, values, part);
    }
  }

  /** The process lists hold exactly what the entries expand to, one entry at a time. */
  lemma ProcessListsMean(env: Env, values: seq<string>, conn: Conn)
    ensures (exists v <- values :: EntryNamesProcess(env, v, conn)) <==>
      conn.processName in ProcessNames(env, values) || conn.processPath in ProcessPaths(env, values)
  {
    var name, path := conn.processName, conn.processPath;
    var own, base := Flatten(Map(env.namesOf, values)), Flatten(Map(env.baseNames, ProcessPaths(env, values)));
    DedupeMembers(own + base, name);
    DedupeMembers(Flatten(Map(env.pathsOf, values)), path);
    FlatMapMembers(env.namesOf, values, name);
    FlatMapMembers(env.pathsOf, values, path);
    FlatMapMembers(env.baseNames, ProcessPaths(env, values), name);
    forall p
      ensures p in ProcessPaths(env, values) <==> p != "" && exists v <- values :: p in env.pathsOf(v)
    {
      DedupeMembers(Flatten(Map(env.pathsOf, values)), p);
      FlatMapMembers(env.pathsOf, values, p);
    }
    assert name in ProcessNames(env, values) <==> name != "" && (name in own || name in base);
  }

  lemma EitherHolds(o: Oracle, sets: seq<RuleSet>, a: Match, b: Match, conn: Conn, sniffed: string)
    ensures MatchHolds(o, sets, Combined(Any, [a, b], false), conn, sniffed) <==>
      MatchHolds(o, sets, a, conn, sniffed) || MatchHolds(o, sets, b, conn, sniffed)
  {
    var parts := [a, b];
    assert forall p :: p in parts <==> p == a || p == b;
  }

  lemma AppsMean(o: Oracle, sets: seq<RuleSet>, env: Env, values: seq<string>, conn: Conn, sniffed: string)
    requires values != []
    ensures (AppsMatch(env, values).Some? && MatchHolds(o, sets, AppsMatch(env, values).value, conn, sniffed)) <==>
      (exists v <- values :: if env.android then conn.packageName == v else EntryNamesProcess(env, v, conn))
  {
    if !env.android {
      var names, paths := ProcessNames(env, values), ProcessPaths(env, values);
      var byName, byPath := NO_FIELDS.(processName := names), NO_FIELDS.(processPath := paths);
      ProcessListsMean(env, values, conn);
      assert names != [] ==> (FieldsHold(o, sets, byName, conn, sniffed) <==> conn.processName in names);
      assert paths != [] ==> (FieldsHold(o, sets, byPath, conn, sniffed) <==> conn.processPath in paths);
      var nameRule, pathRule := Plain(byName, false), Plain(byPath, false);
      EitherHolds(o, sets, nameRule, pathRule, conn, sniffed);
    } else {
      var f := NO_FIELDS.(packageName := values);
      assert FieldsHold(o, sets, f, conn, sniffed) <==> conn.packageName in values;
    }
  }
}
