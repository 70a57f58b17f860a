// Validating the routing graph (internal/models/routing.go, normalizeRouting).

module Normalize {
  import opened Wrappers
  import opened Sequences
  import opened Text
  import opened Models

  datatype Point = Point(x: real, y: real, width: real, height: real)

  datatype Comment = Comment(id: string, text: string)

  /** One complete routing setup. rules is None only on settings that predate the graph. */
  datatype Graph = Graph(
    rules: Option<seq<Rule>>, defaultAction: Action, defaultServer: string,
    layout: map<string, Point>, comments: seq<Comment>, servers: seq<string>)

  /** The routing fields the graph replaced. */
  datatype Legacy = Legacy(mode: string, apps: seq<string>, domains: seq<string>)

  const MAX_CONDITIONS := 100
  const MAX_COMMENT := 2000
  const NO_ACTION := OtherAction("")
  const NO_MODE := OtherMode("")

  function KindText(kind: Kind): string {
    match kind
    case Apps => "apps"
    case Domains => "domains"
    case Ip => "ip"
    case DomainRegex => "domain_regex"
    case Port => "port"
    case Protocol => "protocol"
    case GeoSite => "geosite"
    case GeoIp => "geoip"
    case Network => "network"
    case ListUrl => "ruleset"
    case Logical => "logical"
    case UnknownKind(name) => name
  }

  function RuleId(kind: Kind, index: nat): string {
    KindText(kind) + "-" + Itoa(index + 1)
  }

  // ------------------------------------------------------------------- rules

  function KeptConditions(conditions: seq<Condition>): (r: seq<Condition>)
    ensures |r| <= MAX_CONDITIONS
  {
    if conditions == [] then []
    else
      var kept := KeptConditions(conditions[..|conditions| - 1]);
      var last := conditions[|conditions| - 1];
      if ValidMatcherKind(last.kind) && |kept| < MAX_CONDITIONS then kept + [last] else kept
  }

  function NormalRule(rule: Rule, index: nat): Option<Rule> {
    if rule.kind.UnknownKind? || (rule.action != NO_ACTION && !ValidAction(rule.action)) then None
    else Some(rule.(
      id := if rule.id == "" then RuleId(rule.kind, index) else rule.id,
      server := if rule.action == Proxy then Trim(rule.server) else "",
      dns := Trim(rule.dns),
      mode := if !rule.kind.Logical? then NO_MODE else if rule.mode == Any then Any else All,
      conditions := if rule.kind.Logical? then KeptConditions(rule.conditions) else []))
  }

  function KeptRules(rules: seq<Rule>): seq<Rule> {
    if rules == [] then []
    else
      var kept := KeptRules(rules[..|rules| - 1]);
      match NormalRule(rules[|rules| - 1], |rules| - 1)
      case Some(rule) => kept + [rule]
      case None => kept
  }

  // --------------------------------------------------------------- migration

  function LegacyRule(id: string, kind: Kind, values: seq<string>): Rule {
    Rule(id, kind, values, Proxy, false, "", "", NO_MODE, [])
  }

  function LegacyMode(legacy: Legacy): string {
    if legacy.mode == "selected" then "apps_domains" else legacy.mode
  }

  function MigratedAction(legacy: Legacy): Action {
    var mode := LegacyMode(legacy);
    if mode == "" || mode == "all" then Proxy else Direct
  }

  function MigratedRules(legacy: Legacy): seq<Rule> {
    var mode := LegacyMode(legacy);
    (if (mode == "apps" || mode == "apps_domains") && legacy.apps != []
     then [LegacyRule("migrated-apps", Apps, legacy.apps)] else [])
    + (if (mode == "domains" || mode == "apps_domains") && legacy.domains != []
       then [LegacyRule("migrated-domains", Domains, legacy.domains)] else [])
  }

  // ------------------------------------------------------------------- graph

  function NormalServer(id: string): Option<string> {
    if Trim(id) == "" then None else Some(Trim(id))
  }

  function NormalComment(comment: Comment): Option<Comment> {
    if Trim(comment.id) == "" then None
    else Some(if |comment.text| > MAX_COMMENT then comment.(text := comment.text[..MAX_COMMENT]) else comment)
  }

  function NormalGraph(graph: Graph, legacy: Legacy): Graph {
    var migrate := graph.rules.None? && graph.defaultAction == NO_ACTION;
    var rules := if migrate then MigratedRules(legacy) else if graph.rules.None? then [] else graph.rules.value;
    var chosen := if migrate then MigratedAction(legacy) else graph.defaultAction;
    var action := if ValidAction(chosen) then chosen else Proxy;
    Graph(
      Some(KeptRules(rules)),
      action,
      if action == Proxy then Trim(graph.defaultServer) else "",
      graph.layout,
      Collect(NormalComment, graph.comments),
      Distinct(NormalServer, graph.servers))
  }

  // ------------------------------------------------------------- idempotence

  lemma {:induction false} KeptConditionsTwice(conditions: seq<Condition>)
    ensures forall c <- KeptConditions(conditions) :: ValidMatcherKind(c.kind)
  {
    if conditions != [] {
      KeptConditionsTwice(conditions[..|conditions| - 1]);
    }
  }

  lemma {:induction false} ConditionsKept(conditions: seq<Condition>)
    requires |conditions| <= MAX_CONDITIONS && forall c <- conditions :: ValidMatcherKind(c.kind)
    ensures KeptConditions(conditions) == conditions
  {
    if conditions != [] {
      ConditionsKept(conditions[..|conditions| - 1]);
    }
  }

  lemma NormalRuleTwice(rule: Rule, first: nat, second: nat)
    requires NormalRule(rule, first).Some?
    ensures NormalRule(NormalRule(rule, first).value, second) == NormalRule(rule, first)
  {
    TrimmedTwice(rule.server);
    TrimmedTwice(rule.dns);
    KeptConditionsTwice(rule.conditions);
    ConditionsKept(KeptConditions(rule.conditions));
    assert RuleId(rule.kind, first) != "";
  }

  /** A rule no later pass changes, wherever it stands in the list. */
  ghost predicate Settled(rule: Rule) {
    forall i: nat :: NormalRule(rule, i) == Some(rule)
  }

  lemma NormalRuleSettles(rule: Rule, index: nat)
    requires NormalRule(rule, index).Some?
    ensures Settled(NormalRule(rule, index).value)
  {
    var once := NormalRule(rule, index).value;
    forall i: nat
      ensures NormalRule(once, i) == Some(once)
    {
      NormalRuleTwice(rule, index, i);
    }
  }

  lemma {:induction false} KeptRulesSettled(rules: seq<Rule>)
    ensures forall r <- KeptRules(rules) :: Settled(r)
  {
    if rules != [] {
      KeptRulesSettled(rules[..|rules| - 1]);
      var last := NormalRule(rules[|rules| - 1], |rules| - 1);
      if last.Some? {
        NormalRuleSettles(rules[|rules| - 1], |rules| - 1);
      }
    }
  }

  lemma {:induction false} SettledRulesKept(rules: seq<Rule>)
    requires forall r <- rules :: Settled(r)
    ensures KeptRules(rules) == rules
  {
    if rules != [] {
      var init, last := rules[..|rules| - 1], rules[|rules| - 1];
      assert forall r <- init :: r in rules;
      SettledRulesKept(init);
      assert last in rules;
      assert NormalRule(last, |rules| - 1) == Some(last);
    }
  }

  lemma {:induction false} DistinctTwice<T>(accept: T -> Option<T>, values: seq<T>)
    requires NoRepeats(values) && forall v <- values :: accept(v) == Some(v)
    ensures Distinct(accept, values) == values
  {
    if values != [] {
      var init := values[..|values| - 1];
      assert forall v <- init :: v in values;
      assert values[|values| - 1] in values;
      DistinctTwice(accept, init);
    }
  }

  lemma {:induction false} CollectTwice<T>(accept: T -> Option<T>, values: seq<T>)
    requires forall v <- values :: accept(v) == Some(v)
    ensures Collect(accept, values) == values
  {
    if values != [] {
      var init := values[..|values| - 1];
      assert forall v <- init :: v in values;
      assert values[|values| - 1] in values;
      CollectTwice(accept, init);
    }
  }

  lemma ServersTwice(servers: seq<string>)
    ensures var once := Distinct(NormalServer, servers); Distinct(NormalServer, once) == once
  {
    var once := Distinct(NormalServer, servers);
    DistinctNoRepeats(NormalServer, servers);
    forall id <- once
      ensures NormalServer(id) == Some(id)
    {
      DistinctMembers(NormalServer, servers, id);
      var raw :| raw in servers && NormalServer(raw) == Some(id);
      TrimmedTwice(raw);
    }
    DistinctTwice(NormalServer, once);
  }

  lemma CommentsTwice(comments: seq<Comment>)
    ensures var once := Collect(NormalComment, comments); Collect(NormalComment, once) == once
  {
    var once := Collect(NormalComment, comments);
    forall c <- once
      ensures NormalComment(c) == Some(c)
    {
      CollectMembers(NormalComment, comments, c);
      var raw :| raw in comments && NormalComment(raw) == Some(c);
    }
    CollectTwice(NormalComment, once);
  }

  /** A normalised graph is a fixed point, whatever the legacy fields say. */
  lemma NormalGraphTwice(graph: Graph, legacy: Legacy, other: Legacy)
    ensures NormalGraph(NormalGraph(graph, legacy), other) == NormalGraph(graph, legacy)
  {
    var once := NormalGraph(graph, legacy);
    KeptRulesSettled(if graph.rules.None? && graph.defaultAction == NO_ACTION then MigratedRules(legacy)
      else if graph.rules.None? then [] else graph.rules.value);
    SettledRulesKept(once.rules.value);
    TrimmedTwice(graph.defaultServer);
    assert Trim("") == "" by { TrimFixes(""); }
    ServersTwice(graph.servers);
    CommentsTwice(graph.comments);
  }
}
