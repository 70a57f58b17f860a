// The routing compiler at work (internal/sbconfig/route.go): rules, owners and
// rule-sets appended as it goes.

module RouteCompiler {
  import opened Wrappers
  import opened Sequences
  import opened Text
  import opened Models
  import opened CoreConfig
  import opened RouteSpec

  /** The route section being assembled, and the rule-sets it has declared. */
  class RoutePlan {
    const plan: Plan
    var sets: seq<RuleSet>
    var declared: set<SetTag>

    /** declared mirrors the tags of sets, each of which appears once. */
    ghost predicate Valid()
      reads this
    {
      NoRepeats(TagsOf(sets)) && forall t :: t in declared <==> t in TagsOf(sets)
    }

    constructor (plan: Plan)
      ensures Valid() && this.plan == plan && sets == []
    {
      this.plan := plan;
      sets, declared := [], {};
    }

    method Declare(added: RuleSet) returns (tag: SetTag)
      requires Valid()
      modifies this`sets, this`declared
      ensures Valid()
      ensures tag == added.tag && sets == DeclareOne(old(sets), added)
    {
      tag := added.tag;
      if tag !in declared {
        declared := declared + {tag};
        sets := sets + [added];
        assert TagsOf(sets) == TagsOf(old(sets)) + [tag];
      }
    }

    /** Resolves each value to a rule-set and declares the ones found. */
    method DeclareSets(kind: Kind, values: seq<string>, domainsOnly: bool) returns (tags: seq<SetTag>)
      requires Valid()
      modifies this`sets, this`declared
      ensures Valid()
      ensures tags == TagsOf(SetsFor(plan, kind, values, domainsOnly))
      ensures sets == DeclareAll(old(sets), SetsFor(plan, kind, values, domainsOnly))
    {
      tags := [];
      for i := 0 to |values|
        invariant Valid()
        invariant tags == TagsOf(SetsFor(plan, kind, values[..i], domainsOnly))
        invariant sets == DeclareAll(old(sets), SetsFor(plan, kind, values[..i], domainsOnly))
      {
        assert values[..i + 1][..i] == values[..i];
        var found := SetFor(plan, kind, values[i], domainsOnly);
        match found {
          case None =>
          case Some(added) =>
            ghost var before := SetsFor(plan, kind, values[..i], domainsOnly);
            assert SetsFor(plan, kind, values[..i + 1], domainsOnly) == before + [added];
            assert (before + [added])[..|before|] == before;
            var tag := Declare(added);
            tags := tags + [tag];
        }
      }
      assert values[..|values|] == values;
    }

    /** One tidied domain entry as an exact name, a suffix, both or neither. */
    method SplitDomain(domain: string) returns (exact: Option<string>, suffix: Option<string>)
      ensures exact == ExactOfEntry(domain) && suffix == SuffixOfEntry(domain)
    {
      if domain == "" { return None, None; }
      if "*." <= domain {
        return None, if domain != "*." then Some(domain[1..]) else None;
      }
      if "." <= domain { return None, Some(domain); }
      return Some(domain), Some("." + domain);
    }

    method SplitDomains(values: seq<string>) returns (exact: seq<string>, suffixes: seq<string>)
      ensures exact == ExactDomains(values) && suffixes == SuffixDomains(values)
    {
      exact, suffixes := [], [];
      for i := 0 to |values|
        invariant exact == ExactDomains(values[..i]) && suffixes == SuffixDomains(values[..i])
      {
        assert values[..i + 1][..i] == values[..i];
        var name, suffix := SplitDomain(DomainEntry(values[i]));
        if name.Some? && name.value !in exact { exact := exact + [name.value]; }
        if suffix.Some? && suffix.value !in suffixes { suffixes := suffixes + [suffix.value]; }
      }
      assert values[..|values|] == values;
    }

    method SplitPorts(values: seq<string>) returns (single: seq<int>, ranges: seq<string>)
      ensures single == SinglePorts(values) && ranges == PortRanges(values)
    {
      single, ranges := [], [];
      for i := 0 to |values|
        invariant single == SinglePorts(values[..i]) && ranges == PortRanges(values[..i])
      {
        assert values[..i + 1][..i] == values[..i];
        var (low, high) := CutAt(values[i], '-');
        if high.Some? {
          ranges := ranges + [Trim(low) + ":" + Trim(high.value)];
          continue;
        }
        match Atoi(Trim(low)) {
          case None =>
          case Some(port) => single := single + [port % 65536];
        }
      }
      assert values[..|values|] == values;
    }

    /** One condition as a core rule with no action; the sets it names are declared. */
    method BuildMatcher(condition: Condition) returns (built: Option<Match>)
      requires Valid()
      modifies this`sets, this`declared
      ensures Valid()
      ensures built == MatcherOf(plan, condition)
      ensures sets == DeclareAll(old(sets), SetsOfMatcher(plan, condition))
    {
      var values := CleanValues(plan.env.checks, condition);
      if values == [] { return None; }
      var fields := NO_FIELDS;
      var base: Option<Match>;
      match condition.kind {
        case Apps => base := AppsMatch(plan.env, values);
        case Domains =>
          var exact, suffixes := SplitDomains(values);
          base := NonEmpty(fields.(domain := exact, domainSuffix := suffixes));
        case Ip => base := Some(Plain(fields.(ipCidr := values), false));
        case DomainRegex => base := Some(Plain(fields.(domainRegex := values), false));
        case Port =>
          var single, ranges := SplitPorts(values);
          base := NonEmpty(fields.(port := single, portRange := ranges));
        case Protocol => base := Some(Plain(fields.(protocol := values), false));
        case Network => base := Some(Plain(fields.(network := values), false));
        case GeoSite =>
          var tags := DeclareSets(condition.kind, values, false);
          base := NonEmpty(fields.(ruleSet := tags));
        case GeoIp =>
          var tags := DeclareSets(condition.kind, values, false);
          base := NonEmpty(fields.(ruleSet := tags));
        case ListUrl =>
          var tags := DeclareSets(condition.kind, values, false);
          base := NonEmpty(fields.(ruleSet := tags));
        case _ => base := None;
      }
      if base.None? { return None; }
      built := if condition.invert then Some(base.value.(invert := true)) else base;
    }

    /** A logical rule's parts: what cannot be built is skipped, unless all are needed. */
    method BuildParts(conditions: seq<Condition>, all: bool) returns (built: Option<seq<Match>>)
      requires Valid()
      modifies this`sets, this`declared
      ensures Valid()
      ensures built == PartsOf(plan, conditions, all)
      ensures sets == DeclareAll(old(sets), SetsOfParts(plan, conditions, all))
    {
      var parts: seq<Match> := [];
      for i := 0 to |conditions|
        invariant Valid()
        invariant PartsOf(plan, conditions[..i], all) == Some(parts)
        invariant sets == DeclareAll(old(sets), SetsOfParts(plan, conditions[..i], all))
      {
        assert conditions[..i + 1][..i] == conditions[..i];
        DeclareAllAppend(old(sets), SetsOfParts(plan, conditions[..i], all), SetsOfMatcher(plan, conditions[i]));
        var part := BuildMatcher(conditions[i]);
        match part {
          case None =>
            if all {
              SetsOfRefusedParts(plan, conditions, i + 1);
              return None;
            }
          case Some(first) =>
            parts := parts + [first];
        }
      }
      assert conditions[..|conditions|] == conditions;
      built := Some(parts);
    }

    /** The matching part of a rule, or nothing when there is nothing to emit. */
    method BuildRule(rule: Rule) returns (built: Option<Match>)
      requires Valid()
      modifies this`sets, this`declared
      ensures Valid()
      ensures built == PatternOf(plan, rule)
      ensures sets == DeclareAll(old(sets), SetsOfRule(plan, rule))
    {
      if !rule.kind.Logical? {
        built := BuildMatcher(Matcher(rule));
        return;
      }
      var conditions := CollectUsableConditions(plan.env.checks, rule);
      var parts := BuildParts(conditions, rule.mode == All);
      if parts.None? || parts.value == [] { return None; }
      if |parts.value| == 1 && !rule.invert { return Some(parts.value[0]); }
      built := Some(Combined(rule.mode, parts.value, rule.invert));
    }

    /** The entries not yet listed, added to a list of sniffers. */
    method AddSniffers(known: seq<string>, protocols: seq<string>, ghost named: seq<string>)
      returns (result: seq<string>)
      requires known == Distinct(Keep, named)
      ensures result == Distinct(Keep, named + protocols)
    {
      result := known;
      assert named + protocols[..0] == named;
      for j := 0 to |protocols|
        invariant result == Distinct(Keep, named + protocols[..j])
      {
        ghost var longer := named + protocols[..j + 1];
        assert longer[..|longer| - 1] == named + protocols[..j];
        if protocols[j] !in result { result := result + [protocols[j]]; }
      }
      assert protocols[..|protocols|] == protocols;
    }

    /** Every protocol the rules name, in order. */
    method CollectProtocols(usable: seq<Rule>) returns (protocols: seq<string>)
      ensures protocols == Flatten(ProtocolLists(plan.env.checks, usable))
    {
      ghost var lists := ProtocolLists(plan.env.checks, usable);
      protocols := [];
      for i := 0 to |usable|
        invariant protocols == Flatten(lists[..i])
      {
        FlattenTake(lists, i);
        protocols := protocols + ProtocolsOf(plan.env.checks, usable[i]);
      }
      assert lists[..|usable|] == lists;
    }

    method CollectSniffers() returns (result: seq<string>)
      ensures result == Sniffers(plan)
    {
      DistinctOfDistinct(BASE_SNIFFERS);
      var usable := CollectUsableRules(plan.env.checks, plan.rules);
      var protocols := CollectProtocols(usable);
      result := AddSniffers(BASE_SNIFFERS, protocols, BASE_SNIFFERS);
    }

    /** The rules the app puts ahead of the graph. */
    method LeadingRules(resolvedNames: seq<string>, serverDomains: seq<string>) returns (own: seq<Entry>)
      ensures own == LeadingEntries(plan, resolvedNames, serverDomains)
    {
      var fields := NO_FIELDS;
      own := [];
      if plan.bypass {
        own := own + [OwnEntry(fields.(inbound := [BYPASS_TAG]), Route(DirectOut))];
      }
      assert own == BypassEntries(plan);
      var sniffers := CollectSniffers();
      own := own + [
        OwnEntry(fields.(port := [DNS_PORT]), HijackDns),
        OwnEntry(fields, Sniff(sniffers)),
        OwnEntry(fields.(ipIsPrivate := true), Route(DirectOut))];
      var servers := [];
      if plan.resolved != map[] {
        servers := servers + [OwnEntry(fields.(domain := resolvedNames), Resolve(DnsServers))];
      }
      if serverDomains != [] {
        servers := servers + [OwnEntry(fields.(domain := serverDomains), Route(DirectOut))];
      }
      assert servers == ServerEntries(plan, resolvedNames, serverDomains);
      own := own + servers + LOCAL_ENTRIES;
    }

    /** The rules the app puts below the graph. */
    method TrailingRules() returns (own: seq<Entry>)
      ensures own == TrailingEntries(plan)
    {
      var fields := NO_FIELDS;
      own := [];
      if SplitTunnelling(plan.rules, plan.defaultAction) {
        own := own + [OwnEntry(fields.(port := [WINBOX_PORT]), Route(Exit))];
      }
      own := own + [OwnEntry(fields.(onlyIpv6 := true), Reject(false))];
      if plan.defaultAction.Block? || plan.defaultAction.Drop? {
        own := own + [Entry(RouteRule(Plain(fields, false), ActionFor(plan, plan.defaultAction, "")), DEFAULT_OWNER)];
      }
    }

    /** One rule of the graph with its destination attached, and whose it is. */
    method EmitRule(rule: Rule) returns (added: seq<Entry>)
      requires Valid()
      modifies this`sets, this`declared
      ensures Valid()
      ensures added == UserEntry(plan, rule)
      ensures sets == DeclareAll(old(sets), SetsOfRule(plan, rule))
    {
      var built := BuildRule(rule);
      if built.None? { return []; }
      added := [Entry(RouteRule(built.value, ActionFor(plan, rule.action, rule.server)), rule.id)];
    }

    /** The graph's own rules, top to bottom, with their owners. */
    method UserRules(usable: seq<Rule>) returns (rules: seq<RouteRule>, owners: seq<string>)
      requires Valid()
      modifies this`sets, this`declared
      ensures Valid()
      ensures rules == RulesOf(UserEntries(plan, usable)) && owners == OwnersOf(UserEntries(plan, usable))
      ensures sets == DeclareAll(old(sets), SetsOfRules(plan, usable))
    {
      rules, owners := [], [];
      for i := 0 to |usable|
        invariant Valid()
        invariant rules == RulesOf(UserEntries(plan, usable[..i]))
        invariant owners == OwnersOf(UserEntries(plan, usable[..i]))
        invariant sets == DeclareAll(old(sets), SetsOfRules(plan, usable[..i]))
      {
        assert usable[..i + 1][..i] == usable[..i];
        DeclareAllAppend(old(sets), SetsOfRules(plan, usable[..i]), SetsOfRule(plan, usable[i]));
        var added := EmitRule(usable[i]);
        EntriesOfAppend(UserEntries(plan, usable[..i]), added);
        rules, owners := rules + RulesOf(added), owners + OwnersOf(added);
      }
      assert usable[..|usable|] == usable;
    }

    /** The rule list, with owners alongside: owners[i] says whose rules[i] is. */
    method BuildRouteRules(resolvedNames: seq<string>, serverDomains: seq<string>)
      returns (rules: seq<RouteRule>, owners: seq<string>)
      requires Valid()
      modifies this`sets, this`declared
      ensures Valid()
      ensures rules == RulesOf(RouteEntries(plan, resolvedNames, serverDomains))
      ensures owners == OwnersOf(RouteEntries(plan, resolvedNames, serverDomains))
      ensures sets == DeclareAll(old(sets), SetsOfRules(plan, UsableRules(plan.env.checks, plan.rules)))
    {
      var usable := CollectUsableRules(plan.env.checks, plan.rules);
      var leading := LeadingRules(resolvedNames, serverDomains);
      var user, userOwners := UserRules(usable);
      var trailing := TrailingRules();
      EntriesOfAppend(LeadingEntries(plan, resolvedNames, serverDomains), UserEntries(plan, usable));
      EntriesOfAppend(LeadingEntries(plan, resolvedNames, serverDomains) + UserEntries(plan, usable), TrailingEntries(plan));
      rules := RulesOf(leading) + user + RulesOf(trailing);
      owners := OwnersOf(leading) + userOwners + OwnersOf(trailing);
    }

    /** One condition as far as DNS can use it. */
    method BuildDomainPart(condition: Condition) returns (part: Option<Match>)
      requires Valid()
      modifies this`sets, this`declared
      ensures Valid()
      ensures part == DomainPart(plan, condition)
      ensures sets == DeclareAll(old(sets), SetsOfDomainPart(plan, condition))
    {
      if !AboutDomains(condition) || condition.invert { return None; }
      if UsesSets(condition.kind) {
        var tags := DeclareSets(condition.kind, condition.values, true);
        part := NonEmpty(NO_FIELDS.(ruleSet := tags));
      } else {
        part := BuildMatcher(condition);
      }
    }

    method BuildDomainParts(conditions: seq<Condition>) returns (parts: seq<Match>)
      requires Valid()
      modifies this`sets, this`declared
      ensures Valid()
      ensures parts == DomainPartsOf(plan, conditions)
      ensures sets == DeclareAll(old(sets), SetsOfDomainParts(plan, conditions))
    {
      parts := [];
      for i := 0 to |conditions|
        invariant Valid()
        invariant parts == DomainPartsOf(plan, conditions[..i])
        invariant sets == DeclareAll(old(sets), SetsOfDomainParts(plan, conditions[..i]))
      {
        assert conditions[..i + 1][..i] == conditions[..i];
        DeclareAllAppend(old(sets), SetsOfDomainParts(plan, conditions[..i]), SetsOfDomainPart(plan, conditions[i]));
        var part := BuildDomainPart(conditions[i]);
        if part.Some? { parts := parts + [part.value]; }
      }
      assert conditions[..|conditions|] == conditions;
    }

    /** The domain conditions of a rule as a DNS match; list sets are declared in their domains-only form. */
    method BuildDomainMatcher(rule: Rule) returns (built: Option<Match>)
      requires Valid()
      modifies this`sets, this`declared
      ensures Valid()
      ensures built == DomainPattern(plan, rule)
      ensures sets == DeclareAll(old(sets), SetsOfDomains(plan, rule))
    {
      if !MatchesDomains(plan.env.checks, rule) { return None; }
      var parts := BuildDomainParts(Matchers(plan.env.checks, rule));
      if parts == [] { return None; }
      built := if |parts| == 1 then Some(parts[0]) else Some(Combined(Any, parts, false));
    }
  }

  lemma EntriesOfAppend(a: seq<Entry>, b: seq<Entry>)
    ensures RulesOf(a + b) == RulesOf(a) + RulesOf(b)
    ensures OwnersOf(a + b) == OwnersOf(a) + OwnersOf(b)
  {
  }

  lemma FlattenTake<T>(parts: seq<seq<T>>, i: nat)
    requires i < |parts|
    ensures Flatten(parts[..i + 1]) == Flatten(parts[..i]) + parts[i]
  {
    assert parts[..i + 1] == parts[..i] + [parts[i]];
    FlattenSnoc(parts[..i], parts[i]);
  }

  lemma {:induction false} FlattenSnoc<T>(parts: seq<seq<T>>, last: seq<T>)
    ensures Flatten(parts + [last]) == Flatten(parts) + last
  {
    if parts == [] {
      assert [last][1..] == [];
    } else {
      assert (parts + [last])[1..] == parts[1..] + [last];
      FlattenSnoc(parts[1..], last);
    }
  }

  lemma {:induction false} DistinctOfDistinct(values: seq<string>)
    requires NoRepeats(values)
    ensures Distinct(Keep, values) == values
  {
    if values != [] {
      DistinctOfDistinct(values[..|values| - 1]);
    }
  }
}
