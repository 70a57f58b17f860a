// Assembling a configuration step by step (internal/sbconfig/build.go): outbounds
// and endpoints grow, tags and detours are written as they are known.

module ConfigBuilder {
  import opened Wrappers
  import opened Sequences
  import opened Text
  import opened Models
  import opened Normalize
  import opened CoreConfig
  import opened RouteSpec
  import opened RouteCompiler
  import opened ConfigSpec

  /** The outbounds and endpoints collected so far. */
  class Wiring {
    var outbounds: seq<Outbound>
    var endpoints: seq<Outbound>
    ghost var placed: seq<Placement>

    ghost predicate Valid()
      reads this
    {
      outbounds == OutboundsOf(placed) && endpoints == EndpointsOf(placed)
    }

    constructor ()
      ensures Valid() && placed == []
    {
      outbounds, endpoints, placed := [], [], [];
    }

    method Place(p: Placement)
      requires Valid()
      modifies this
      ensures Valid() && placed == old(placed) + [p]
    {
      if p.endpoint {
        endpoints := endpoints + [p.outbound.(server := "")];
      } else {
        outbounds := outbounds + [p.outbound];
      }
      placed := placed + [p];
      assert placed[..|placed| - 1] == old(placed);
    }
  }

  /** Materialises the proxy chain; false when a hop cannot be parsed. */
  method AppendChain(request: Request, w: Wiring) returns (ok: bool, hops: seq<Server>)
    requires w.Valid() && w.placed == []
    modifies w
    ensures w.Valid()
    ensures ok == HopServers(request).Some?
    ensures ok ==> HopServers(request) == Some(hops) && w.placed == ChainPlacements(hops)
  {
    ok, hops := true, [];
    if request.engine.Some? || !request.chainEnabled { return; }
    var seen: seq<string> := [];
    for i := 0 to |request.chain|
      invariant w.Valid() && w.placed == ChainPlacements(hops)
      invariant seen == HopsAmong(request, request.chain[..i])
      invariant ServersAt(request, seen) == Some(hops)
    {
      var id := request.chain[i];
      HopsAmongNext(request, i);
      if id == request.profile.id || id in seen { continue; }
      var profile := ProfileById(request.profiles, id);
      if profile.None? { continue; }
      seen := seen + [id];
      var hop := request.parse(profile.value);
      ServersAtNext(request, seen);
      if hop.None? {
        ChainRefused(request, i + 1);
        return false, [];
      }
      ChainPlacementsNext(hops, hop.value);
      w.Place(PlaceServer(ChainHop(|hops| + 1), ChainTail(|hops|), hop.value));
      hops := hops + [hop.value];
    }
    assert request.chain[..|request.chain|] == request.chain;
  }

  lemma HopsAmongNext(request: Request, i: nat)
    requires i < |request.chain|
    ensures var id, seen := request.chain[i], HopsAmong(request, request.chain[..i]);
      HopsAmong(request, request.chain[..i + 1]) ==
        if HopId(request, id).Some? && id !in seen then seen + [id] else seen
  {
    assert request.chain[..i + 1][..i] == request.chain[..i];
  }

  lemma ServersAtNext(request: Request, ids: seq<string>)
    requires ids != []
    ensures var before := ServersAt(request, ids[..|ids| - 1]);
      ServersAt(request, ids) ==
        if before.None? then None
        else match HopServer(request, ids[|ids| - 1]) case None => None case Some(server) => Some(before.value + [server])
  {
  }

  lemma ChainPlacementsNext(hops: seq<Server>, server: Server)
    ensures ChainPlacements(hops + [server]) ==
      ChainPlacements(hops) + [PlaceServer(ChainHop(|hops| + 1), ChainTail(|hops|), server)]
  {
  }

  /** A hop that cannot be parsed fails the chain whatever comes after it. */
  lemma {:induction false} ChainRefused(request: Request, n: nat)
    requires n <= |request.chain| && request.engine.None? && request.chainEnabled
    requires ServersAt(request, HopsAmong(request, request.chain[..n])).None?
    ensures HopServers(request).None?
  {
    DistinctPrefix(id => HopId(request, id), request.chain, n);
    var all, part := HopIds(request), HopsAmong(request, request.chain[..n]);
    assert all[..|part|] == part;
    CollectAllRefused(id => HopServer(request, id), all, |part|);
  }

  lemma {:induction false} DistinctPrefix<S, T>(accept: S -> Option<T>, values: seq<S>, n: nat)
    requires n <= |values|
    ensures Distinct(accept, values[..n]) <= Distinct(accept, values)
  {
    if n < |values| {
      assert values[..|values| - 1][..n] == values[..n];
      DistinctPrefix(accept, values[..|values| - 1], n);
    } else {
      assert values[..n] == values;
    }
  }

  /** The exit, or a group of the connected server and the usable alternatives. */
  method AddExits(request: Request, exit: Server, tail: Option<OutTag>, w: Wiring) returns (ids: seq<string>)
    requires w.Valid()
    modifies w
    ensures w.Valid() && w.placed == old(w.placed) + ExitPlacements(request, exit, tail)
    ensures ids == MemberIds(request, exit)
  {
    if request.alternatives == [] {
      w.Place(PlaceServer(Exit, tail, exit));
      return [];
    }
    var members := [(request.profile.id, exit)];
    w.Place(PlaceServer(ExitMember(1), tail, exit));
    assert MemberPlacements(members, tail) == [PlaceServer(ExitMember(1), tail, exit)];
    for i := 0 to |request.alternatives|
      invariant w.Valid()
      invariant members == [(request.profile.id, exit)] + UsableAlternatives(request, request.alternatives[..i])
      invariant w.placed == old(w.placed) + MemberPlacements(members, tail)
    {
      assert request.alternatives[..i + 1][..i] == request.alternatives[..i];
      var alternative := request.alternatives[i];
      if alternative.id == request.profile.id || request.fullConfig(alternative.link) { continue; }
      var server := Dial(request, alternative);
      if server.None? { continue; }
      MemberPlacementsNext(members, alternative.id, server.value, tail);
      w.Place(PlaceServer(ExitMember(|members| + 1), tail, server.value));
      members := members + [(alternative.id, server.value)];
    }
    assert request.alternatives[..|request.alternatives|] == request.alternatives;
    ids := Map((m: (string, Server)) => m.0, members);
    w.Place(GroupOf(|members|));
  }

  lemma MemberPlacementsNext(members: seq<(string, Server)>, id: string, server: Server, tail: Option<OutTag>)
    ensures MemberPlacements(members + [(id, server)], tail) ==
      MemberPlacements(members, tail) + [PlaceServer(ExitMember(|members| + 1), tail, server)]
  {
  }

  /** An outbound for every server the graph sends traffic through, by profile id. */
  method AppendRuleServers(request: Request, tail: Option<OutTag>, wanted: seq<string>, w: Wiring)
    returns (outboundFor: map<string, OutTag>)
    requires w.Valid()
    modifies w
    ensures w.Valid()
    ensures outboundFor == RuleServersFor(request, tail, wanted).outboundFor
    ensures w.placed == old(w.placed) + RuleServersFor(request, tail, wanted).placed
  {
    outboundFor := map[request.profile.id := Exit];
    for i := 0 to |wanted|
      invariant w.Valid()
      invariant outboundFor == RuleServersFor(request, tail, wanted[..i]).outboundFor
      invariant w.placed == old(w.placed) + RuleServersFor(request, tail, wanted[..i]).placed
    {
      assert wanted[..i + 1][..i] == wanted[..i];
      var id := wanted[i];
      if id in outboundFor { continue; }
      var server := UsableServer(request, id);
      if server.None? {
        outboundFor := outboundFor[id := Exit];
        continue;
      }
      var tag := ServerOut(|outboundFor|);
      w.Place(PlaceServer(tag, tail, server.value));
      outboundFor := outboundFor[id := tag];
    }
    assert wanted[..|wanted|] == wanted;
  }

  method SetResolvers(resolved: map<string, seq<string>>, outbounds: seq<Outbound>) returns (wired: seq<Outbound>)
    ensures wired == Wired(resolved, outbounds)
  {
    wired := [];
    for i := 0 to |outbounds|
      invariant wired == Wired(resolved, outbounds[..i])
    {
      if outbounds[i].server in resolved {
        wired := wired + [outbounds[i].(resolver := Some(DnsServers))];
      } else {
        wired := wired + [outbounds[i]];
      }
    }
    assert outbounds[..|outbounds|] == outbounds;
  }

  /** Wires the resolver, declaring the domain-only sets its rules use as it goes. */
  method BuildDns(p: RoutePlan, resolvedNames: seq<string>, serverDomains: seq<string>) returns (dns: Dns)
    requires p.Valid()
    modifies p
    ensures p.Valid()
    ensures dns == DnsOf(p.plan, resolvedNames, serverDomains)
    ensures p.sets == DeclareAll(old(p.sets), DnsSetsOf(p.plan, resolvedNames, serverDomains))
  {
    var (start, final) := StartDns(p.plan, resolvedNames, serverDomains);
    var s := start;
    var usable := CollectUsableRules(p.plan.env.checks, p.plan.rules);
    for i := 0 to |usable|
      invariant p.Valid()
      invariant s == DnsFold(p.plan, final, start, usable[..i])
      invariant p.sets == DeclareAll(old(p.sets), DnsSets(p.plan, final, start, usable[..i]))
    {
      assert usable[..i + 1][..i] == usable[..i];
      DeclareAllAppend(old(p.sets), DnsSets(p.plan, final, start, usable[..i]),
        if AsksDns(p.plan, final, s, usable[i]) then SetsOfDomains(p.plan, usable[i]) else []);
      s := DnsRuleStep(p, final, s, usable[i]);
    }
    assert usable[..|usable|] == usable;
    dns := Dns(s.servers, s.rules, final);
  }

  method DnsRuleStep(p: RoutePlan, final: DnsTag, s: DnsState, rule: Rule) returns (next: DnsState)
    requires p.Valid()
    modifies p
    ensures p.Valid()
    ensures next == DnsStep(p.plan, final, s, rule)
    ensures p.sets == DeclareAll(old(p.sets), if AsksDns(p.plan, final, s, rule) then SetsOfDomains(p.plan, rule) else [])
  {
    if Blocks(rule) { return s; }
    var (after, tag) := RuleResolver(p.plan, s, rule);
    next := after;
    if tag.None? || tag.value == final { return; }
    var pattern := p.BuildDomainMatcher(rule);
    if pattern.None? { return; }
    next := next.(rules := next.rules + [DnsRuleEntry(pattern.value, tag.value)]);
  }

  /** Profile id to tag, turned round; the exit is set explicitly, since fallbacks share its tag. */
  method Invert(outboundFor: map<string, OutTag>, connected: string) returns (result: map<OutTag, string>)
    requires OneProfilePerTag(outboundFor)
    ensures ServesFor(result, outboundFor, connected, [])
  {
    result := map[];
    var ids := outboundFor.Keys;
    ghost var done: set<string> := {};
    while ids != {}
      invariant done + ids == outboundFor.Keys
      invariant forall id :: id in done && outboundFor[id] != Exit ==>
        outboundFor[id] in result && result[outboundFor[id]] == id
      invariant forall tag :: tag in result ==> tag in outboundFor.Values && tag != Exit
      decreases |ids|
    {
      var id :| id in ids;
      if outboundFor[id] != Exit {
        result := result[outboundFor[id] := id];
      }
      ids, done := ids - {id}, done + {id};
    }
    result := result[Exit := connected];
  }

  /** The exits' own tags added. */
  method Merge(base: map<OutTag, string>, members: seq<string>, ghost outboundFor: map<string, OutTag>, ghost connected: string)
    returns (result: map<OutTag, string>)
    requires ServesFor(base, outboundFor, connected, [])
    requires NumberedTags(outboundFor)
    ensures ServesFor(result, outboundFor, connected, members)
  {
    result := base;
    for i := 0 to |members|
      invariant ServesFor(result, outboundFor, connected, members[..i])
    {
      ServesOneMore(result, outboundFor, connected, members[..i], members[i]);
      assert members[..i] + [members[i]] == members[..i + 1];
      result := result[ExitMember(i + 1) := members[i]];
    }
    assert members[..|members|] == members;
  }

  lemma ServesOneMore(m: map<OutTag, string>, outboundFor: map<string, OutTag>, connected: string, members: seq<string>, id: string)
    requires ServesFor(m, outboundFor, connected, members) && NumberedTags(outboundFor)
    ensures ServesFor(m[ExitMember(|members| + 1) := id], outboundFor, connected, members + [id])
  {
    var longer := m[ExitMember(|members| + 1) := id];
    forall tag: OutTag | tag.ExitMember? && 1 <= tag.n <= |members + [id]|
      ensures tag in longer && longer[tag] == (members + [id])[tag.n - 1]
    {
    }
  }

  ghost predicate NumberedTags(m: map<string, OutTag>) {
    OneProfilePerTag(m) && forall id :: id in m ==> m[id] == Exit || (m[id].ServerOut? && m[id].n < |m|)
  }

  lemma NextTagIsFresh(m: map<string, OutTag>, id: string)
    requires NumberedTags(m) && id !in m
    ensures NumberedTags(m[id := Exit]) && NumberedTags(m[id := ServerOut(|m|)])
  {
    assert |m[id := Exit]| == |m| + 1 && |m[id := ServerOut(|m|)]| == |m| + 1;
  }

  lemma {:induction false} RuleServerTags(request: Request, tail: Option<OutTag>, wanted: seq<string>)
    ensures NumberedTags(RuleServersFor(request, tail, wanted).outboundFor)
  {
    if wanted != [] {
      var init, last := wanted[..|wanted| - 1], wanted[|wanted| - 1];
      RuleServerTags(request, tail, init);
      if last !in RuleServersFor(request, tail, init).outboundFor {
        NextTagIsFresh(RuleServersFor(request, tail, init).outboundFor, last);
      }
    }
  }

  /** The route and DNS sections, which declare the rule-sets between them. */
  method BuildSections(plan: Plan, names: seq<string>, domains: seq<string>)
    returns (rules: seq<RouteRule>, owners: seq<string>, dns: Dns, sets: seq<RuleSet>)
    ensures rules == RulesOf(RouteEntries(plan, names, domains)) && owners == OwnersOf(RouteEntries(plan, names, domains))
    ensures dns == DnsOf(plan, names, domains) && sets == SetsOf(plan, names, domains)
  {
    var p := new RoutePlan(plan);
    rules, owners := p.BuildRouteRules(names, domains);
    dns := BuildDns(p, names, domains);
    DeclareAllAppend([], SetsOfRules(plan, UsableRules(plan.env.checks, plan.rules)), DnsSetsOf(plan, names, domains));
    sets := p.sets;
  }

  method Document(
      request: Request, ghost l: Layout, graph: Graph, hops: nat, outboundFor: map<string, OutTag>, w: Wiring)
    returns (config: Config)
    requires l.graph == graph && graph.rules.Some? && hops == |l.hops| && outboundFor == l.servers.outboundFor
    requires w.Valid() && w.placed == Placements(request, l)
    ensures config == ConfigOf(request, l)
  {
    var domains := ServerDomains(request, w.outbounds, w.endpoints);
    var resolved := Resolved(request, domains);
    var outbounds := SetResolvers(resolved, w.outbounds);
    var names := ResolvedNames(resolved, domains);
    var plan := Plan(request.env, graph.rules.value, graph.defaultAction, graph.defaultServer,
      if Trim(request.dns) == "" then "1.1.1.1" else request.dns,
      request.localSets, request.customGeo, request.lists, outboundFor, resolved, request.bypass);
    var rules, owners, dns, sets := BuildSections(plan, names, domains);
    config := Config(outbounds, w.endpoints, dns, rules, FinalOutbound(plan), DnsDirect, sets, owners, hops, map[]);
  }

  /** Everything dialed or grouped, in order; false when the chain cannot be built. */
  method Wire(request: Request, exit: Server, graph: Graph, w: Wiring)
    returns (ok: bool, hops: nat, outboundFor: map<string, OutTag>, ids: seq<string>, ghost l: Layout)
    requires w.Valid() && w.placed == [] && graph.rules.Some?
    modifies w
    ensures w.Valid() && ok == HopServers(request).Some?
    ensures ok ==> HopServers(request) == Some(l.hops) && l.exit == exit && l.graph == graph
    ensures ok ==> l.servers == RuleServersFor(request, ChainTail(|l.hops|), WantedServers(request.env.checks, graph))
    ensures ok ==> w.placed == Placements(request, l) && ids == MemberIds(request, exit)
    ensures ok ==> hops == |l.hops| && outboundFor == l.servers.outboundFor
  {
    var chain;
    ok, chain := AppendChain(request, w);
    hops, outboundFor, ids := |chain|, map[], [];
    var tail := ChainTail(hops);
    var wanted := WantedServers(request.env.checks, graph);
    l := Layout(chain, exit, RuleServersFor(request, tail, wanted), graph);
    if !ok { return; }
    ids := AddExits(request, exit, tail, w);
    outboundFor := AppendRuleServers(request, tail, wanted, w);
    w.Place(DIRECT);
  }

  /** What Build promises of a generated document. */
  ghost predicate BuiltFrom(config: Config, request: Request, l: Layout) {
    && l.graph.rules.Some?
    && config.(serverFor := map[]) == ConfigOf(request, l)
    && ServesFor(config.serverFor, l.servers.outboundFor, request.profile.id, MemberIds(request, l.exit))
  }

  /** Tag to profile id, for the exits and the servers rules name. */
  method ServerTags(request: Request, hops: nat, outboundFor: map<string, OutTag>, ids: seq<string>, ghost wanted: seq<string>)
    returns (serverFor: map<OutTag, string>)
    requires outboundFor == RuleServersFor(request, ChainTail(hops), wanted).outboundFor
    ensures ServesFor(serverFor, outboundFor, request.profile.id, ids)
  {
    RuleServerTags(request, ChainTail(hops), wanted);
    serverFor := Invert(outboundFor, request.profile.id);
    serverFor := Merge(serverFor, ids, outboundFor, request.profile.id);
  }

  method Generate(request: Request, exit: Server, graph: Graph) returns (config: Option<Config>, ghost l: Layout)
    requires graph.rules.Some?
    ensures config.Some? == HopServers(request).Some?
    ensures config.Some? ==> HopServers(request) == Some(l.hops) && l.exit == exit && l.graph == graph
    ensures config.Some? ==> l.servers == RuleServersFor(request, ChainTail(|l.hops|), WantedServers(request.env.checks, graph))
    ensures config.Some? ==> BuiltFrom(config.value, request, l)
  {
    var w := new Wiring();
    var ok, hops, outboundFor, ids;
    ok, hops, outboundFor, ids, l := Wire(request, exit, graph, w);
    if !ok { return None, l; }
    var document := Document(request, l, graph, hops, outboundFor, w);
    var serverFor := ServerTags(request, hops, outboundFor, ids, WantedServers(request.env.checks, graph));
    config := Some(document.(serverFor := serverFor));
  }

  /** The configuration for a profile, or the profile's own when it is a complete one. */
  method Build(request: Request) returns (built: Built)
    ensures built == Verbatim <==> request.fullConfig(request.profile.link)
    ensures !built.Verbatim? ==> (built == Failed <==> LayoutOf(request).None?)
    ensures built.Generated? ==>
      LayoutOf(request).Some? && BuiltFrom(built.config, request, LayoutOf(request).value)
  {
    var graph := NormalGraph(request.graph, request.legacy);
    if request.fullConfig(request.profile.link) { return Verbatim; }
    var exit := Dial(request, request.profile);
    if exit.None? { return Failed; }
    var config, l := Generate(request, exit.value, graph);
    assert config.Some? ==> LayoutOf(request) == Some(l);
    built := if config.Some? then Generated(config.value) else Failed;
  }
}
