// Nothing a built configuration starts waits for itself: what an outbound or a
// resolver needs before it can work never leads back to it.

module ConfigStartup {
  import opened Wrappers
  import opened Sequences
  import opened Text
  import opened Models
  import opened Normalize
  import opened CoreConfig
  import opened RouteSpec
  import opened ConfigSpec
  import opened ConfigTags
  import opened DnsSection
  import opened ConfigClosed

  // ------------------------------------------------------- what needs what

  datatype Node = Out(out: OutTag) | Resolver(server: DnsTag)

  /** An outbound needs its detour, a group its members, and a dialer the resolver that answers for it. */
  predicate OutboundNeeds(o: Outbound, defaultResolver: DnsTag, need: Node) {
    || (o.detour.Some? && need == Out(o.detour.value))
    || (o.kind.UrlTest? && need.Out? && need.out in o.kind.members)
    || (!o.kind.UrlTest? && need == Resolver(if o.resolver.Some? then o.resolver.value else defaultResolver))
  }

  /** A resolver needs its detour, and, named by hostname, another resolver. */
  predicate ServerNeeds(env: Env, s: DnsServer, defaultResolver: DnsTag, need: Node) {
    || (s.detour.Some? && need == Out(s.detour.value))
    || (s.resolver.Some? && need == Resolver(s.resolver.value))
    || (s.resolver.None? && s.server != "" && !env.isIp(s.server) && need == Resolver(defaultResolver))
  }

  ghost predicate Needs(env: Env, c: Config, a: Node, b: Node) {
    match a
    case Out(tag) => exists o <- c.outbounds + c.endpoints :: o.tag == tag && OutboundNeeds(o, c.defaultResolver, b)
    case Resolver(tag) => exists s <- c.dns.servers :: s.tag == tag && ServerNeeds(env, s, c.defaultResolver, b)
  }

  /** Each node of the walk needs the next. */
  ghost predicate Walk(env: Env, c: Config, walk: seq<Node>) {
    forall i :: 0 <= i < |walk| - 1 ==> Needs(env, c, walk[i], walk[i + 1])
  }

  /** No walk comes back to where it started. */
  ghost predicate Acyclic(env: Env, c: Config) {
    forall walk: seq<Node> :: |walk| >= 2 && Walk(env, c, walk) ==> walk[0] != walk[|walk| - 1]
  }

  // ------------------------------------------------------------------- ranks

  /** The order things can be brought up in: local resolvers, then the chain outwards, then whatever leaves by it. */
  function Rank(hops: nat, node: Node): nat {
    match node
    case Out(DirectOut) => 1
    case Out(ChainHop(k)) => k + 1
    case Out(Exit) => hops + 3
    case Out(_) => hops + 2
    case Resolver(DnsProxy) => hops + 4
    case Resolver(DnsVia(_)) => hops + 4
    case Resolver(DnsRule(_)) => hops + 4
    case Resolver(_) => 0
  }

  /** How a placement is reached. */
  ghost predicate Reached(p: Placement, hops: nat) {
    match p.outbound.tag
    case ChainHop(k) => 1 <= k <= hops && p.outbound.kind.Dialed? && p.outbound.detour == ChainTail(k - 1)
    case DirectOut => p.outbound.kind.DirectKind? && p.outbound.detour.None?
    case Exit =>
      if p.outbound.kind.UrlTest?
      then p.outbound.detour.None? && forall m <- p.outbound.kind.members :: m.ExitMember?
      else p.outbound.kind.Dialed? && p.outbound.detour == ChainTail(hops)
    case _ => p.outbound.kind.Dialed? && p.outbound.detour == ChainTail(hops)
  }

  lemma ExitReached(request: Request, exit: Server, hops: nat)
    ensures forall p <- ExitPlacements(request, exit, ChainTail(hops)) :: Reached(p, hops)
  {
  }

  lemma PlacementsReached(request: Request, l: Layout)
    requires LaidOut(request, l)
    ensures forall p <- Placements(request, l) :: Reached(p, |l.hops|) && p.outbound.resolver.None?
  {
    var hops := |l.hops|;
    forall p <- ChainPlacements(l.hops) ensures Reached(p, hops) {}
    ExitReached(request, l.exit, hops);
    PlacementsLean(request, l);
    forall p <- l.servers.placed ensures Reached(p, hops) {
      var i :| 0 <= i < |l.servers.placed| && l.servers.placed[i] == p;
    }
  }

  lemma OutboundDescends(p: Placement, o: Outbound, hops: nat, need: Node)
    requires Reached(p, hops)
    requires o.tag == p.outbound.tag && o.kind == p.outbound.kind && o.detour == p.outbound.detour
    requires o.resolver.None? || o.resolver == Some(DnsServers)
    requires OutboundNeeds(o, DnsDirect, need)
    ensures Rank(hops, need) < Rank(hops, Out(o.tag))
  {
  }

  // --------------------------------------------------------------- resolvers

  /** The base resolvers, then ones declared for an outbound or a rule. */
  ghost predicate Grown(plan: Plan, servers: seq<DnsServer>) {
    && BaseServers(plan) <= servers
    && forall i :: |BaseServers(plan)| <= i < |servers| ==>
         && (servers[i].tag.DnsVia? || servers[i].tag.DnsRule?)
         && (servers[i].server == plan.dns || servers[i].server == "" || plan.env.isIp(servers[i].server)
             || servers[i].resolver == Some(DnsDirect))
  }

  lemma StepGrows(plan: Plan, final: DnsTag, s: DnsState, rule: Rule)
    requires Grown(plan, s.servers)
    ensures Grown(plan, DnsStep(plan, final, s, rule).servers)
  {
    if !Blocks(rule) {
      OwnGrows(plan, s, rule);
      ViaGrows(plan, OwnResolver(plan, s, rule).0, RuleOutbound(plan, rule));
    }
  }

  lemma OwnGrows(plan: Plan, s: DnsState, rule: Rule)
    requires Grown(plan, s.servers)
    ensures Grown(plan, OwnResolver(plan, s, rule).0.servers)
  {
  }

  lemma ViaGrows(plan: Plan, s: DnsState, out: OutTag)
    requires Grown(plan, s.servers)
    ensures Grown(plan, Via(plan.dns, s, out).0.servers)
  {
  }

  lemma {:induction false} FoldGrows(plan: Plan, final: DnsTag, s: DnsState, rules: seq<Rule>)
    requires Grown(plan, s.servers)
    ensures Grown(plan, DnsFold(plan, final, s, rules).servers)
  {
    if rules != [] {
      FoldGrows(plan, final, s, rules[..|rules| - 1]);
      StepGrows(plan, final, DnsFold(plan, final, s, rules[..|rules| - 1]), rules[|rules| - 1]);
    }
  }

  lemma DnsGrown(plan: Plan, names: seq<string>, domains: seq<string>)
    ensures Grown(plan, DnsOf(plan, names, domains).servers)
  {
    var (start, final) := StartDns(plan, names, domains);
    var base := DnsState(BaseServers(plan), BaseDnsRules(plan, names, domains), map[Exit := DnsProxy], map[]);
    ViaGrows(plan, base, FinalOutbound(plan));
    FoldGrows(plan, final, start, UsableRules(plan.env.checks, plan.rules));
  }

  /** Only a resolver address that is itself a hostname makes the bootstrap resolver need one. */
  lemma ServerDescends(plan: Plan, servers: seq<DnsServer>, s: DnsServer, hops: nat, need: Node)
    requires Grown(plan, servers) && s in servers && plan.env.isIp(plan.dns)
    requires s.detour.Some? ==> Rank(hops, Out(s.detour.value)) <= hops + 3
    requires s.resolver.Some? ==> s.resolver == Some(DnsDirect)
    requires ServerNeeds(plan.env, s, DnsDirect, need)
    ensures Rank(hops, need) < Rank(hops, Resolver(s.tag))
  {
    var i :| 0 <= i < |servers| && servers[i] == s;
    if i < |BaseServers(plan)| {
      assert s == BaseServers(plan)[i];
    }
  }

  // ------------------------------------------------------------ the theorems

  lemma KnownRank(request: Request, l: Layout, out: OutTag)
    requires LaidOut(request, l) && KnownOut(PlanOf(request, l), out)
    ensures Rank(|l.hops|, Out(out)) <= |l.hops| + 3
  {
    if out != Exit && out != DirectOut {
      var id :| id in l.servers.outboundFor && l.servers.outboundFor[id] == out;
      var p :| p in l.servers.placed && p.outbound.tag == out;
      var i :| 0 <= i < |l.servers.placed| && l.servers.placed[i] == p;
    }
  }

  lemma OutboundNeedsLess(request: Request, l: Layout, o: Outbound, need: Node)
    requires LaidOut(request, l)
    requires o in Everything(Resolved(request, DomainsOf(request, l)), Placements(request, l))
    requires OutboundNeeds(o, DnsDirect, need)
    ensures Rank(|l.hops|, need) < Rank(|l.hops|, Out(o.tag))
  {
    var p := DeclaredWasPlaced(Resolved(request, DomainsOf(request, l)), Placements(request, l), o);
    PlacementsReached(request, l);
    OutboundDescends(p, o, |l.hops|, need);
  }

  lemma ServerNeedsLess(request: Request, l: Layout, s: DnsServer, need: Node)
    requires LaidOut(request, l) && request.env.isIp(PlanOf(request, l).dns)
    requires s in DnsOf(PlanOf(request, l), NamesOf(request, l), DomainsOf(request, l)).servers
    requires ServerNeeds(request.env, s, DnsDirect, need)
    ensures Rank(|l.hops|, need) < Rank(|l.hops|, Resolver(s.tag))
  {
    var plan, names, domains := PlanOf(request, l), NamesOf(request, l), DomainsOf(request, l);
    DnsClosed(plan, names, domains);
    DnsGrown(plan, names, domains);
    if s.detour.Some? {
      KnownRank(request, l, s.detour.value);
    }
    ServerDescends(plan, DnsOf(plan, names, domains).servers, s, |l.hops|, need);
  }

  /** Whatever something needs comes up before it. */
  lemma NeedsComeFirst(request: Request, l: Layout, a: Node, b: Node)
    requires LaidOut(request, l) && request.env.isIp(PlanOf(request, l).dns)
    requires Needs(request.env, ConfigOf(request, l), a, b)
    ensures Rank(|l.hops|, b) < Rank(|l.hops|, a)
  {
    var c := ConfigOf(request, l);
    match a {
      case Out(tag) =>
        var o :| o in c.outbounds + c.endpoints && o.tag == tag && OutboundNeeds(o, c.defaultResolver, b);
        OutboundNeedsLess(request, l, o, b);
      case Resolver(tag) =>
        var s :| s in c.dns.servers && s.tag == tag && ServerNeeds(request.env, s, c.defaultResolver, b);
        ServerNeedsLess(request, l, s, b);
    }
  }

  ghost predicate Ranked(env: Env, c: Config, hops: nat) {
    forall a, b :: Needs(env, c, a, b) ==> Rank(hops, b) < Rank(hops, a)
  }

  lemma {:induction false} WalkDescends(env: Env, c: Config, hops: nat, walk: seq<Node>, i: nat)
    requires Ranked(env, c, hops) && Walk(env, c, walk) && 0 < i < |walk|
    ensures Rank(hops, walk[i]) < Rank(hops, walk[0])
  {
    assert Needs(env, c, walk[i - 1], walk[i - 1 + 1]);
    if i > 1 {
      WalkDescends(env, c, hops, walk, i - 1);
    }
  }

  lemma RankedIsAcyclic(env: Env, c: Config, hops: nat)
    requires Ranked(env, c, hops)
    ensures Acyclic(env, c)
  {
    forall walk: seq<Node> | |walk| >= 2 && Walk(env, c, walk)
      ensures walk[0] != walk[|walk| - 1]
    {
      WalkDescends(env, c, hops, walk, |walk| - 1);
    }
  }

  lemma BootstrapServer(request: Request, l: Layout) returns (s: DnsServer)
    requires LaidOut(request, l)
    ensures s in DnsOf(PlanOf(request, l), NamesOf(request, l), DomainsOf(request, l)).servers
    ensures s.tag == DnsDirect && s.server == PlanOf(request, l).dns && s.resolver.None? && s.server != ""
  {
    var plan := PlanOf(request, l);
    DnsGrown(plan, NamesOf(request, l), DomainsOf(request, l));
    s := BaseServers(plan)[1];
    assert DnsOf(plan, NamesOf(request, l), DomainsOf(request, l)).servers[1] == s;
    if request.dns == "" {
      assert Trim(request.dns) == "";
    }
  }

  lemma WaitsForItself(env: Env, c: Config, s: DnsServer)
    requires s in c.dns.servers && s.tag == DnsDirect == c.defaultResolver
    requires s.resolver.None? && s.server != "" && !env.isIp(s.server)
    ensures !Acyclic(env, c)
  {
    var loop := [Resolver(DnsDirect), Resolver(DnsDirect)];
    assert ServerNeeds(env, s, c.defaultResolver, loop[1]);
    assert Walk(env, c, loop);
  }

  /**
   * The tunnel can always be brought up, and only a resolver address that is
   * not an IP literal stops it: the bootstrap resolver then waits for itself.
   */
  lemma StartsExactlyWithAnIpResolver(request: Request, l: Layout)
    requires LayoutOf(request) == Some(l)
    ensures l.graph.rules.Some?
    ensures Acyclic(request.env, ConfigOf(request, l)) <==> request.env.isIp(PlanOf(request, l).dns)
  {
    LayoutIsLaidOut(request);
    if request.env.isIp(PlanOf(request, l).dns) {
      forall a, b | Needs(request.env, ConfigOf(request, l), a, b)
        ensures Rank(|l.hops|, b) < Rank(|l.hops|, a)
      {
        NeedsComeFirst(request, l, a, b);
      }
      RankedIsAcyclic(request.env, ConfigOf(request, l), |l.hops|);
    } else {
      var s := BootstrapServer(request, l);
      WaitsForItself(request.env, ConfigOf(request, l), s);
    }
  }

  // --------------------------------------------------------- along the chain

  /** The detour of the outbound with a tag. */
  function DetourOf(all: seq<Outbound>, tag: OutTag): Option<OutTag> {
    if all == [] then None
    else if all[0].tag == tag then all[0].detour
    else DetourOf(all[1..], tag)
  }

  /** Following detours from a tag, at most so many steps. */
  function Follow(all: seq<Outbound>, tag: OutTag, steps: nat): seq<OutTag>
    decreases steps
  {
    [tag]
    + (if steps == 0 then []
       else match DetourOf(all, tag) case None => [] case Some(next) => Follow(all, next, steps - 1))
  }

  /** Every hop once, the last dialed first. */
  function HopsBack(hops: nat): (r: seq<OutTag>)
    ensures |r| == hops && forall i :: 0 <= i < hops ==> r[i] == ChainHop(hops - i)
  {
    seq(hops, i requires 0 <= i < hops => ChainHop(hops - i))
  }

  lemma {:induction false} DetourIsUnique(all: seq<Outbound>, o: Outbound)
    requires DistinctKeys(all, OutboundTag) && o in all
    ensures DetourOf(all, o.tag) == o.detour
  {
    if all[0] != o {
      var k :| 0 <= k < |all| && all[k] == o;
      assert OutboundTag(all[0]) != OutboundTag(all[k]);
      DetourIsUnique(all[1..], o);
    }
  }

  /** What a tag's detour should be. */
  function DetourFor(tag: OutTag, hops: nat, group: bool): Option<OutTag> {
    match tag
    case ChainHop(k) => if k == 0 then None else ChainTail(k - 1)
    case DirectOut => None
    case Exit => if group then None else ChainTail(hops)
    case _ => ChainTail(hops)
  }

  /** Every placement as it should be reached, hop by hop. */
  ghost predicate PlacedWell(placed: seq<Placement>, hops: nat, group: bool) {
    && DistinctKeys(placed, TagOf)
    && (forall p <- placed :: Reached(p, hops) && (p.outbound.tag == Exit ==> (p.outbound.kind.UrlTest? <==> group)))
  }

  ghost predicate HopsPlaced(placed: seq<Placement>, hops: nat) {
    forall k {:trigger HasTag(placed, ChainHop(k))} :: 1 <= k <= hops ==> HasTag(placed, ChainHop(k))
  }

  lemma PlacedDetour(resolved: map<string, seq<string>>, placed: seq<Placement>, tag: OutTag, hops: nat, group: bool)
    requires HasTag(placed, tag) && PlacedWell(placed, hops, group)
    ensures DetourOf(Everything(resolved, placed), tag) == DetourFor(tag, hops, group)
  {
    TagIsDeclared(resolved, placed, tag);
    var all := Everything(resolved, placed);
    var o :| o in all && o.tag == tag;
    var p := DeclaredWasPlaced(resolved, placed, o);
    EverythingDistinct(resolved, placed);
    DetourIsUnique(all, o);
  }

  lemma PlacedWires(resolved: map<string, seq<string>>, placed: seq<Placement>, hops: nat, group: bool)
    requires PlacedWell(placed, hops, group) && HopsPlaced(placed, hops)
    ensures ChainWired(Everything(resolved, placed), hops)
  {
    var all := Everything(resolved, placed);
    forall k {:trigger DetourOf(all, ChainHop(k))} | 1 <= k <= hops
      ensures DetourOf(all, ChainHop(k)) == ChainTail(k - 1)
    {
      assert HasTag(placed, ChainHop(k));
      PlacedDetour(resolved, placed, ChainHop(k), hops, group);
    }
  }

  lemma PlacedFollow(
      resolved: map<string, seq<string>>, placed: seq<Placement>, tag: OutTag, hops: nat, group: bool, steps: nat)
    requires HasTag(placed, tag) && PlacedWell(placed, hops, group) && HopsPlaced(placed, hops)
    requires tag.ServerOut? || tag.ExitMember? || (tag == Exit && !group)
    requires steps > hops
    ensures Follow(Everything(resolved, placed), tag, steps) == [tag] + HopsBack(hops)
  {
    PlacedWires(resolved, placed, hops, group);
    PlacedDetour(resolved, placed, tag, hops, group);
    FollowExit(Everything(resolved, placed), tag, hops, steps);
  }

  /** The exit is a group exactly when there are servers to switch between. */
  lemma ExitKind(request: Request, l: Layout)
    requires LaidOut(request, l)
    ensures forall p <- Placements(request, l) ::
      p.outbound.tag == Exit ==> (p.outbound.kind.UrlTest? <==> request.alternatives != [])
  {
    var placed := ExitPlacements(request, l.exit, ChainTail(|l.hops|));
    forall q <- ChainPlacements(l.hops) ensures q.outbound.tag != Exit {}
    forall q <- l.servers.placed ensures q.outbound.tag != Exit {
      var i :| 0 <= i < |l.servers.placed| && l.servers.placed[i] == q;
    }
    forall p <- Placements(request, l) | p.outbound.tag == Exit
      ensures p.outbound.kind.UrlTest? <==> request.alternatives != []
    {
      assert p in placed;
    }
  }

  ghost predicate ChainWired(all: seq<Outbound>, hops: nat) {
    forall k {:trigger DetourOf(all, ChainHop(k))} :: 1 <= k <= hops ==> DetourOf(all, ChainHop(k)) == ChainTail(k - 1)
  }

  lemma {:induction false} FollowChain(all: seq<Outbound>, k: nat, steps: nat)
    requires ChainWired(all, k) && 1 <= k <= steps
    ensures Follow(all, ChainHop(k), steps) == HopsBack(k)
    decreases k
  {
    assert DetourOf(all, ChainHop(k)) == ChainTail(k - 1);
    if k > 1 {
      FollowChain(all, k - 1, steps - 1);
    }
    assert HopsBack(k) == [ChainHop(k)] + HopsBack(k - 1);
  }

  lemma FollowExit(all: seq<Outbound>, tag: OutTag, hops: nat, steps: nat)
    requires ChainWired(all, hops) && DetourOf(all, tag) == ChainTail(hops) && steps > hops
    ensures Follow(all, tag, steps) == [tag] + HopsBack(hops)
  {
    if hops > 0 {
      FollowChain(all, hops, steps - 1);
    }
  }

  lemma LayoutPlacedWell(request: Request, l: Layout)
    requires LaidOut(request, l)
    ensures PlacedWell(Placements(request, l), |l.hops|, request.alternatives != [])
    ensures HopsPlaced(Placements(request, l), |l.hops|)
  {
    PlacementsReached(request, l);
    PlacementTagsDistinct(request, l);
    ExitKind(request, l);
    forall k {:trigger HasTag(Placements(request, l), ChainHop(k))} | 1 <= k <= |l.hops|
      ensures HasTag(Placements(request, l), ChainHop(k))
    {
      ChainHopPlaced(request, l, k);
    }
  }

  /**
   * From any server traffic leaves by, following detours visits every hop of
   * the chain exactly once, last hop first, and stops: more steps add nothing.
   */
  lemma DetoursWalkTheChain(request: Request, l: Layout, tag: OutTag, steps: nat)
    requires LayoutOf(request) == Some(l)
    requires tag.ServerOut? || tag.ExitMember? || (tag == Exit && request.alternatives == [])
    requires HasTag(Placements(request, l), tag) && steps > |l.hops|
    ensures l.graph.rules.Some?
    ensures var c := ConfigOf(request, l);
      c.chainHops == |l.hops| && Follow(c.outbounds + c.endpoints, tag, steps) == [tag] + HopsBack(c.chainHops)
  {
    LayoutIsLaidOut(request);
    LayoutPlacedWell(request, l);
    PlacedFollow(
      Resolved(request, DomainsOf(request, l)), Placements(request, l), tag, |l.hops|, request.alternatives != [], steps);
  }
}
