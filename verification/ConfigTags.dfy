// What is placed is declared, and no tag twice (internal/sbconfig/build.go).

module ConfigTags {
  import opened Wrappers
  import opened Sequences
  import opened CoreConfig
  import opened Models
  import opened Normalize
  import opened RouteSpec
  import opened ConfigSpec

  // -------------------------------------------------------- lists with keys

  /** No two entries share a key. */
  ghost predicate DistinctKeys<T, K>(values: seq<T>, key: T -> K) {
    forall i, j :: 0 <= i < j < |values| ==> key(values[i]) != key(values[j])
  }

  lemma {:induction false} CollectKeepsKeys<S, T, K>(accept: S -> Option<T>, values: seq<S>, from: S -> K, to: T -> K)
    requires DistinctKeys(values, from)
    requires forall v <- values :: accept(v).Some? ==> to(accept(v).value) == from(v)
    ensures DistinctKeys(Collect(accept, values), to)
  {
    if values != [] {
      var init, last := values[..|values| - 1], values[|values| - 1];
      assert last in values && forall v <- init :: v in values;
      CollectKeepsKeys(accept, init, from, to);
      var kept := Collect(accept, init);
      forall i | 0 <= i < |kept| && accept(last).Some?
        ensures to(kept[i]) != to(accept(last).value)
      {
        CollectMembers(accept, init, kept[i]);
        var v :| v in init && accept(v) == Some(kept[i]);
        var k :| 0 <= k < |init| && init[k] == v;
        assert values[k] == v;
      }
    }
  }

  // ---------------------------------------------------------- placed servers

  function TagOf(p: Placement): OutTag { p.outbound.tag }

  /** A rule server's tag, in the order they were added. */
  ghost predicate Ascending(placed: seq<Placement>, below: nat) {
    && (forall i :: 0 <= i < |placed| ==> placed[i].outbound.tag.ServerOut? && placed[i].outbound.tag.n < below)
    && (forall i, j :: 0 <= i < j < |placed| ==> placed[i].outbound.tag.n < placed[j].outbound.tag.n)
  }

  ghost predicate HasTag(placed: seq<Placement>, tag: OutTag) {
    exists p <- placed :: p.outbound.tag == tag
  }

  ghost predicate PlacedServers(s: RuleServers, tail: Option<OutTag>) {
    && Ascending(s.placed, |s.outboundFor|)
    && (forall id :: id in s.outboundFor ==> s.outboundFor[id] == Exit || HasTag(s.placed, s.outboundFor[id]))
    && (forall p <- s.placed :: p.outbound.kind.Dialed? && p.outbound.detour == tail && p.outbound.resolver.None?)
  }

  lemma AddRuleServerPlaced(request: Request, tail: Option<OutTag>, s: RuleServers, id: string)
    requires PlacedServers(s, tail)
    ensures PlacedServers(AddRuleServer(request, tail, s, id), tail)
  {
    if id !in s.outboundFor {
      var next := AddRuleServer(request, tail, s, id);
      assert |next.outboundFor| == |s.outboundFor| + 1;
      forall p <- s.placed
        ensures p in next.placed
      {
      }
      if UsableServer(request, id).Some? {
        assert next.placed[|s.placed|] in next.placed;
        assert HasTag(next.placed, next.outboundFor[id]);
      }
    }
  }

  lemma {:induction false} RuleServersPlaced(request: Request, tail: Option<OutTag>, wanted: seq<string>)
    ensures PlacedServers(RuleServersFor(request, tail, wanted), tail)
  {
    if wanted != [] {
      var init := wanted[..|wanted| - 1];
      RuleServersPlaced(request, tail, init);
      AddRuleServerPlaced(request, tail, RuleServersFor(request, tail, init), wanted[|wanted| - 1]);
    }
  }

  // ------------------------------------------------------- all the placements

  /** A layout as LayoutOf makes it. */
  ghost predicate LaidOut(request: Request, l: Layout) {
    && l.graph.rules.Some?
    && PlacedServers(l.servers, ChainTail(|l.hops|))
    && ValidAction(l.graph.defaultAction)
  }

  lemma LayoutIsLaidOut(request: Request)
    requires LayoutOf(request).Some?
    ensures LaidOut(request, LayoutOf(request).value)
  {
    var l := LayoutOf(request).value;
    RuleServersPlaced(request, ChainTail(|l.hops|), WantedServers(request.env.checks, l.graph));
  }

  lemma ExitTags(request: Request, exit: Server, tail: Option<OutTag>)
    ensures var placed := ExitPlacements(request, exit, tail);
      && DistinctKeys(placed, TagOf)
      && (forall p <- placed :: p.outbound.tag.Exit? || p.outbound.tag.ExitMember?)
      && HasTag(placed, Exit)
  {
    var placed := ExitPlacements(request, exit, tail);
    assert placed[|placed| - 1] in placed;
    assert placed[|placed| - 1].outbound.tag == Exit;
  }

  lemma FourParts(a: seq<Placement>, b: seq<Placement>, c: seq<Placement>, d: Placement)
    requires DistinctKeys(a, TagOf) && DistinctKeys(b, TagOf) && DistinctKeys(c, TagOf)
    requires forall p <- a :: p.outbound.tag.ChainHop?
    requires forall p <- b :: p.outbound.tag.Exit? || p.outbound.tag.ExitMember?
    requires forall p <- c :: p.outbound.tag.ServerOut?
    requires d.outbound.tag.DirectOut?
    ensures DistinctKeys(a + b + c + [d], TagOf)
  {
    assert forall i :: 0 <= i < |a| ==> a[i] in a;
    assert forall i :: 0 <= i < |b| ==> b[i] in b;
    assert forall i :: 0 <= i < |c| ==> c[i] in c;
  }

  lemma PlacementTagsDistinct(request: Request, l: Layout)
    requires LaidOut(request, l)
    ensures DistinctKeys(Placements(request, l), TagOf)
  {
    var tail := ChainTail(|l.hops|);
    ExitTags(request, l.exit, tail);
    FourParts(ChainPlacements(l.hops), ExitPlacements(request, l.exit, tail), l.servers.placed, DIRECT);
  }

  // --------------------------------------------------------- declared outbounds

  /** The document's outbounds and endpoints. */
  function Everything(resolved: map<string, seq<string>>, placed: seq<Placement>): seq<Outbound> {
    Wired(resolved, OutboundsOf(placed)) + EndpointsOf(placed)
  }

  ghost predicate Declared(outbounds: seq<Outbound>, tag: OutTag) {
    exists o <- outbounds :: o.tag == tag
  }

  function OutboundTag(o: Outbound): OutTag { o.tag }

  lemma PlacedIsDeclared(resolved: map<string, seq<string>>, placed: seq<Placement>, p: Placement)
    requires p in placed
    ensures Declared(Everything(resolved, placed), p.outbound.tag)
  {
    var all := Everything(resolved, placed);
    if p.endpoint {
      CollectMembers(AsEndpoint, placed, p.outbound.(server := ""));
      assert p.outbound.(server := "") in all;
    } else {
      CollectMembers(AsOutbound, placed, p.outbound);
      var k :| 0 <= k < |OutboundsOf(placed)| && OutboundsOf(placed)[k] == p.outbound;
      assert all[k] == WithResolver(resolved, p.outbound);
      assert all[k] in all;
    }
  }

  /** What is in the document was placed, apart from the resolver set later and the address endpoints lose. */
  lemma DeclaredWasPlaced(resolved: map<string, seq<string>>, placed: seq<Placement>, o: Outbound) returns (p: Placement)
    requires o in Everything(resolved, placed)
    ensures p in placed
    ensures o.tag == p.outbound.tag && o.kind == p.outbound.kind && o.detour == p.outbound.detour
    ensures o.resolver == p.outbound.resolver || (o.resolver == Some(DnsServers) && resolved != map[])
  {
    if o in EndpointsOf(placed) {
      CollectMembers(AsEndpoint, placed, o);
      p :| p in placed && AsEndpoint(p) == Some(o);
    } else {
      var wired := Wired(resolved, OutboundsOf(placed));
      var k :| 0 <= k < |wired| && wired[k] == o;
      var before := OutboundsOf(placed)[k];
      CollectMembers(AsOutbound, placed, before);
      p :| p in placed && AsOutbound(p) == Some(before);
    }
  }

  lemma OneListEach(placed: seq<Placement>, o: Outbound, e: Outbound)
    requires DistinctKeys(placed, TagOf) && o in OutboundsOf(placed) && e in EndpointsOf(placed)
    ensures o.tag != e.tag
  {
    CollectMembers(AsOutbound, placed, o);
    CollectMembers(AsEndpoint, placed, e);
    var p :| p in placed && AsOutbound(p) == Some(o);
    var q :| q in placed && AsEndpoint(q) == Some(e);
    var m :| 0 <= m < |placed| && placed[m] == p;
    var n :| 0 <= n < |placed| && placed[n] == q;
    assert m != n && TagOf(placed[m]) != TagOf(placed[n]);
  }

  /** Tags of outbounds and endpoints together never repeat. */
  lemma EverythingDistinct(resolved: map<string, seq<string>>, placed: seq<Placement>)
    requires DistinctKeys(placed, TagOf)
    ensures DistinctKeys(Everything(resolved, placed), OutboundTag)
  {
    var wired, endpoints := Wired(resolved, OutboundsOf(placed)), EndpointsOf(placed);
    CollectKeepsKeys(AsOutbound, placed, TagOf, OutboundTag);
    CollectKeepsKeys(AsEndpoint, placed, TagOf, OutboundTag);
    assert forall k :: 0 <= k < |wired| ==> wired[k].tag == OutboundTag(OutboundsOf(placed)[k]);
    forall i, j | 0 <= i < |wired| && 0 <= j < |endpoints|
      ensures wired[i].tag != endpoints[j].tag
    {
      OneListEach(placed, OutboundsOf(placed)[i], endpoints[j]);
    }
    assert DistinctKeys(wired, OutboundTag);
    AppendKeys(wired, endpoints, OutboundTag);
  }

  lemma AppendKeys<T, K>(a: seq<T>, b: seq<T>, key: T -> K)
    requires DistinctKeys(a, key) && DistinctKeys(b, key)
    requires forall i, j :: 0 <= i < |a| && 0 <= j < |b| ==> key(a[i]) != key(b[j])
    ensures DistinctKeys(a + b, key)
  {
  }
}
