// The planning loops of internal/app/connection.go.

module Planning {
  import opened Wrappers
  import opened Sequences
  import opened Text
  import opened RankSpec
  import opened PlanSpec
  import Ranking

  /** The servers of a source, and those of them worth trying. */
  method Gather(servers: seq<Server>, c: Choice, domain: string) returns (siblings: seq<Server>, eligible: seq<Server>)
    ensures siblings == Siblings(servers, domain) && eligible == Eligible(servers, c, domain)
  {
    siblings, eligible := [], [];
    for i := 0 to |servers|
      invariant siblings == Siblings(servers[..i], domain) && eligible == Eligible(servers[..i], c, domain)
    {
      assert servers[..i + 1][..i] == servers[..i];
      var s := servers[i];
      if SourceName(s.source) != domain { continue; }
      siblings := siblings + [s];
      if !Hop(c, s.id) && s.runs {
        eligible := eligible + [s];
      }
    }
    assert servers[..|servers|] == servers;
  }

  /** One server first, its siblings behind it. */
  method Line(selected: string, candidates: seq<Server>) returns (order: seq<string>)
    ensures order == Behind(selected, Ids(candidates))
  {
    var ids := Ids(candidates);
    order := [selected];
    for i := 0 to |candidates|
      invariant order == Behind(selected, ids[..i])
    {
      assert ids[..i + 1] == ids[..i] + [candidates[i].id];
      KeepMore(id => id != selected, ids[..i], candidates[i].id);
      if candidates[i].id != selected {
        order := order + [candidates[i].id];
      }
    }
    assert ids[..|candidates|] == ids;
  }

  method PlanConnection(servers: seq<Server>, c: Choice, ask: Ask, m: Measures) returns (plan: Option<Plan>)
    ensures plan == PlanFor(servers, c, ask, m)
  {
    var domain := SourceName(ask.source);
    var siblings, eligible := Gather(servers, c, domain);
    if siblings == [] { return None; }
    CandidatesThere(servers, c, domain);
    var candidates := if eligible == [] then siblings else eligible;
    if Ranks(c, ask) {
      var order := Ranking.RankByLatency(Ids(candidates), m.received, m.failing);
      NotEmptied(order, Ids(candidates));
      return Some(if c.fallback then Plan(order, true) else Plan(order[..1], false));
    }
    var selected := Pinned(c, ask);
    if selected == "" { selected := candidates[0].id; }
    if ask.mode == Manual && domain != LOCAL && !Forced(c, ask) && c.fallback {
      var order := Line(selected, candidates);
      return Some(Plan(order, true));
    }
    plan := Some(Plan([selected], false));
  }
}
