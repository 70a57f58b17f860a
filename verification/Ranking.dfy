// The ranking and connecting loops of internal/app/connection.go and
// internal/app/insights.go.

module Ranking {
  import opened Wrappers
  import opened Sequences
  import opened RankSpec

  /** selectTargets: those to measure, and those whose link names no server, in order. */
  method SelectTargets(profiles: seq<Profile>, domain: string, ids: seq<string>)
    returns (targets: seq<Profile>, failed: seq<Profile>)
    ensures var source, chosen := if domain == "" then "local" else domain, if ids == [] then None else Some(set id | id in ids);
      targets == Targets(profiles, source, chosen) && failed == Unparsed(profiles, source, chosen)
  {
    var source := if domain == "" then "local" else domain;
    var chosen := if ids == [] then None else Some(set id | id in ids);
    targets, failed := [], [];
    for i := 0 to |profiles|
      invariant targets == Targets(profiles[..i], source, chosen) && failed == Unparsed(profiles[..i], source, chosen)
    {
      assert profiles[..i + 1][..i] == profiles[..i];
      var p := profiles[i];
      if p.source != source || (chosen.Some? && p.id !in chosen.value) { continue; }
      if p.target.None? {
        failed := failed + [p];
      } else {
        targets := targets + [p];
      }
    }
    assert profiles[..|profiles|] == profiles;
  }

  /** demoteFailing: two lists filled in one pass. */
  method DemoteFailing(order: seq<string>, failing: string -> bool) returns (result: seq<string>)
    ensures result == Demoted(failing, order)
  {
    var healthy, rest := [], [];
    for i := 0 to |order|
      invariant healthy == Keep(id => !failing(id), order[..i]) && rest == Keep(failing, order[..i])
    {
      KeepStep(failing, order, i);
      KeepStep(id => !failing(id), order, i);
      if failing(order[i]) {
        rest := rest + [order[i]];
      } else {
        healthy := healthy + [order[i]];
      }
    }
    assert order[..|order|] == order;
    return healthy + rest;
  }

  lemma KeepStep(p: string -> bool, order: seq<string>, i: nat)
    requires i < |order|
    ensures Keep(p, order[..i + 1]) == if p(order[i]) then Keep(p, order[..i]) + [order[i]] else Keep(p, order[..i])
  {
    KeepMore(p, order[..i], order[i]);
    assert order[..i + 1] == order[..i] + [order[i]];
  }

  /** What came in before the deadline. */
  method TakeResults(received: seq<Measured>) returns (known: Known)
    ensures known == Learned(received)
  {
    var tcp: map<string, nat>, icmp: map<string, nat> := map[], map[];
    for i := 0 to |received|
      invariant Known(tcp, icmp) == Learned(received[..i])
    {
      assert received[..i + 1][..i] == received[..i];
      if received[i].ms.Some? {
        if received[i].icmp {
          icmp := icmp[received[i].id := received[i].ms.value];
        } else {
          tcp := tcp[received[i].id := received[i].ms.value];
        }
      }
    }
    assert received[..|received|] == received;
    return Known(tcp, icmp);
  }

  method RankByLatency(candidates: seq<string>, received: seq<Measured>, failing: string -> bool) returns (order: seq<string>)
    ensures order == Ranked(candidates, received, failing)
    ensures multiset(order) == multiset(candidates)
  {
    if |candidates| < 2 { return candidates; }
    RankingIsFair(candidates, received, failing);
    var known := TakeResults(received);
    order := DemoteFailing(StableSort(id => RankOf(known, id), candidates), failing);
  }

  /** The loop in connect: servers in plan order until one starts. */
  method Connect(order: seq<string>, known: string -> bool, attempt: nat -> Attempt, resilient: bool)
    returns (outcome: Outcome, tried: seq<nat>)
    ensures outcome == TryFrom(order, known, attempt, resilient, 0)
    ensures forall j <- tried :: j < |order| && known(order[j])
    ensures outcome.Connected? ==> tried != [] && tried[|tried| - 1] == outcome.at
  {
    tried := [];
    for i := 0 to |order|
      invariant TryFrom(order, known, attempt, resilient, 0) == TryFrom(order, known, attempt, resilient, i)
      invariant forall j <- tried :: j < |order| && known(order[j])
    {
      if known(order[i]) {
        tried := tried + [i];
        match attempt(i) {
          case Started => return Connected(i), tried;
          case LocalFailure => return Failed(i), tried;
          case Refused =>
            if !resilient { return Failed(i), tried; }
        }
      }
    }
    return NoneWorked, tried;
  }
}
