// Which server to try next (internal/app/connection.go, internal/app/insights.go,
// internal/probe/probe.go): ranked by what the probes measured, failing ones last.

module RankSpec {
  import opened Wrappers
  import opened Sequences

  // -------------------------------------------------------------- stable sorting

  /** How a server did: 0 completed a handshake, 1 only answered ping, 2 neither. */
  datatype Rank = Rank(tier: nat, ms: nat)

  predicate Before(a: Rank, b: Rank) { a.tier < b.tier || (a.tier == b.tier && a.ms < b.ms) }

  function Insert(rank: string -> Rank, sorted: seq<string>, id: string): (r: seq<string>)
    ensures |r| == |sorted| + 1
  {
    if sorted == [] || !Before(rank(id), rank(sorted[|sorted| - 1])) then sorted + [id]
    else Insert(rank, sorted[..|sorted| - 1], id) + [sorted[|sorted| - 1]]
  }

  /** sort.SliceStable. */
  function StableSort(rank: string -> Rank, order: seq<string>): (r: seq<string>)
    ensures |r| == |order|
  {
    if order == [] then [] else Insert(rank, StableSort(rank, order[..|order| - 1]), order[|order| - 1])
  }

  predicate InOrder(rank: string -> Rank, order: seq<string>) {
    forall i, j :: 0 <= i < j < |order| ==> !Before(rank(order[j]), rank(order[i]))
  }

  function Keep(p: string -> bool, order: seq<string>): seq<string> {
    Collect(id => if p(id) then Some(id) else None, order)
  }

  lemma KeepMore(p: string -> bool, order: seq<string>, id: string)
    ensures Keep(p, order + [id]) == if p(id) then Keep(p, order) + [id] else Keep(p, order)
  {
    assert (order + [id])[..|order|] == order;
  }

  lemma {:induction false} InsertInOrder(rank: string -> Rank, sorted: seq<string>, id: string)
    requires InOrder(rank, sorted)
    ensures InOrder(rank, Insert(rank, sorted, id))
    ensures forall x <- Insert(rank, sorted, id) :: x in sorted || x == id
  {
    if sorted != [] && Before(rank(id), rank(sorted[|sorted| - 1])) {
      var init, last := sorted[..|sorted| - 1], sorted[|sorted| - 1];
      InsertInOrder(rank, init, id);
      LastInOrder(rank, Insert(rank, init, id), last);
    }
  }

  lemma LastInOrder(rank: string -> Rank, sorted: seq<string>, last: string)
    requires InOrder(rank, sorted) && forall x <- sorted :: !Before(rank(last), rank(x))
    ensures InOrder(rank, sorted + [last])
  {
  }

  /** Ids the predicate picks out go where the new one goes: behind their equals. */
  lemma {:induction false} InsertStable(rank: string -> Rank, sorted: seq<string>, id: string, at: Rank)
    requires InOrder(rank, sorted)
    ensures var same := x => rank(x) == at;
      Keep(same, Insert(rank, sorted, id)) == if rank(id) == at then Keep(same, sorted) + [id] else Keep(same, sorted)
  {
    var same := x => rank(x) == at;
    if sorted == [] || !Before(rank(id), rank(sorted[|sorted| - 1])) {
      KeepMore(same, sorted, id);
    } else {
      var init, last := sorted[..|sorted| - 1], sorted[|sorted| - 1];
      InsertStable(rank, init, id, at);
      KeepMore(same, Insert(rank, init, id), last);
      KeepMore(same, init, last);
      Unsnoc(sorted);
    }
  }

  /** The sort orders by rank and keeps those of equal rank as they were. */
  lemma {:induction false} SortsStably(rank: string -> Rank, order: seq<string>, at: Rank)
    ensures InOrder(rank, StableSort(rank, order))
    ensures Keep(x => rank(x) == at, StableSort(rank, order)) == Keep(x => rank(x) == at, order)
  {
    if order != [] {
      var init, last := order[..|order| - 1], order[|order| - 1];
      SortsStably(rank, init, at);
      InsertInOrder(rank, StableSort(rank, init), last);
      InsertStable(rank, StableSort(rank, init), last, at);
      KeepMore(x => rank(x) == at, init, last);
      Unsnoc(order);
    }
  }

  lemma MultisetMore(s: seq<string>, id: string)
    ensures multiset(s + [id]) == multiset(s) + multiset{id}
  {
  }

  lemma {:induction false} InsertPermutes(rank: string -> Rank, sorted: seq<string>, id: string)
    ensures multiset(Insert(rank, sorted, id)) == multiset(sorted) + multiset{id}
  {
    if sorted == [] || !Before(rank(id), rank(sorted[|sorted| - 1])) {
      MultisetMore(sorted, id);
    } else {
      var init, last := sorted[..|sorted| - 1], sorted[|sorted| - 1];
      InsertPermutes(rank, init, id);
      MultisetMore(Insert(rank, init, id), last);
      MultisetMore(init, last);
      Unsnoc(sorted);
    }
  }

  lemma {:induction false} SortPermutes(rank: string -> Rank, order: seq<string>)
    ensures multiset(StableSort(rank, order)) == multiset(order)
  {
    if order != [] {
      var init, last := order[..|order| - 1], order[|order| - 1];
      SortPermutes(rank, init);
      InsertPermutes(rank, StableSort(rank, init), last);
      MultisetMore(init, last);
      Unsnoc(order);
    }
  }

  // --------------------------------------------------------------- measurements

  datatype Measured = Measured(id: string, icmp: bool, ms: Option<nat>)

  datatype Known = Known(tcp: map<string, nat>, icmp: map<string, nat>)

  function Noted(known: Known, m: Measured): Known {
    match m.ms
    case None => known
    case Some(ms) => if m.icmp then known.(icmp := known.icmp[m.id := ms]) else known.(tcp := known.tcp[m.id := ms])
  }

  function Learned(received: seq<Measured>): Known {
    if received == [] then Known(map[], map[])
    else Noted(Learned(received[..|received| - 1]), received[|received| - 1])
  }

  function RankOf(known: Known, id: string): Rank {
    if id in known.tcp then Rank(0, known.tcp[id])
    else if id in known.icmp then Rank(1, known.icmp[id])
    else Rank(2, 0)
  }

  /** Failing servers behind the rest, the order otherwise kept. */
  function Demoted(failing: string -> bool, order: seq<string>): seq<string> {
    Keep(id => !failing(id), order) + Keep(failing, order)
  }

  /** The automatic order; `failing` is nobody when histories are off. */
  function Ranked(candidates: seq<string>, received: seq<Measured>, failing: string -> bool): seq<string> {
    if |candidates| < 2 then candidates
    else Demoted(failing, StableSort(id => RankOf(Learned(received), id), candidates))
  }

  lemma {:induction false} KeepPermutes(p: string -> bool, order: seq<string>)
    ensures multiset(Keep(x => !p(x), order)) + multiset(Keep(p, order)) == multiset(order)
  {
    if order != [] {
      var init, last := order[..|order| - 1], order[|order| - 1];
      KeepPermutes(p, init);
      KeepMore(p, init, last);
      KeepMore(x => !p(x), init, last);
      MultisetMore(init, last);
      MultisetMore(Keep(p, init), last);
      MultisetMore(Keep(x => !p(x), init), last);
      Unsnoc(order);
    }
  }

  lemma {:induction false} KeepInOrder(rank: string -> Rank, p: string -> bool, order: seq<string>)
    requires InOrder(rank, order)
    ensures InOrder(rank, Keep(p, order))
    ensures forall id <- Keep(p, order) :: p(id) && id in order
  {
    if order != [] {
      var init, last := order[..|order| - 1], order[|order| - 1];
      KeepInOrder(rank, p, init);
      if p(last) {
        LastInOrder(rank, Keep(p, init), last);
      }
    }
  }

  lemma {:induction false} KeepTwice(p: string -> bool, q: string -> bool, order: seq<string>)
    ensures Keep(p, Keep(q, order)) == Keep(x => p(x) && q(x), order)
  {
    if order != [] {
      var init, last := order[..|order| - 1], order[|order| - 1];
      KeepTwice(p, q, init);
      KeepMore(q, init, last);
      KeepMore(x => p(x) && q(x), init, last);
      Unsnoc(order);
      if q(last) {
        KeepMore(p, Keep(q, init), last);
      }
    }
  }

  lemma MultisetSum(a: seq<string>, b: seq<string>)
    ensures multiset(a + b) == multiset(a) + multiset(b)
  {
  }

  /** A list of servers sorted by what was measured. */
  ghost predicate SortedPart(rank: string -> Rank, part: seq<string>, failing: string -> bool, fails: bool) {
    InOrder(rank, part) && forall id <- part :: failing(id) == fails
  }

  /**
   * Whatever the probes answer before the deadline, the automatic order is every
   * candidate once, failing ones last, each part sorted by what was measured.
   */
  lemma RankingIsFair(candidates: seq<string>, received: seq<Measured>, failing: string -> bool)
    requires |candidates| >= 2
    ensures multiset(Ranked(candidates, received, failing)) == multiset(candidates)
    ensures var rank := id => RankOf(Learned(received), id);
      exists healthy, rest :: Ranked(candidates, received, failing) == healthy + rest
        && SortedPart(rank, healthy, failing, false) && SortedPart(rank, rest, failing, true)
  {
    var rank := id => RankOf(Learned(received), id);
    var sorted := StableSort(rank, candidates);
    SortsStably(rank, candidates, Rank(0, 0));
    SortPermutes(rank, candidates);
    KeepPermutes(failing, sorted);
    KeepInOrder(rank, failing, sorted);
    KeepInOrder(rank, x => !failing(x), sorted);
    MultisetSum(Keep(x => !failing(x), sorted), Keep(failing, sorted));
    assert SortedPart(rank, Keep(x => !failing(x), sorted), failing, false);
    assert SortedPart(rank, Keep(failing, sorted), failing, true);
  }

  lemma {:induction false} KeepAgrees(p: string -> bool, q: string -> bool, order: seq<string>)
    requires forall id <- order :: p(id) == q(id)
    ensures Keep(p, order) == Keep(q, order)
  {
    if order != [] {
      assert order[|order| - 1] in order && forall id <- order[..|order| - 1] :: id in order;
      KeepAgrees(p, q, order[..|order| - 1]);
    }
  }

  /** Among servers that did equally well, and fail or not alike, the candidates' own order stands. */
  lemma EqualsKeepTheirOrder(candidates: seq<string>, received: seq<Measured>, failing: string -> bool, at: Rank)
    ensures var rank := id => RankOf(Learned(received), id);
      var sorted := StableSort(rank, candidates);
      Keep(x => rank(x) == at, Keep(failing, sorted)) == Keep(failing, Keep(x => rank(x) == at, candidates))
  {
    var rank := id => RankOf(Learned(received), id);
    var same := (x: string) => rank(x) == at;
    var sorted := StableSort(rank, candidates);
    SortsStably(rank, candidates, at);
    KeepTwice(same, failing, sorted);
    KeepTwice(failing, same, sorted);
    KeepAgrees(x => same(x) && failing(x), x => failing(x) && same(x), sorted);
  }

  // ------------------------------------------------------------------- probing

  /** target is the port a profile's link gives; None when the link names no server. */
  datatype Profile = Profile(id: string, source: string, target: Option<int>)

  predicate InScope(domain: string, ids: Option<set<string>>, p: Profile) {
    p.source == domain && (ids.Some? ==> p.id in ids.value)
  }

  /** selectTargets: those to measure, and those reported as failed at once. */
  function Targets(profiles: seq<Profile>, domain: string, ids: Option<set<string>>): seq<Profile> {
    Collect(p => if InScope(domain, ids, p) && p.target.Some? then Some(p) else None, profiles)
  }

  function Unparsed(profiles: seq<Profile>, domain: string, ids: Option<set<string>>): seq<Profile> {
    Collect(p => if InScope(domain, ids, p) && p.target.None? then Some(p) else None, profiles)
  }

  /** How many results a probe of these reports: one each. */
  function Reports(profiles: seq<Profile>, domain: string, ids: Option<set<string>>): nat {
    |Targets(profiles, domain, ids)| + |Unparsed(profiles, domain, ids)|
  }

  lemma {:induction false} OneReportEach(profiles: seq<Profile>, domain: string, ids: Option<set<string>>)
    ensures Reports(profiles, domain, ids) <= |profiles|
    ensures (forall p <- profiles :: InScope(domain, ids, p)) ==> Reports(profiles, domain, ids) == |profiles|
  {
    if profiles != [] {
      var init := profiles[..|profiles| - 1];
      assert profiles[|profiles| - 1] in profiles && forall p <- init :: p in profiles;
      OneReportEach(init, domain, ids);
    }
  }

  function Capacity(candidates: nat): nat { 2 * candidates + 4 }

  /** Both probes together never fill the result channel, so none blocks after the deadline. */
  lemma ResultsAlwaysFit(candidates: seq<Profile>, domain: string, ids: set<string>)
    ensures Reports(candidates, domain, None) + Reports(candidates, domain, Some(ids)) < Capacity(|candidates|)
  {
    OneReportEach(candidates, domain, None);
    OneReportEach(candidates, domain, Some(ids));
  }

  // ---------------------------------------------------------------- connecting

  datatype Attempt = Started | Refused | LocalFailure

  datatype Outcome = Connected(at: nat) | Failed(at: nat) | NoneWorked

  /** From position i on: the first known server that starts, unless something ends the search first. */
  function TryFrom(order: seq<string>, known: string -> bool, attempt: nat -> Attempt, resilient: bool, i: nat): Outcome
    requires i <= |order|
    decreases |order| - i
  {
    if i == |order| then NoneWorked
    else if !known(order[i]) then TryFrom(order, known, attempt, resilient, i + 1)
    else match attempt(i)
      case Started => Connected(i)
      case LocalFailure => Failed(i)
      case Refused => if resilient then TryFrom(order, known, attempt, resilient, i + 1) else Failed(i)
  }

  /** A server that was tried and passed over. */
  predicate PassedOver(order: seq<string>, known: string -> bool, attempt: nat -> Attempt, resilient: bool, j: nat)
    requires j < |order|
  {
    known(order[j]) ==> resilient && attempt(j).Refused?
  }

  lemma {:induction false} TriesInOrder(order: seq<string>, known: string -> bool, attempt: nat -> Attempt, resilient: bool, i: nat)
    requires i <= |order|
    ensures match TryFrom(order, known, attempt, resilient, i)
      case Connected(k) => i <= k < |order| && known(order[k]) && attempt(k).Started?
        && forall j: nat :: i <= j < k ==> PassedOver(order, known, attempt, resilient, j)
      case Failed(k) => i <= k < |order| && known(order[k]) && (attempt(k).LocalFailure? || (attempt(k).Refused? && !resilient))
        && forall j: nat :: i <= j < k ==> PassedOver(order, known, attempt, resilient, j)
      case NoneWorked => forall j: nat :: i <= j < |order| ==> PassedOver(order, known, attempt, resilient, j)
    decreases |order| - i
  {
    if i < |order| && PassedOver(order, known, attempt, resilient, i) {
      TriesInOrder(order, known, attempt, resilient, i + 1);
    }
  }

  // ------------------------------------------------------------ alternatives

  const FASTEST := 8

  /** The first known servers of the plan, at most so many. */
  function FirstKnown(order: seq<string>, known: string -> bool, room: nat): seq<string> {
    if order == [] || room == 0 then []
    else if known(order[0]) then [order[0]] + FirstKnown(order[1..], known, room - 1)
    else FirstKnown(order[1..], known, room)
  }

  function AlternativesFor(order: seq<string>, known: string -> bool, fastest: bool, auto: bool): seq<string> {
    if !fastest || !auto || |order| < 2 then []
    else
      var found := FirstKnown(order, known, FASTEST);
      if |found| < 2 then [] else found
  }

  lemma Grouped<T>(a: seq<T>, b: seq<T>, c: seq<T>)
    ensures a + b + c == a + (b + c)
  {
  }

  lemma {:induction false} HeadKept(p: string -> bool, order: seq<string>)
    requires order != []
    ensures Keep(p, order) == (if p(order[0]) then [order[0]] else []) + Keep(p, order[1..])
    decreases |order|
  {
    var head := if p(order[0]) then [order[0]] else [];
    if |order| == 1 {
      CollectOne((x: string) => if p(x) then Some(x) else None, order[0]);
      assert order == [order[0]] && order[1..] == [];
    } else {
      var init, last := order[..|order| - 1], order[|order| - 1];
      HeadKept(p, init);
      assert init + [last] == order && init[1..] + [last] == order[1..];
      KeepMore(p, init, last);
      KeepMore(p, init[1..], last);
      Grouped(head, Keep(p, init[1..]), [last]);
    }
  }

  /** The alternatives are the best-ranked known servers, in plan order, and never just one. */
  lemma {:induction false} FirstKnownIsPrefix(order: seq<string>, known: string -> bool, room: nat)
    ensures |FirstKnown(order, known, room)| <= room
    ensures FirstKnown(order, known, room) <= Keep(known, order)
    ensures |FirstKnown(order, known, room)| < room ==> FirstKnown(order, known, room) == Keep(known, order)
  {
    if order != [] && room > 0 {
      HeadKept(known, order);
      FirstKnownIsPrefix(order[1..], known, if known(order[0]) then room - 1 else room);
    }
  }

  lemma AlternativesAreTheBest(order: seq<string>, known: string -> bool, fastest: bool, auto: bool)
    ensures var found := AlternativesFor(order, known, fastest, auto);
      && found <= Keep(known, order) && |found| <= FASTEST && |found| != 1
      && (fastest && auto && |order| >= 2 && |Keep(known, order)| >= 2 ==>
            |found| == if |Keep(known, order)| < FASTEST then |Keep(known, order)| else FASTEST)
  {
    FirstKnownIsPrefix(order, known, FASTEST);
  }
}
