// Which servers a connect tries, and in what order (internal/app/connection.go,
// planConnection), put together with the ranking before it and the loop after it.

module PlanSpec {
  import opened Wrappers
  import opened Sequences
  import opened Text
  import opened RankSpec

  /** A profile, and whether the chosen core can run it. */
  datatype Server = Server(id: string, source: string, runs: bool)

  datatype Choice = Choice(chainEnabled: bool, chain: seq<string>, fallback: bool)

  datatype Mode = Auto | Manual | OtherMode(name: string)

  datatype Ask = Ask(source: string, mode: Mode, profile: string)

  /** What the ranking has to go on: the answers in time, and whose history is bad. */
  datatype Measures = Measures(received: seq<Measured>, failing: string -> bool)

  datatype Plan = Plan(order: seq<string>, resilient: bool)

  const LOCAL := "local"

  function SourceName(text: string): string {
    if Trim(text) == "" then LOCAL else Trim(text)
  }

  predicate ChainActive(c: Choice) { c.chainEnabled && c.chain != [] }

  /** A hop of the chain in use. */
  predicate Hop(c: Choice, id: string) { ChainActive(c) && id in c.chain }

  function Siblings(servers: seq<Server>, domain: string): seq<Server> {
    Collect((s: Server) => if SourceName(s.source) == domain then Some(s) else None, servers)
  }

  function Eligible(servers: seq<Server>, c: Choice, domain: string): seq<Server> {
    Collect((s: Server) => if SourceName(s.source) == domain && !Hop(c, s.id) && s.runs then Some(s) else None, servers)
  }

  function Candidates(servers: seq<Server>, c: Choice, domain: string): seq<Server> {
    if Eligible(servers, c, domain) == [] then Siblings(servers, domain) else Eligible(servers, c, domain)
  }

  function IdOf(s: Server): string { s.id }

  function Ids(servers: seq<Server>): seq<string> { Map(IdOf, servers) }

  /** The server asked for, unless it is already a hop. */
  function Pinned(c: Choice, ask: Ask): string {
    if Hop(c, Trim(ask.profile)) then "" else Trim(ask.profile)
  }

  predicate Forced(c: Choice, ask: Ask) { ChainActive(c) && Pinned(c, ask) != "" }

  predicate Ranks(c: Choice, ask: Ask) { ask.mode == Auto && !Forced(c, ask) }

  /** One server first, the other candidates behind it. */
  function Behind(first: string, ids: seq<string>): seq<string> {
    [first] + Keep(id => id != first, ids)
  }

  function PlanAmong(candidates: seq<Server>, c: Choice, ask: Ask, m: Measures): Plan
    requires candidates != []
  {
    var ids := Ids(candidates);
    if Ranks(c, ask) then
      var order := Ranked(ids, m.received, m.failing);
      if c.fallback then Plan(order, true) else Plan(if order == [] then [] else order[..1], false)
    else
      var selected := if Pinned(c, ask) == "" then ids[0] else Pinned(c, ask);
      if ask.mode == Manual && SourceName(ask.source) != LOCAL && !Forced(c, ask) && c.fallback
      then Plan(Behind(selected, ids), true)
      else Plan([selected], false)
  }

  /** None when the source has no servers. */
  function PlanFor(servers: seq<Server>, c: Choice, ask: Ask, m: Measures): Option<Plan> {
    var domain := SourceName(ask.source);
    if Siblings(servers, domain) == [] then None
    else Some(PlanAmong(Candidates(servers, c, domain), c, ask, m))
  }

  // ------------------------------------------------------------------- the order

  lemma {:induction false} SiblingIds(servers: seq<Server>, c: Choice, domain: string, s: Server)
    ensures s in Siblings(servers, domain) <==> s in servers && SourceName(s.source) == domain
    ensures s in Eligible(servers, c, domain) <==> s in Siblings(servers, domain) && !Hop(c, s.id) && s.runs
  {
    CollectMembers((x: Server) => if SourceName(x.source) == domain then Some(x) else None, servers, s);
    CollectMembers(
      (x: Server) => if SourceName(x.source) == domain && !Hop(c, x.id) && x.runs then Some(x) else None, servers, s);
  }

  lemma CandidatesThere(servers: seq<Server>, c: Choice, domain: string)
    ensures Candidates(servers, c, domain) == [] <==> Siblings(servers, domain) == []
    ensures forall s <- Candidates(servers, c, domain) :: s in Siblings(servers, domain)
  {
    forall s <- Candidates(servers, c, domain)
      ensures s in Siblings(servers, domain)
    {
      SiblingIds(servers, c, domain, s);
    }
    if Eligible(servers, c, domain) != [] {
      SiblingIds(servers, c, domain, Eligible(servers, c, domain)[0]);
      assert Siblings(servers, domain) != [];
    }
  }

  lemma SameMembers(a: seq<string>, b: seq<string>, id: string)
    requires multiset(a) == multiset(b)
    ensures id in a <==> id in b
  {
    assert id in multiset(a) <==> id in multiset(b);
  }

  /** The automatic order, any number of candidates. */
  lemma RankedPermutes(ids: seq<string>, m: Measures)
    ensures multiset(Ranked(ids, m.received, m.failing)) == multiset(ids)
  {
    if |ids| >= 2 {
      RankingIsFair(ids, m.received, m.failing);
    }
  }

  lemma NotEmptied(a: seq<string>, b: seq<string>)
    requires multiset(a) == multiset(b)
    ensures |a| == |b|
  {
    assert |multiset(a)| == |multiset(b)|;
  }

  lemma KeptMembers(p: string -> bool, order: seq<string>, id: string)
    ensures id in Keep(p, order) <==> id in order && p(id)
  {
    CollectMembers((x: string) => if p(x) then Some(x) else None, order, id);
  }

  lemma BehindMembers(first: string, ids: seq<string>, id: string)
    ensures id in Behind(first, ids) <==> id == first || id in ids
  {
    KeptMembers(x => x != first, ids, id);
  }

  /**
   * There is a plan exactly when the source has servers. A plan that skips
   * failing servers reaches every candidate, and nothing but them and the
   * server asked for; any other plan is one server only.
   */
  lemma PlanReaches(servers: seq<Server>, c: Choice, ask: Ask, m: Measures)
    ensures PlanFor(servers, c, ask, m).None? <==> forall s <- servers :: SourceName(s.source) != SourceName(ask.source)
    ensures PlanFor(servers, c, ask, m).Some? ==>
      var plan, ids := PlanFor(servers, c, ask, m).value, Ids(Candidates(servers, c, SourceName(ask.source)));
      && plan.order != [] && (!plan.resilient ==> |plan.order| == 1)
      && (forall id <- plan.order :: id in ids || (id == Pinned(c, ask) && id != ""))
      && (plan.resilient ==> forall id <- ids :: id in plan.order)
      && (!Ranks(c, ask) && Pinned(c, ask) != "" ==> plan.order[0] == Pinned(c, ask))
  {
    var domain := SourceName(ask.source);
    var candidates := Candidates(servers, c, domain);
    CandidatesThere(servers, c, domain);
    SourceHasServers(servers, c, domain);
    if candidates != [] {
      AmongReaches(candidates, c, ask, m);
    }
  }

  lemma SourceHasServers(servers: seq<Server>, c: Choice, domain: string)
    ensures Siblings(servers, domain) == [] <==> forall s <- servers :: SourceName(s.source) != domain
  {
    forall s <- servers
      ensures s in Siblings(servers, domain) <==> SourceName(s.source) == domain
    {
      SiblingIds(servers, c, domain, s);
    }
    if Siblings(servers, domain) != [] {
      SiblingIds(servers, c, domain, Siblings(servers, domain)[0]);
    }
  }

  lemma AmongReaches(candidates: seq<Server>, c: Choice, ask: Ask, m: Measures)
    requires candidates != []
    ensures var plan, ids := PlanAmong(candidates, c, ask, m), Ids(candidates);
      && plan.order != [] && (!plan.resilient ==> |plan.order| == 1)
      && (forall id <- plan.order :: id in ids || (id == Pinned(c, ask) && id != ""))
      && (plan.resilient ==> forall id <- ids :: id in plan.order)
      && (!Ranks(c, ask) && Pinned(c, ask) != "" ==> plan.order[0] == Pinned(c, ask))
  {
    var ids := Ids(candidates);
    if Ranks(c, ask) {
      var order := Ranked(ids, m.received, m.failing);
      RankedPermutes(ids, m);
      NotEmptied(order, ids);
      forall id ensures id in order <==> id in ids { SameMembers(order, ids, id); }
      assert order[..1] == [order[0]];
    } else {
      var selected := if Pinned(c, ask) == "" then ids[0] else Pinned(c, ask);
      forall id ensures id in Behind(selected, ids) <==> id == selected || id in ids { BehindMembers(selected, ids, id); }
    }
  }

  /**
   * A server that is a hop of the chain becomes the exit only when the source
   * has no other server that runs; a plan over all candidates then has one
   * exactly when some server of the source is a hop.
   */
  lemma ExitIsNoHop(servers: seq<Server>, c: Choice, ask: Ask, m: Measures)
    requires PlanFor(servers, c, ask, m).Some?
    ensures var plan, domain := PlanFor(servers, c, ask, m).value, SourceName(ask.source);
      var hopPlanned := exists id <- plan.order :: Hop(c, id);
      && (hopPlanned ==> Eligible(servers, c, domain) == [])
      && (plan.resilient ==>
            (hopPlanned <==> Eligible(servers, c, domain) == [] && exists s <- Siblings(servers, domain) :: Hop(c, s.id)))
  {
    PlanReaches(servers, c, ask, m);
    PlannedHops(servers, c, ask, PlanFor(servers, c, ask, m).value);
  }

  /**
   * It happens: a source whose only server is the chain's own hop. The plan is
   * for that server to be the exit behind itself.
   */
  lemma HopBecomesExit(m: Measures)
    ensures var servers, c := [Server("a", "", true)], Choice(true, ["a"], true);
      && Hop(c, "a")
      && PlanFor(servers, c, Ask("", Auto, ""), m) == Some(Plan(["a"], true))
      && PlanFor(servers, c, Ask("", Manual, "a"), m) == Some(Plan(["a"], false))
  {
    var s, c := Server("a", "", true), Choice(true, ["a"], true);
    TrimFixes("");
    TrimFixes("a");
    OnlyHopIsCandidate(s, c);
    assert Ids([s]) == ["a"];
    assert Ranked(["a"], m.received, m.failing) == ["a"];
  }

  lemma OnlyHopIsCandidate(s: Server, c: Choice)
    requires SourceName(s.source) == LOCAL && Hop(c, s.id)
    ensures Siblings([s], LOCAL) == [s] && Candidates([s], c, LOCAL) == [s]
  {
    CollectOne((x: Server) => if SourceName(x.source) == LOCAL then Some(x) else None, s);
    CollectOne((x: Server) => if SourceName(x.source) == LOCAL && !Hop(c, x.id) && x.runs then Some(x) else None, s);
  }

  lemma PlannedHops(servers: seq<Server>, c: Choice, ask: Ask, plan: Plan)
    requires forall id <- plan.order ::
      id in Ids(Candidates(servers, c, SourceName(ask.source))) || (id == Pinned(c, ask) && id != "")
    requires plan.resilient ==> forall id <- Ids(Candidates(servers, c, SourceName(ask.source))) :: id in plan.order
    ensures (exists id <- plan.order :: Hop(c, id)) ==>
      Eligible(servers, c, SourceName(ask.source)) == [] && exists s <- Siblings(servers, SourceName(ask.source)) :: Hop(c, s.id)
    ensures (plan.resilient && Eligible(servers, c, SourceName(ask.source)) == []
      && exists s <- Siblings(servers, SourceName(ask.source)) :: Hop(c, s.id)) ==> (exists id <- plan.order :: Hop(c, id))
  {
    if id :| id in plan.order && Hop(c, id) {
      HopAmongCandidates(servers, c, ask, id);
    }
    if s :| s in Siblings(servers, SourceName(ask.source)) && Hop(c, s.id) {
      HopSibling(servers, c, SourceName(ask.source), s);
    }
  }

  lemma HopAmongCandidates(servers: seq<Server>, c: Choice, ask: Ask, id: string)
    requires Hop(c, id)
    requires id in Ids(Candidates(servers, c, SourceName(ask.source))) || (id == Pinned(c, ask) && id != "")
    ensures Eligible(servers, c, SourceName(ask.source)) == []
    ensures exists s <- Siblings(servers, SourceName(ask.source)) :: Hop(c, s.id)
  {
    var candidates := Candidates(servers, c, SourceName(ask.source));
    PinIsNoHop(c, ask);
    MapMembers(IdOf, candidates, id);
    var s :| s in candidates && IdOf(s) == id;
    SiblingIds(servers, c, SourceName(ask.source), s);
  }

  lemma HopSibling(servers: seq<Server>, c: Choice, domain: string, s: Server)
    requires s in Siblings(servers, domain)
    ensures Eligible(servers, c, domain) == [] ==> s.id in Ids(Candidates(servers, c, domain))
  {
    if Eligible(servers, c, domain) == [] {
      MapMembers(IdOf, Siblings(servers, domain), s.id);
      assert IdOf(s) == s.id;
    }
  }

  lemma PinIsNoHop(c: Choice, ask: Ask)
    ensures Hop(c, Pinned(c, ask)) ==> Pinned(c, ask) == "" && Hop(c, Trim(ask.profile))
  {
  }

  // ------------------------------------------------------------------ no repeats

  lemma {:induction false} KeepNoRepeats(p: string -> bool, order: seq<string>)
    requires NoRepeats(order)
    ensures NoRepeats(Keep(p, order))
  {
    if order != [] {
      var init, last := order[..|order| - 1], order[|order| - 1];
      KeepNoRepeats(p, init);
      KeptMembers(p, init, last);
    }
  }

  lemma {:induction false} CollectServers(accept: Server -> Option<Server>, servers: seq<Server>)
    requires NoRepeats(Ids(servers)) && forall s :: accept(s).Some? ==> accept(s) == Some(s)
    ensures NoRepeats(Ids(Collect(accept, servers)))
    ensures forall id <- Ids(Collect(accept, servers)) :: id in Ids(servers)
  {
    if servers != [] {
      var init, last := servers[..|servers| - 1], servers[|servers| - 1];
      assert Ids(servers) == Ids(init) + [last.id];
      InitNoRepeats(Ids(init), last.id);
      CollectServers(accept, init);
      if accept(last).Some? {
        assert Ids(Collect(accept, init) + [last]) == Ids(Collect(accept, init)) + [last.id];
      }
    }
  }

  lemma InitNoRepeats<T>(init: seq<T>, last: T)
    requires NoRepeats(init + [last])
    ensures NoRepeats(init) && last !in init
  {
    forall i, j | 0 <= i < j < |init| ensures init[i] != init[j] {
      assert (init + [last])[i] == init[i] && (init + [last])[j] == init[j];
    }
    forall i | 0 <= i < |init| ensures init[i] != last {
      assert (init + [last])[i] == init[i] && (init + [last])[|init|] == last;
    }
  }

  lemma {:induction false} CountOnce(s: seq<string>)
    ensures NoRepeats(s) <==> forall id :: multiset(s)[id] <= 1
  {
    if s != [] {
      var init, last := s[..|s| - 1], s[|s| - 1];
      Unsnoc(s);
      CountOnce(init);
      MultisetMore(init, last);
      if NoRepeats(s) {
        assert last !in init;
        assert last !in multiset(init);
      }
      if forall id :: multiset(s)[id] <= 1 {
        forall id ensures multiset(init)[id] <= 1 {
          assert multiset(s)[id] <= 1;
        }
        assert multiset(s)[last] <= 1;
        assert last !in multiset(init);
        assert last !in init;
      }
    }
  }

  /** No server is tried twice. */
  lemma NobodyTwice(servers: seq<Server>, c: Choice, ask: Ask, m: Measures)
    requires NoRepeats(Ids(servers)) && PlanFor(servers, c, ask, m).Some?
    ensures NoRepeats(PlanFor(servers, c, ask, m).value.order)
  {
    var domain := SourceName(ask.source);
    var candidates := Candidates(servers, c, domain);
    var ids := Ids(candidates);
    CandidatesThere(servers, c, domain);
    CollectServers((s: Server) => if SourceName(s.source) == domain then Some(s) else None, servers);
    CollectServers(
      (s: Server) => if SourceName(s.source) == domain && !Hop(c, s.id) && s.runs then Some(s) else None, servers);
    if Ranks(c, ask) {
      var order := Ranked(ids, m.received, m.failing);
      RankedPermutes(ids, m);
      CountOnce(ids);
      CountOnce(order);
    } else {
      var selected := if Pinned(c, ask) == "" then ids[0] else Pinned(c, ask);
      var others := Keep(id => id != selected, ids);
      KeepNoRepeats(id => id != selected, ids);
      KeptMembers(id => id != selected, ids, selected);
      FirstNoRepeats(selected, others);
    }
  }

  lemma FirstNoRepeats(first: string, rest: seq<string>)
    requires NoRepeats(rest) && first !in rest
    ensures NoRepeats([first] + rest)
  {
  }

  // -------------------------------------------------------- planned, then tried

  /** What trying the server at a place in the plan comes to, given what trying each server comes to. */
  function AttemptAt(order: seq<string>, attempt: string -> Attempt): nat -> Attempt {
    (i: nat) => if i < |order| then attempt(order[i]) else Refused
  }

  predicate Named(servers: seq<Server>, id: string) { exists s <- servers :: s.id == id }

  function Connecting(servers: seq<Server>, plan: Plan, attempt: string -> Attempt): Outcome {
    TryFrom(plan.order, id => Named(servers, id), AttemptAt(plan.order, attempt), plan.resilient, 0)
  }

  /**
   * A connect that may fall back gives up only when it has to: unless something
   * local is wrong, it connects exactly when the server asked for, or any
   * candidate at all, would start.
   */
  lemma FallbackFindsOne(servers: seq<Server>, c: Choice, ask: Ask, m: Measures, attempt: string -> Attempt)
    requires PlanFor(servers, c, ask, m).Some? && PlanFor(servers, c, ask, m).value.resilient
    requires forall id :: !attempt(id).LocalFailure?
    ensures Connecting(servers, PlanFor(servers, c, ask, m).value, attempt).Connected? <==>
      exists id <- PlanFor(servers, c, ask, m).value.order :: Named(servers, id) && attempt(id).Started?
    ensures (exists s <- Candidates(servers, c, SourceName(ask.source)) :: attempt(s.id).Started?) ==>
      Connecting(servers, PlanFor(servers, c, ask, m).value, attempt).Connected?
  {
    var plan, domain := PlanFor(servers, c, ask, m).value, SourceName(ask.source);
    var candidates := Candidates(servers, c, domain);
    PlanReaches(servers, c, ask, m);
    ConnectsIfAny(servers, plan, attempt);
    if s :| s in candidates && attempt(s.id).Started? {
      CandidatesThere(servers, c, domain);
      SiblingIds(servers, c, domain, s);
      MapMembers(IdOf, candidates, s.id);
      assert IdOf(s) == s.id && s.id in plan.order && Named(servers, s.id);
    }
  }

  lemma ConnectsIfAny(servers: seq<Server>, plan: Plan, attempt: string -> Attempt)
    requires plan.resilient && forall id :: !attempt(id).LocalFailure?
    ensures Connecting(servers, plan, attempt).Connected? <==>
      exists id <- plan.order :: Named(servers, id) && attempt(id).Started?
  {
    var known, at := id => Named(servers, id), AttemptAt(plan.order, attempt);
    TriesInOrder(plan.order, known, at, true, 0);
    match TryFrom(plan.order, known, at, true, 0) {
      case Connected(k) =>
        assert plan.order[k] in plan.order;
      case Failed(k) =>
        assert false;
      case NoneWorked =>
        forall id | id in plan.order && Named(servers, id)
          ensures !attempt(id).Started?
        {
          var j: nat :| j < |plan.order| && plan.order[j] == id;
          assert PassedOver(plan.order, known, at, true, j);
        }
    }
  }

  /** Without a fallback nothing but the one planned server is ever started. */
  lemma NoSilentSubstitute(servers: seq<Server>, c: Choice, ask: Ask, m: Measures, attempt: string -> Attempt)
    requires PlanFor(servers, c, ask, m).Some? && !PlanFor(servers, c, ask, m).value.resilient
    ensures var plan := PlanFor(servers, c, ask, m).value;
      |plan.order| == 1 && Connecting(servers, plan, attempt) == OnlyOne(servers, plan.order[0], attempt)
  {
    PlanReaches(servers, c, ask, m);
    ConnectsOne(servers, PlanFor(servers, c, ask, m).value, attempt);
  }

  function OnlyOne(servers: seq<Server>, id: string, attempt: string -> Attempt): Outcome {
    if !Named(servers, id) then NoneWorked else if attempt(id).Started? then Connected(0) else Failed(0)
  }

  lemma ConnectsOne(servers: seq<Server>, plan: Plan, attempt: string -> Attempt)
    requires |plan.order| == 1 && !plan.resilient
    ensures Connecting(servers, plan, attempt) == OnlyOne(servers, plan.order[0], attempt)
  {
    var known, at := id => Named(servers, id), AttemptAt(plan.order, attempt);
    assert TryFrom(plan.order, known, at, false, 1) == NoneWorked;
    assert at(0) == attempt(plan.order[0]) && known(plan.order[0]) == Named(servers, plan.order[0]);
  }
}
