// The probes' worker pool (internal/probe/probe.go, run): workers take targets from
// one queue, write results under a lock and report them, in any interleaving.

module ProbePool {
  import opened Wrappers
  import opened Sequences
  import opened RankSpec

  const WORKER_LIMIT := 12

  /** A measurement of the server with an id; None when it did not answer. */
  datatype Ping = Ping(id: string, ms: Option<nat>)

  datatype Worker = Idle | Measuring(k: nat) | Telling(k: nat) | Gone

  /** Where a target is: in the queue, with a worker, or reported. */
  datatype Place = Queued | With(worker: nat) | Told

  /** The targets' ids, the shared results, and for the record what was measured and reported. */
  datatype State = State(
    ids: seq<string>, next: nat, workers: seq<Worker>, results: seq<Option<Ping>>,
    measured: seq<Option<Ping>>, told: seq<nat>, places: seq<Place>)

  datatype Event = Take(w: nat) | Store(w: nat, ms: Option<nat>) | Tell(w: nat) | Leave(w: nat)

  /** The slot of an id: the last target with it, since a later one overwrites the index of an earlier. */
  function Slot(ids: seq<string>, id: string): (k: nat)
    requires id in ids
    ensures k < |ids| && ids[k] == id
  {
    if ids[|ids| - 1] == id then |ids| - 1 else Slot(ids[..|ids| - 1], id)
  }

  lemma {:induction false} SlotIsLast(ids: seq<string>, id: string, k: nat)
    requires k < |ids| && ids[k] == id
    ensures k <= Slot(ids, id)
  {
    if ids[|ids| - 1] != id {
      SlotIsLast(ids[..|ids| - 1], id, k);
    }
  }

  function Start(ids: seq<string>): State {
    var n := |ids|;
    State(ids, 0, seq(if n < WORKER_LIMIT then n else WORKER_LIMIT, i => Idle),
          seq(n, i => None), seq(n, i => None), [], seq(n, i => Queued))
  }

  predicate Shaped(s: State) {
    |s.results| == |s.measured| == |s.places| == |s.ids| && s.next <= |s.ids|
  }

  /** What a worker can do next; an event that cannot happen changes nothing. */
  function Step(s: State, e: Event): State {
    if !Shaped(s) || e.w >= |s.workers| then s
    else match (e, s.workers[e.w])
      case (Take(w), Idle) =>
        if s.next < |s.ids|
        then s.(next := s.next + 1, workers := s.workers[w := Measuring(s.next)], places := s.places[s.next := With(w)])
        else s
      case (Store(w, ms), Measuring(k)) =>
        if k < |s.ids| then
          var ping := Ping(s.ids[k], ms);
          s.(workers := s.workers[w := Telling(k)], measured := s.measured[k := Some(ping)],
             results := s.results[Slot(s.ids, s.ids[k]) := Some(ping)])
        else s
      case (Tell(w), Telling(k)) =>
        if k < |s.ids|
        then s.(workers := s.workers[w := Idle], told := s.told + [k], places := s.places[k := Told])
        else s
      case (Leave(w), Idle) =>
        if s.next == |s.ids| then s.(workers := s.workers[w := Gone]) else s
      case _ => s
  }

  function Run(ids: seq<string>, events: seq<Event>): State {
    if events == [] then Start(ids) else Step(Run(ids, events[..|events| - 1]), events[|events| - 1])
  }

  // -------------------------------------------------------------- what is kept

  predicate Holds(worker: Worker, k: nat) { (worker.Measuring? || worker.Telling?) && worker.k == k }

  /** Each target is in one place, and each worker holds the one it says. */
  ghost predicate Placed(s: State) {
    && Shaped(s)
    && (forall k: nat :: k < |s.ids| ==> (s.places[k].Queued? <==> s.next <= k))
    && (forall k: nat :: k < |s.ids| && s.places[k].With? ==>
          s.places[k].worker < |s.workers| && Holds(s.workers[s.places[k].worker], k))
    && (forall w: nat :: w < |s.workers| && (s.workers[w].Measuring? || s.workers[w].Telling?) ==>
          s.workers[w].k < |s.ids| && s.places[s.workers[w].k] == With(w))
    && (forall w: nat :: w < |s.workers| && s.workers[w].Gone? ==> s.next == |s.ids|)
  }

  ghost predicate Reported(s: State) {
    && Shaped(s) && NoRepeats(s.told)
    && (forall k <- s.told :: k < |s.ids|)
    && (forall k: nat :: k < |s.ids| ==> (s.places[k].Told? <==> k in s.told))
    && (forall k: nat :: k < |s.ids| && s.measured[k].None? ==> !s.places[k].Told?)
    && (forall w: nat :: w < |s.workers| && s.workers[w].Telling? && s.workers[w].k < |s.ids| ==>
          s.measured[s.workers[w].k].Some?)
    && (forall w: nat :: w < |s.workers| && s.workers[w].Measuring? && s.workers[w].k < |s.ids| ==>
          s.measured[s.workers[w].k].None?)
    && (forall k: nat :: k < |s.ids| && s.places[k].Queued? ==> s.measured[k].None?)
  }

  /** A slot is filled by a measurement of its own id, and only the last target of an id has a slot. */
  ghost predicate Filled(s: State) {
    && Shaped(s)
    && (forall k: nat :: k < |s.ids| && s.measured[k].Some? ==>
          s.measured[k].value.id == s.ids[k] && s.results[Slot(s.ids, s.ids[k])].Some?)
    && (forall k: nat :: k < |s.ids| && s.results[k].Some? ==>
          Slot(s.ids, s.ids[k]) == k && s.results[k].value.id == s.ids[k] && MeasuredSomewhere(s, s.results[k].value))
  }

  predicate MeasuredSomewhere(s: State, ping: Ping) {
    exists j: nat :: j < |s.measured| && s.measured[j] == Some(ping)
  }

  /** While a target's id is its own, its slot is what was measured for it. */
  ghost predicate InPlace(s: State) {
    Shaped(s) && (NoRepeats(s.ids) ==> s.results == s.measured)
  }

  lemma Taken(s: State, w: nat)
    requires Placed(s)
    ensures Placed(Step(s, Take(w)))
  {
  }

  lemma Stored(s: State, w: nat, ms: Option<nat>)
    requires Placed(s)
    ensures Placed(Step(s, Store(w, ms)))
  {
  }

  lemma Reporting(s: State, w: nat)
    requires Placed(s)
    ensures Placed(Step(s, Tell(w)))
  {
  }

  lemma Left(s: State, w: nat)
    requires Placed(s)
    ensures Placed(Step(s, Leave(w)))
  {
  }

  lemma PlacesKept(s: State, e: Event)
    requires Placed(s)
    ensures Placed(Step(s, e))
  {
    match e
    case Take(w) => Taken(s, w);
    case Store(w, ms) => Stored(s, w, ms);
    case Tell(w) => Reporting(s, w);
    case Leave(w) => Left(s, w);
  }

  lemma ResultsKept(s: State, e: Event)
    requires Filled(s) && InPlace(s) && (!e.Store? || e.w >= |s.workers| || !s.workers[e.w].Measuring?)
    ensures Filled(Step(s, e)) && InPlace(Step(s, e))
  {
    var t := Step(s, e);
    assert Shaped(t) && t.ids == s.ids && t.results == s.results && t.measured == s.measured;
    forall k: nat | k < |t.ids| && t.results[k].Some?
      ensures MeasuredSomewhere(t, t.results[k].value)
    {
      assert MeasuredSomewhere(s, s.results[k].value);
    }
  }

  lemma ReportsKept(s: State, e: Event)
    requires Placed(s) && Reported(s)
    ensures Reported(Step(s, e))
  {
  }

  lemma OwnSlot(ids: seq<string>, k: nat)
    requires k < |ids|
    ensures NoRepeats(ids) ==> Slot(ids, ids[k]) == k
    ensures Slot(ids, ids[Slot(ids, ids[k])]) == Slot(ids, ids[k])
  {
    SlotIsLast(ids, ids[k], k);
  }

  lemma StoreKeeps(s: State, e: Event)
    requires Placed(s) && Reported(s) && Filled(s) && InPlace(s) && e.Store?
    requires e.w < |s.workers| && s.workers[e.w].Measuring?
    ensures Filled(Step(s, e)) && InPlace(Step(s, e))
  {
    var k := s.workers[e.w].k;
    OwnSlot(s.ids, k);
    StoreFills(s, Step(s, e), k, Ping(s.ids[k], e.ms));
  }

  lemma StoreFills(s: State, t: State, k: nat, ping: Ping)
    requires Filled(s) && k < |s.ids| && ping.id == s.ids[k] && s.measured[k].None?
    requires t == s.(workers := t.workers, measured := s.measured[k := Some(ping)],
                     results := s.results[Slot(s.ids, s.ids[k]) := Some(ping)])
    ensures Filled(t)
  {
    var slot := Slot(s.ids, s.ids[k]);
    OwnSlot(s.ids, k);
    assert t.measured[k] == Some(ping);
    forall m: nat | m < |t.ids| && t.results[m].Some?
      ensures Slot(t.ids, t.ids[m]) == m && t.results[m].value.id == t.ids[m] && MeasuredSomewhere(t, t.results[m].value)
    {
      if m != slot {
        var j: nat :| j < |s.measured| && s.measured[j] == Some(s.results[m].value);
        assert t.measured[j] == s.measured[j];
      }
    }
  }

  lemma {:induction false} RunKeeps(ids: seq<string>, events: seq<Event>)
    ensures var s := Run(ids, events);
      Placed(s) && Reported(s) && Filled(s) && InPlace(s) && s.ids == ids
  {
    if events != [] {
      var s, e := Run(ids, events[..|events| - 1]), events[|events| - 1];
      RunKeeps(ids, events[..|events| - 1]);
      PlacesKept(s, e);
      ReportsKept(s, e);
      if e.Store? && e.w < |s.workers| && s.workers[e.w].Measuring? {
        StoreKeeps(s, e);
      } else {
        ResultsKept(s, e);
      }
    }
  }

  // --------------------------------------------------------------- the theorems

  /** Every worker has left, which is when run returns; there is one unless there is nothing to measure. */
  predicate Finished(s: State) { forall w: nat :: w < |s.workers| ==> s.workers[w].Gone? }

  /**
   * In every interleaving each target is reported at most once, and by the time
   * the workers have left exactly once, after it was measured.
   */
  lemma EachReportedOnce(ids: seq<string>, events: seq<Event>)
    ensures var s := Run(ids, events);
      && |s.measured| == |ids| && NoRepeats(s.told) && (forall k <- s.told :: k < |ids| && s.measured[k].Some? && s.measured[k].value.id == ids[k])
      && (Finished(s) ==> forall k: nat :: k < |ids| ==> k in s.told)
  {
    RunKeeps(ids, events);
    WorkersStay(ids, events);
    if Finished(Run(ids, events)) && ids != [] {
      AllTold(Run(ids, events));
    }
  }

  lemma AllTold(s: State)
    requires Placed(s) && Reported(s) && Finished(s) && s.workers != []
    ensures forall k: nat :: k < |s.ids| ==> k in s.told
  {
    assert s.workers[0].Gone?;
  }

  lemma {:induction false} WorkersStay(ids: seq<string>, events: seq<Event>)
    ensures |Run(ids, events).workers| == if |ids| < WORKER_LIMIT then |ids| else WORKER_LIMIT
  {
    if events != [] {
      WorkersStay(ids, events[..|events| - 1]);
    }
  }

  /**
   * The results come back complete, each in its target's place, exactly when
   * no two targets share an id; otherwise the earlier of the two stays empty.
   */
  lemma ResultsAreComplete(ids: seq<string>, events: seq<Event>)
    requires Finished(Run(ids, events))
    ensures var s := Run(ids, events);
      && |s.results| == |ids|
      && ((forall k: nat :: k < |ids| ==> s.results[k].Some?) <==> NoRepeats(ids))
      && (NoRepeats(ids) ==> s.results == s.measured)
  {
    var s := Run(ids, events);
    RunKeeps(ids, events);
    EachReportedOnce(ids, events);
    forall k: nat | k < |ids|
      ensures s.measured[k].Some?
    {
      assert k in s.told;
    }
    forall i, j | 0 <= i < j < |ids| && ids[i] == ids[j]
      ensures s.results[i].None?
    {
      SlotIsLast(ids, ids[i], j);
    }
  }

  lemma IdleGoesOn(s: State, w: nat)
    requires Shaped(s) && w < |s.workers| && s.workers[w].Idle?
    ensures exists e: Event :: e.w == w && Step(s, e) != s
  {
    if s.next < |s.ids| {
      assert Step(s, Take(w)).next == s.next + 1;
    } else {
      assert Step(s, Leave(w)).workers[w] == Gone;
    }
  }

  lemma BusyGoesOn(s: State, w: nat)
    requires Placed(s) && w < |s.workers| && (s.workers[w].Measuring? || s.workers[w].Telling?)
    ensures exists e: Event :: e.w == w && Step(s, e) != s
  {
    if s.workers[w].Measuring? {
      assert Step(s, Store(w, None)).workers[w].Telling?;
    } else {
      assert Step(s, Tell(w)).workers[w] == Idle;
    }
  }

  /** Nobody waits for nothing: until all have left, every worker still there can go on. */
  lemma NeverStuck(ids: seq<string>, events: seq<Event>, w: nat)
    requires w < |Run(ids, events).workers| && !Run(ids, events).workers[w].Gone?
    ensures exists e: Event :: e.w == w && Step(Run(ids, events), e) != Run(ids, events)
  {
    var s := Run(ids, events);
    RunKeeps(ids, events);
    if s.workers[w].Idle? {
      IdleGoesOn(s, w);
    } else {
      BusyGoesOn(s, w);
    }
  }

  // ------------------------------------------------------- how many reports

  function Below(n: nat): set<nat> {
    if n == 0 then {} else Below(n - 1) + {n - 1}
  }

  lemma {:induction false} BelowCount(n: nat)
    ensures |Below(n)| == n && forall k: nat :: k in Below(n) <==> k < n
  {
    if n > 0 {
      BelowCount(n - 1);
    }
  }

  function SetOf(told: seq<nat>): set<nat> {
    if told == [] then {} else SetOf(told[..|told| - 1]) + {told[|told| - 1]}
  }

  lemma {:induction false} SetOfCount(told: seq<nat>)
    ensures NoRepeats(told) ==> |SetOf(told)| == |told|
    ensures forall k :: k in SetOf(told) <==> k in told
  {
    if told != [] {
      var init, last := told[..|told| - 1], told[|told| - 1];
      SetOfCount(init);
      assert told == init + [last];
      if NoRepeats(told) {
        assert last !in init;
      }
    }
  }

  lemma Pigeonhole(told: seq<nat>, n: nat)
    requires NoRepeats(told) && forall k <- told :: k < n
    ensures |told| <= n
  {
    BelowCount(n);
    SetOfCount(told);
    Smaller(SetOf(told), Below(n));
  }

  lemma {:induction false} Smaller(a: set<nat>, b: set<nat>)
    requires a <= b
    ensures |a| <= |b|
  {
    if k :| k in a {
      Smaller(a - {k}, b - {k});
    }
  }

  /** A pool never makes more reports than there are targets. */
  lemma ReportsAreFew(ids: seq<string>, events: seq<Event>)
    ensures |Run(ids, events).told| <= |ids|
  {
    EachReportedOnce(ids, events);
    Pigeonhole(Run(ids, events).told, |ids|);
  }

  /** Targets a handshake can be tried with, and those reported at once for want of a port. */
  function Dialed(targets: seq<Profile>, some: bool): seq<string> {
    Collect((p: Profile) => if (p.target.Some? && p.target.value > 0) == some then Some(p.id) else None, targets)
  }

  lemma {:induction false} DialedOrNot(targets: seq<Profile>)
    ensures |Dialed(targets, true)| + |Dialed(targets, false)| == |targets|
  {
    if targets != [] {
      DialedOrNot(targets[..|targets| - 1]);
    }
  }

  /**
   * Ranking's two probes side by side, at any point of any interleaving of
   * their workers: what has been sent never fills the channel between them.
   */
  lemma ChannelNeverFills(candidates: seq<Profile>, domain: string, chosen: set<string>, pings: seq<Event>, handshakes: seq<Event>)
    ensures var all, some := Targets(candidates, domain, None), Targets(candidates, domain, Some(chosen));
      |Run(Map((p: Profile) => p.id, all), pings).told| + |Unparsed(candidates, domain, None)|
      + |Run(Dialed(some, true), handshakes).told| + |Dialed(some, false)| + |Unparsed(candidates, domain, Some(chosen))|
      < Capacity(|candidates|)
  {
    var all, some := Targets(candidates, domain, None), Targets(candidates, domain, Some(chosen));
    ReportsAreFew(Map((p: Profile) => p.id, all), pings);
    ReportsAreFew(Dialed(some, true), handshakes);
    DialedOrNot(some);
    ResultsAlwaysFit(candidates, domain, chosen);
  }
}
