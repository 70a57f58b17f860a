// Counters arriving and saves asked for, side by side (internal/app/traffic.go):
// what is shown is read in one locked region and the counters are updated in
// later ones, so a save can be for a profile shown before, or for none.

module TrafficCalls {
  import opened Wrappers
  import opened Sequences
  import opened TrafficSpec

  /**
   * A goroutine: one with counters from the core (handleCoreStats), one asked to
   * save (flushUsage), each up to where it lets go of the counters.
   */
  datatype Call =
    | Stats(up: int, down: int)
    | Sampling(up: int, down: int, shown: string)
    | Flush
    | Saving(shown: string)
    | Done

  /** The counters, the profile shown, whether it is shown as connected, and who is at work. */
  datatype Desk = Desk(meter: State, shown: string, connected: bool, calls: seq<Call>)

  datatype Move =
    | Show(profile: string, online: bool) | Open(profile: string, now: int) | Clear
    | Hear(up: int, down: int) | Ask | Go(i: nat, now: int) | Arrive(i: nat)

  /** What one locked region of a goroutine does to the counters. */
  function CallDoes(d: Desk, call: Call, now: int): Option<Event> {
    match call
    case Sampling(up, down, _) => Some(Sample(up, down))
    case Saving(shown) => Some(Take(shown, now))
    case _ => None
  }

  /** And where it leaves the goroutine. */
  function CallNext(d: Desk, call: Call, now: int): Call {
    match call
    case Stats(up, down) => if up < 0 || down < 0 || !d.connected then Done else Sampling(up, down, d.shown)
    case Sampling(up, down, shown) => if Due(d.meter, now) then Saving(shown) else Done
    case Flush => Saving(d.shown)
    case _ => Done
  }

  function Does(d: Desk, m: Move): Option<Event> {
    match m
    case Open(profile, now) => Some(Begin(profile, now))
    case Clear => Some(Reset)
    case Arrive(i) => Some(Land(i))
    case Go(i, now) => if i < |d.calls| then CallDoes(d, d.calls[i], now) else None
    case _ => None
  }

  function Next(d: Desk, m: Move): Desk {
    var meter := match Does(d, m) case Some(e) => TrafficSpec.Step(d.meter, e) case None => d.meter;
    match m
    case Show(profile, online) => d.(shown := profile, connected := online)
    case Hear(up, down) => d.(calls := d.calls + [Stats(up, down)])
    case Ask => d.(calls := d.calls + [Flush])
    case Go(i, now) =>
      if i < |d.calls| then d.(meter := meter, calls := d.calls[i := CallNext(d, d.calls[i], now)]) else d
    case _ => d.(meter := meter)
  }

  function Play(d: Desk, moves: seq<Move>): Desk { Fold(Next, d, moves) }

  /** What an interleaving does to the counters, in order. */
  function Trace(d: Desk, moves: seq<Move>): seq<Event> {
    if moves == [] then []
    else
      var init := moves[..|moves| - 1];
      Trace(d, init) + match Does(Play(d, init), moves[|moves| - 1]) case Some(e) => [e] case None => []
  }

  /** The counters see nothing of an interleaving but its trace. */
  lemma {:induction false} TraceLeads(d: Desk, moves: seq<Move>)
    ensures Play(d, moves).meter == Run(d.meter, Trace(d, moves))
  {
    if moves != [] {
      var init, last := moves[..|moves| - 1], moves[|moves| - 1];
      TraceLeads(d, init);
      match Does(Play(d, init), last)
      case Some(e) => FoldMore(Step, d.meter, Trace(d, init), e);
      case None => NothingAfter(Trace(d, init));
    }
  }

  predicate OneSession(moves: seq<Move>) {
    forall m <- moves :: !m.Open? && !m.Clear?
  }

  lemma {:induction false} TraceInSession(d: Desk, moves: seq<Move>)
    requires OneSession(moves)
    ensures InSession(Trace(d, moves))
  {
    if moves != [] {
      assert moves[|moves| - 1] in moves && forall m <- moves[..|moves| - 1] :: m in moves;
      TraceInSession(d, moves[..|moves| - 1]);
    }
  }

  function Opening(d: Desk, profile: string, now: int): Desk { d.(meter := Begun(d.meter, profile, now)) }

  /**
   * Of every interleaving of a session: nothing is lost or credited to another
   * profile exactly when each save that finds pending bytes carries the session's own.
   */
  lemma EveryInterleavingCounts(d: Desk, profile: string, now: int, moves: seq<Move>)
    requires profile != "" && Known(d.meter.profiles, profile) && OneSession(moves)
    ensures var s, t := Opening(d, profile, now), Play(Opening(d, profile, now), moves);
      AddUp(t.meter.total, InFlight(d.meter.flights, profile), Credit(t.meter)) <==> RightlySaved(s.meter, Trace(s, moves))
  {
    var s := Opening(d, profile, now);
    TraceLeads(s, moves);
    TraceInSession(s, moves);
    BytesAreConserved(d.meter, profile, now, Trace(s, moves));
  }

  // --------------------------------------------------- when every save is right

  predicate Carries(call: Call, profile: string) {
    match call
    case Sampling(_, _, shown) => shown == profile
    case Saving(shown) => shown == profile
    case _ => true
  }

  /** The session's profile is shown, and nobody at work has read another. */
  predicate Steady(d: Desk, profile: string) {
    d.shown == profile && forall call <- d.calls :: Carries(call, profile)
  }

  predicate Keeps(m: Move, profile: string) {
    !m.Open? && !m.Clear? && (m.Show? ==> m.profile == profile)
  }

  lemma NextSteady(d: Desk, m: Move, profile: string)
    requires Steady(d, profile) && Keeps(m, profile)
    ensures Steady(Next(d, m), profile)
    ensures Does(d, m).Some? && Does(d, m).value.Take? ==> Does(d, m).value.shown == profile
  {
    if m.Go? && m.i < |d.calls| {
      assert d.calls[m.i] in d.calls;
      forall call <- Next(d, m).calls
        ensures Carries(call, profile)
      {
        assert call in d.calls || call == CallNext(d, d.calls[m.i], m.now);
      }
    }
  }

  lemma {:induction false} SteadyTrace(d: Desk, profile: string, moves: seq<Move>)
    requires Steady(d, profile) && forall m <- moves :: Keeps(m, profile)
    ensures Steady(Play(d, moves), profile)
    ensures forall e <- Trace(d, moves) :: e.Take? ==> e.shown == profile
  {
    if moves != [] {
      var init, last := moves[..|moves| - 1], moves[|moves| - 1];
      assert last in moves && forall m <- init :: m in moves;
      SteadyTrace(d, profile, init);
      NextSteady(Play(d, init), last, profile);
    }
  }

  /**
   * As long as the session's own profile is shown, and nobody at work when it
   * began had read another, nothing is lost, however samples and saves interleave.
   */
  lemma SteadySessionCounts(d: Desk, profile: string, now: int, moves: seq<Move>)
    requires profile != "" && Known(d.meter.profiles, profile)
    requires Steady(d, profile) && forall m <- moves :: Keeps(m, profile)
    ensures var t := Play(Opening(d, profile, now), moves);
      AddUp(t.meter.total, InFlight(d.meter.flights, profile), Credit(t.meter))
  {
    var s := Opening(d, profile, now);
    SteadyTrace(s, profile, moves);
    assert RightlySaved(s.meter, Trace(s, moves)) by {
      forall i | 0 <= i < |Trace(s, moves)|
        ensures Right(Run(s.meter, Trace(s, moves)[..i]), profile, Trace(s, moves)[i])
      {
        assert Trace(s, moves)[i] in Trace(s, moves);
      }
    }
    EveryInterleavingCounts(d, profile, now, moves);
  }

  // ------------------------------------------------------------ how it goes wrong

  /** Two profiles, both unused. */
  const PROFILES := [Profile("a", None, None), Profile("b", None, None)]

  /** A session of one of them, some bytes into it, none of them taken yet. */
  function Counting(profile: string, persisted: int, counted: Bytes): State {
    State(ZERO, counted, counted, counted, persisted, profile, PROFILES, [])
  }

  function At(meter: State, shown: string, calls: seq<Call>): Desk { Desk(meter, shown, true, calls) }

  lemma Then(d: Desk, moves: seq<Move>, at: Desk, m: Move, next: Desk)
    requires Play(d, moves) == at && Next(at, m) == next
    ensures Play(d, moves + [m]) == next
  {
    FoldMore(Next, d, moves, m);
  }

  /** One goroutine's step. */
  lemma Goes(d: Desk, moves: seq<Move>, at: Desk, i: nat, now: int, call: Call, meter: State)
    requires Play(d, moves) == at && i < |at.calls| && call == CallNext(at, at.calls[i], now)
    requires meter == match CallDoes(at, at.calls[i], now) case Some(e) => Step(at.meter, e) case None => at.meter
    ensures Play(d, moves + [Go(i, now)]) == at.(meter := meter, calls := at.calls[i := call])
  {
    Then(d, moves, at, Go(i, now), at.(meter := meter, calls := at.calls[i := call]));
  }

  lemma FirstSample(profile: string, persisted: int, b: Bytes)
    ensures Sampled(Counting(profile, persisted, ZERO), b.up, b.down) == Counting(profile, persisted, b)
  {
    assert Growth(b, ZERO) == b && Anchor(ZERO, b) == ZERO && Bytes(b.up - 0, b.down - 0) == b;
    NothingMore(b);
  }

  /** Counters come in and are counted; the next thing the goroutine does is to save, when it is time. */
  lemma Counts(d: Desk, moves: seq<Move>, profile: string, persisted: int, shown: string, before: seq<Call>, b: Bytes, now: int)
      returns (events: seq<Move>)
    requires Play(d, moves) == At(Counting(profile, persisted, ZERO), shown, before)
    ensures events == moves + [Hear(b.up, b.down)] + [Go(|before|, now)] + [Go(|before|, now)]
    ensures Play(d, events) == At(Counting(profile, persisted, b), shown,
      before + [if now - persisted >= PERSIST_INTERVAL then Saving(shown) else Done])
  {
    var idle, after := Counting(profile, persisted, ZERO), if now - persisted >= PERSIST_INTERVAL then Saving(shown) else Done;
    Then(d, moves, At(idle, shown, before), Hear(b.up, b.down), At(idle, shown, before + [Stats(b.up, b.down)]));
    events := moves + [Hear(b.up, b.down)];
    Goes(d, events, At(idle, shown, before + [Stats(b.up, b.down)]), |before|, now, Sampling(b.up, b.down, shown), idle);
    assert (before + [Stats(b.up, b.down)])[|before| := Sampling(b.up, b.down, shown)] == before + [Sampling(b.up, b.down, shown)];
    events := events + [Go(|before|, now)];
    FirstSample(profile, persisted, b);
    Goes(d, events, At(idle, shown, before + [Sampling(b.up, b.down, shown)]), |before|, now, after, Counting(profile, persisted, b));
    assert (before + [Sampling(b.up, b.down, shown)])[|before| := after] == before + [after];
    events := events + [Go(|before|, now)];
  }

  /**
   * The tunnel is shown as connected to no profile, as it is when the core still
   * runs after a change of routing that failed: what is counted is shown, and
   * thrown away at the next save, neither stored nor pending nor on its way.
   */
  lemma NobodyShownLosesBytes(lost: Bytes) returns (moves: seq<Move>)
    ensures OneSession(moves)
    ensures var t := Play(At(Counting("a", 0, ZERO), "a", []), moves);
      && t.meter.total == lost && t.meter.profile == "a" && t.calls == [Done]
      && TotalsOf(t.meter.profiles, "a") == ZERO && t.meter.pending == ZERO && t.meter.flights == []
  {
    var idle := Counting("a", 0, ZERO);
    var d := At(idle, "a", []);
    Then(d, [], d, Show("", true), At(idle, "", []));
    moves := [] + [Show("", true)];
    moves := Counts(d, moves, "a", 0, "", [], lost, PERSIST_INTERVAL);
    var counted := Counting("a", 0, lost);
    assert [] + [Saving("")] == [Saving("")];
    Goes(d, moves, At(counted, "", [Saving("")]), 0, PERSIST_INTERVAL, Done, Taken(counted, "", PERSIST_INTERVAL));
    moves := moves + [Go(0, PERSIST_INTERVAL)];
  }

  /** A connect to another profile: nobody is shown, the counters are cleared, it is shown, its session begins, it is connected. */
  lemma Switches(d: Desk, moves: seq<Move>, counted: Bytes, calls: seq<Call>) returns (events: seq<Move>)
    requires Play(d, moves) == At(Counting("a", 0, counted), "a", calls)
    ensures Play(d, events) == At(Counting("b", PERSIST_INTERVAL, ZERO), "b", calls)
  {
    var from, idle, begun := Counting("a", 0, counted), Counting("a", 0, ZERO), Counting("b", PERSIST_INTERVAL, ZERO);
    Then(d, moves, At(from, "a", calls), Show("", false), Desk(from, "", false, calls));
    events := moves + [Show("", false)];
    Then(d, events, Desk(from, "", false, calls), Clear, Desk(idle, "", false, calls));
    events := events + [Clear];
    Then(d, events, Desk(idle, "", false, calls), Show("b", false), Desk(idle, "b", false, calls));
    events := events + [Show("b", false)];
    assert TotalsOf(PROFILES[1..], "b") == ZERO;
    Then(d, events, Desk(idle, "b", false, calls), Open("b", PERSIST_INTERVAL), Desk(begun, "b", false, calls));
    events := events + [Open("b", PERSIST_INTERVAL)];
    Then(d, events, Desk(begun, "b", false, calls), Show("b", true), At(begun, "b", calls));
    events := events + [Show("b", true)];
  }

  /** A save that read one profile, done in the session of another, and landed. */
  lemma SavesStale(d: Desk, moves: seq<Move>, counted: Bytes) returns (events: seq<Move>)
    requires Play(d, moves) == At(Counting("b", PERSIST_INTERVAL, counted), "b", [Saving("a"), Done])
    ensures Play(d, events).meter == Landed(Taken(Counting("b", PERSIST_INTERVAL, counted), "a", PERSIST_INTERVAL), 0)
  {
    var from := Counting("b", PERSIST_INTERVAL, counted);
    var taken := Taken(from, "a", PERSIST_INTERVAL);
    assert [Saving("a"), Done][0 := Done] == [Done, Done];
    Goes(d, moves, At(from, "b", [Saving("a"), Done]), 0, PERSIST_INTERVAL, Done, taken);
    events := moves + [Go(0, PERSIST_INTERVAL)];
    Then(d, events, At(taken, "b", [Done, Done]), Arrive(0), At(Landed(taken, 0), "b", [Done, Done]));
    events := events + [Arrive(0)];
  }

  /**
   * A save asked for by a sample of one profile's session comes when the next
   * profile's is under way, and gives the first what the second counted.
   */
  lemma StaleSaveMisleads(early: Bytes, counted: Bytes) returns (moves: seq<Move>)
    requires counted != ZERO
    ensures var s := Play(At(Counting("a", 0, ZERO), "a", []), moves).meter;
      && s.profile == "b" && s.total == counted && s.pending == ZERO && s.flights == []
      && TotalsOf(s.profiles, "a") == counted && TotalsOf(s.profiles, "b") == ZERO
  {
    var now, d := PERSIST_INTERVAL, At(Counting("a", 0, ZERO), "a", []);
    moves := Counts(d, [], "a", 0, "a", [], early, now);
    assert [] + [Saving("a")] == [Saving("a")];
    moves := Switches(d, moves, early, [Saving("a")]);
    moves := Counts(d, moves, "b", now, "b", [Saving("a")], counted, now);
    assert [Saving("a")] + [Done] == [Saving("a"), Done];
    moves := SavesStale(d, moves, counted);
    LandedFirst(Taken(Counting("b", now, counted), "a", now), counted);
  }

  lemma LandedFirst(s: State, counted: Bytes)
    requires s.profiles == PROFILES && s.flights == [Flight("a", counted)]
    ensures var t := Landed(s, 0);
      t.flights == [] && TotalsOf(t.profiles, "a") == counted && TotalsOf(t.profiles, "b") == ZERO
  {
    AddToTotals(PROFILES, "a", counted, "a");
    AddToTotals(PROFILES, "a", counted, "b");
    NothingMore(counted);
    assert PROFILES[0].id == "a" && PROFILES[0] in PROFILES;
    assert TotalsOf(PROFILES[1..], "b") == ZERO;
  }
}
