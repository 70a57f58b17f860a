// Byte counters (internal/app/traffic.go): what the core has counted becomes a
// session, a running total, and what each profile has used.

module TrafficSpec {
  import opened Wrappers
  import opened Sequences

  datatype Bytes = Bytes(up: nat, down: nat)

  const ZERO := Bytes(0, 0)

  function Plus(a: Bytes, b: Bytes): Bytes { Bytes(a.up + b.up, a.down + b.down) }

  function SaturatingSub(current: nat, previous: nat): nat {
    if current < previous then 0 else current - previous
  }

  /** What a sample adds; nothing in a direction that went back, as when the core restarts. */
  function Growth(current: Bytes, previous: Bytes): Bytes {
    Bytes(SaturatingSub(current.up, previous.up), SaturatingSub(current.down, previous.down))
  }

  datatype Profile = Profile(id: string, up: Option<nat>, down: Option<nat>)

  function Or0(total: Option<nat>): nat {
    match total case Some(n) => n case None => 0
  }

  predicate Known(profiles: seq<Profile>, id: string) { exists p <- profiles :: p.id == id }

  /** The first profile with an id. */
  function TotalsOf(profiles: seq<Profile>, id: string): Bytes {
    if profiles == [] then ZERO
    else if profiles[0].id == id then Bytes(Or0(profiles[0].up), Or0(profiles[0].down))
    else TotalsOf(profiles[1..], id)
  }

  function Credited(p: Profile, b: Bytes): Profile {
    p.(up := Some(Or0(p.up) + b.up), down := Some(Or0(p.down) + b.down))
  }

  function AddTo(profiles: seq<Profile>, id: string, b: Bytes): seq<Profile> {
    if profiles == [] then []
    else if profiles[0].id == id then [Credited(profiles[0], b)] + profiles[1..]
    else [profiles[0]] + AddTo(profiles[1..], id, b)
  }

  lemma {:induction false} AddToTotals(profiles: seq<Profile>, id: string, b: Bytes, other: string)
    ensures TotalsOf(AddTo(profiles, id, b), other) ==
      if other == id && Known(profiles, id) then Plus(TotalsOf(profiles, id), b) else TotalsOf(profiles, other)
    ensures Known(AddTo(profiles, id, b), other) <==> Known(profiles, other)
  {
    if profiles != [] {
      var head, rest := profiles[0], profiles[1..];
      assert profiles == [head] + rest;
      if head.id != id {
        AddToTotals(rest, id, b, other);
        assert AddTo(profiles, id, b)[1..] == AddTo(rest, id, b);
      } else {
        assert AddTo(profiles, id, b)[1..] == rest;
      }
      KnownCons(head, rest, other);
      KnownCons(AddTo(profiles, id, b)[0], AddTo(profiles, id, b)[1..], other);
      assert AddTo(profiles, id, b) == [AddTo(profiles, id, b)[0]] + AddTo(profiles, id, b)[1..];
      KnownCons(head, rest, id);
    }
  }

  lemma KnownCons(head: Profile, rest: seq<Profile>, id: string)
    ensures Known([head] + rest, id) <==> head.id == id || Known(rest, id)
  {
    if Known(rest, id) {
      var p :| p in rest && p.id == id;
      assert p in [head] + rest;
    }
    assert head in [head] + rest;
  }

  /** Bytes taken off the counters and not yet added to their profile. */
  datatype Flight = Flight(profile: string, bytes: Bytes)

  /** How long counted bytes may wait to be saved, in nanoseconds. */
  const PERSIST_INTERVAL := 5_000_000_000

  /**
   * session is what the core has counted since it started; total also what the
   * profile had before; persisted when pending bytes were last taken to be saved.
   * profile is whose session it is, which the app itself does not keep here.
   */
  datatype State = State(
    base: Bytes, session: Bytes, total: Bytes, pending: Bytes, persisted: int, profile: string,
    profiles: seq<Profile>, flights: seq<Flight>)

  /** A save is for the profile then shown, which may be none. */
  datatype Event =
    | Begin(profile: string, now: int) | Reset | Sample(up: int, down: int)
    | Take(shown: string, now: int) | Land(i: nat)

  function Begun(s: State, profile: string, now: int): State {
    s.(base := ZERO, session := ZERO, total := TotalsOf(s.profiles, profile), pending := ZERO, persisted := now,
       profile := profile)
  }

  function ResetState(s: State): State {
    s.(base := ZERO, session := ZERO, total := ZERO, pending := ZERO)
  }

  /** A core that counts from below its anchor is anchored anew. */
  function Anchor(base: Bytes, raw: Bytes): Bytes {
    if raw.up < base.up || raw.down < base.down then raw else base
  }

  function Sampled(s: State, up: int, down: int): State {
    if up < 0 || down < 0 then s
    else
      var raw := Bytes(up, down);
      var base := Anchor(s.base, raw);
      var session := Bytes(raw.up - base.up, raw.down - base.down);
      var growth := Growth(session, s.session);
      s.(base := base, session := session, total := Plus(s.total, growth), pending := Plus(s.pending, growth))
  }

  function Taken(s: State, shown: string, now: int): State {
    if shown == "" || s.pending == ZERO then s.(pending := ZERO, persisted := now)
    else s.(pending := ZERO, persisted := now, flights := s.flights + [Flight(shown, s.pending)])
  }

  predicate Due(s: State, now: int) { now - s.persisted >= PERSIST_INTERVAL }

  /** What counters from the core come to, undisturbed: a sample while connected, and a save when one is due. */
  function Heard(s: State, up: int, down: int, shown: string, connected: bool, now: int): seq<Event> {
    if up < 0 || down < 0 || !connected then []
    else if Due(s, now) then [Sample(up, down), Take(shown, now)]
    else [Sample(up, down)]
  }

  function Landed(s: State, i: nat): State {
    if i >= |s.flights| then s
    else s.(profiles := AddTo(s.profiles, s.flights[i].profile, s.flights[i].bytes), flights := Without(s.flights, i))
  }

  function Step(s: State, e: Event): State {
    match e
    case Begin(profile, now) => Begun(s, profile, now)
    case Reset => ResetState(s)
    case Sample(up, down) => Sampled(s, up, down)
    case Take(shown, now) => Taken(s, shown, now)
    case Land(i) => Landed(s, i)
  }

  function Run(s: State, events: seq<Event>): State {
    Fold(Step, s, events)
  }

  // ------------------------------------------------------------ conservation

  function Mine(f: Flight, profile: string): Bytes {
    if f.profile == profile then f.bytes else ZERO
  }

  /** What the first n flights carry for a profile. */
  function FirstFlights(flights: seq<Flight>, profile: string, n: nat): Bytes
    requires n <= |flights|
  {
    if n == 0 then ZERO else Plus(FirstFlights(flights, profile, n - 1), Mine(flights[n - 1], profile))
  }

  function InFlight(flights: seq<Flight>, profile: string): Bytes { FirstFlights(flights, profile, |flights|) }

  lemma {:induction false} SameFlights(a: seq<Flight>, b: seq<Flight>, profile: string, n: nat)
    requires n <= |a| && n <= |b| && forall k :: 0 <= k < n ==> a[k] == b[k]
    ensures FirstFlights(a, profile, n) == FirstFlights(b, profile, n)
  {
    if n > 0 {
      SameFlights(a, b, profile, n - 1);
    }
  }

  lemma InFlightMore(flights: seq<Flight>, f: Flight, profile: string)
    ensures InFlight(flights + [f], profile) == Plus(InFlight(flights, profile), Mine(f, profile))
  {
    SameFlights(flights + [f], flights, profile, |flights|);
  }

  /** rest is flights without the one at i. */
  lemma {:induction false} FlightsWithout(flights: seq<Flight>, rest: seq<Flight>, i: nat, profile: string, n: nat)
    requires i < n <= |flights| == |rest| + 1
    requires forall k :: 0 <= k < i ==> rest[k] == flights[k]
    requires forall k :: i <= k < |rest| ==> rest[k] == flights[k + 1]
    ensures FirstFlights(flights, profile, n) == Plus(FirstFlights(rest, profile, n - 1), Mine(flights[i], profile))
  {
    if n == i + 1 {
      SameFlights(flights, rest, profile, i);
    } else {
      FlightsWithout(flights, rest, i, profile, n - 1);
    }
  }

  function Without(flights: seq<Flight>, i: nat): (r: seq<Flight>)
    requires i < |flights|
    ensures |r| == |flights| - 1
    ensures forall k :: 0 <= k < i ==> r[k] == flights[k]
    ensures forall k :: i <= k < |r| ==> r[k] == flights[k + 1]
  {
    flights[..i] + flights[i + 1..]
  }

  /** Stored and on their way: what a profile has been, or will be, credited with. */
  function Owed(s: State, id: string): Bytes { Plus(TotalsOf(s.profiles, id), InFlight(s.flights, id)) }

  /** What the session's profile will have been credited with once what is pending is saved for it. */
  function Credit(s: State): Bytes { Plus(Owed(s, s.profile), s.pending) }

  // ---------------------------------------------------- what saves are paid to

  /** What the saves of a run take under one name. */
  function Paid(s: State, events: seq<Event>, id: string): Bytes {
    if events == [] then ZERO
    else
      var init, last := events[..|events| - 1], events[|events| - 1];
      if last.Take? && last.shown == id then Plus(Paid(s, init, id), Run(s, init).pending) else Paid(s, init, id)
  }

  /** What a save takes under any other name than this. */
  function Astray(s: State, profile: string, e: Event): Bytes {
    if e.Take? && e.shown != profile then s.pending else ZERO
  }

  /** What the saves of a run take under any other name than the session's. */
  function Strayed(s: State, events: seq<Event>): Bytes {
    if events == [] then ZERO
    else
      var init, last := events[..|events| - 1], events[|events| - 1];
      Plus(Strayed(s, init), Astray(Run(s, init), s.profile, last))
  }

  /** A save that finds pending bytes is for this profile. */
  predicate Right(s: State, profile: string, e: Event) {
    e.Take? ==> s.pending == ZERO || e.shown == profile
  }

  lemma NothingMore(b: Bytes)
    ensures Plus(b, ZERO) == b
    ensures Plus(ZERO, b) == b
  {
  }

  /** Every save that finds pending bytes is for the session's own profile. */
  predicate RightlySaved(s: State, events: seq<Event>) {
    forall i :: 0 <= i < |events| ==> Right(Run(s, events[..i]), s.profile, events[i])
  }

  lemma RightlyMore(s: State, init: seq<Event>, last: Event)
    ensures RightlySaved(s, init + [last]) <==> RightlySaved(s, init) && Right(Run(s, init), s.profile, last)
  {
    var events := init + [last];
    assert forall i :: 0 <= i < |init| ==> events[i] == init[i] && events[..i] == init[..i];
    assert events[|init|] == last && events[..|init|] == init;
    assert RightlySaved(s, events) ==> Right(Run(s, events[..|init|]), s.profile, events[|init|]);
  }

  lemma StrayedMore(s: State, init: seq<Event>, last: Event)
    ensures Strayed(s, init + [last]) == Plus(Strayed(s, init), Astray(Run(s, init), s.profile, last))
    ensures Astray(Run(s, init), s.profile, last) == ZERO <==> Right(Run(s, init), s.profile, last)
  {
    assert (init + [last])[..|init|] == init;
  }

  lemma BothZero(a: Bytes, b: Bytes)
    ensures Plus(a, b) == ZERO ==> a == ZERO && b == ZERO
    ensures a == ZERO && b == ZERO ==> Plus(a, b) == ZERO
  {
    SumZero(a.up, b.up);
    SumZero(a.down, b.down);
  }

  lemma SumZero(m: nat, n: nat)
    ensures m + n == 0 <==> m == 0 && n == 0
  {
  }

  lemma {:induction false} NothingStrays(s: State, events: seq<Event>)
    ensures Strayed(s, events) == ZERO <==> RightlySaved(s, events)
  {
    if events != [] {
      var init, last := events[..|events| - 1], events[|events| - 1];
      assert events == init + [last];
      NothingStrays(s, init);
      RightlyMore(s, init, last);
      StrayedMore(s, init, last);
      BothZero(Strayed(s, init), Astray(Run(s, init), s.profile, last));
    }
  }

  lemma TakePays(s: State, shown: string, now: int, id: string)
    requires id != ""
    ensures Owed(Taken(s, shown, now), id) == if shown == id then Plus(Owed(s, id), s.pending) else Owed(s, id)
  {
    InFlightMore(s.flights, Flight(shown, s.pending), id);
  }

  lemma Carried(stored: Bytes, rest: Bytes, b: Bytes)
    ensures Plus(stored, Plus(rest, b)) == Plus(Plus(stored, b), rest) && Plus(stored, ZERO) == stored
  {
  }

  lemma LandPays(s: State, i: nat, id: string)
    requires Known(s.profiles, id)
    ensures Owed(Landed(s, i), id) == Owed(s, id) && Known(Landed(s, i).profiles, id)
  {
    if i < |s.flights| {
      var f, rest := s.flights[i], Without(s.flights, i);
      AddToTotals(s.profiles, f.profile, f.bytes, id);
      FlightsWithout(s.flights, rest, i, id, |s.flights|);
      Carried(TotalsOf(s.profiles, id), InFlight(rest, id), Mine(f, id));
      assert TotalsOf(AddTo(s.profiles, f.profile, f.bytes), id) == Plus(TotalsOf(s.profiles, id), Mine(f, id));
    }
  }

  /**
   * Over any run, sessions and resets included, a profile is credited with
   * exactly what the saves in its name took off the counters.
   */
  lemma {:induction false} EachIsPaid(s: State, events: seq<Event>, id: string)
    requires id != "" && Known(s.profiles, id)
    ensures Known(Run(s, events).profiles, id) && Owed(Run(s, events), id) == Plus(Owed(s, id), Paid(s, events, id))
  {
    if events != [] {
      var init, last := events[..|events| - 1], events[|events| - 1];
      EachIsPaid(s, init, id);
      match last
      case Take(shown, now) => TakePays(Run(s, init), shown, now, id);
      case Land(i) => LandPays(Run(s, init), i, id);
      case _ =>
    }
  }

  // ------------------------------------------------------------- one session

  /** What the core's samples since a session began add up to: their positive increments. */
  function Counted(events: seq<Event>): (r: (Bytes, Bytes))
  {
    if events == [] then (ZERO, ZERO)
    else
      var (sum, last) := Counted(events[..|events| - 1]);
      match events[|events| - 1]
      case Sample(up, down) =>
        if up < 0 || down < 0 then (sum, last) else (Plus(sum, Growth(Bytes(up, down), last)), Bytes(up, down))
      case _ => (sum, last)
  }

  predicate InSession(events: seq<Event>) {
    forall e <- events :: !e.Begin? && !e.Reset?
  }

  /** Bytes that add up, in each direction. */
  predicate AddUp(a: Bytes, b: Bytes, sum: Bytes) {
    sum.up == a.up + b.up && sum.down == a.down + b.down
  }

  /** A session begun from `start` with some bytes of the same profile still on their way, and some saved for others. */
  ghost predicate Accounted(s: State, start: Bytes, late: Bytes, strayed: Bytes, events: seq<Event>) {
    && s.base == ZERO
    && AddUp(start, Counted(events).0, s.total) && s.session == Counted(events).1
    && AddUp(s.total, late, Plus(Credit(s), strayed))
  }

  lemma CountedMore(events: seq<Event>, e: Event)
    ensures Counted(events + [e]) ==
      var (sum, last) := Counted(events);
      match e
      case Sample(up, down) =>
        if up < 0 || down < 0 then (sum, last) else (Plus(sum, Growth(Bytes(up, down), last)), Bytes(up, down))
      case _ => (sum, last)
  {
    assert (events + [e])[..|events|] == events;
  }

  lemma SampleAccounts(s: State, up: int, down: int)
    requires s.base == ZERO
    ensures var t := Sampled(s, up, down);
      if up < 0 || down < 0 then t == s
      else
        && t.base == ZERO && t.session == Bytes(up, down) && t.profile == s.profile
        && t.total == Plus(s.total, Growth(Bytes(up, down), s.session))
        && Credit(t) == Plus(Credit(s), Growth(Bytes(up, down), s.session))
  {
  }

  /** What a save for somebody else takes away from the session's profile is what it found pending. */
  lemma TakeAccounts(s: State, shown: string, now: int)
    requires s.profile != ""
    ensures Credit(s) == if shown == s.profile then Credit(Taken(s, shown, now)) else Plus(Credit(Taken(s, shown, now)), s.pending)
  {
    TakePays(s, shown, now, s.profile);
  }

  lemma SampleStep(s: State, start: Bytes, late: Bytes, strayed: Bytes, events: seq<Event>, up: int, down: int)
    requires Accounted(s, start, late, strayed, events)
    ensures Accounted(Sampled(s, up, down), start, late, strayed, events + [Sample(up, down)])
  {
    CountedMore(events, Sample(up, down));
    SampleAccounts(s, up, down);
  }

  lemma TakeStep(s: State, start: Bytes, late: Bytes, strayed: Bytes, events: seq<Event>, e: Event)
    requires Accounted(s, start, late, strayed, events) && s.profile != "" && e.Take?
    ensures Accounted(Taken(s, e.shown, e.now), start, late, Plus(strayed, Astray(s, s.profile, e)), events + [e])
  {
    CountedMore(events, e);
    TakeAccounts(s, e.shown, e.now);
  }

  lemma LandStep(s: State, start: Bytes, late: Bytes, strayed: Bytes, events: seq<Event>, i: nat)
    requires Accounted(s, start, late, strayed, events) && Known(s.profiles, s.profile)
    ensures Accounted(Landed(s, i), start, late, strayed, events + [Land(i)])
  {
    CountedMore(events, Land(i));
    LandPays(s, i, s.profile);
    assert Credit(Landed(s, i)) == Credit(s);
  }

  lemma StepAccounts(s: State, start: Bytes, late: Bytes, strayed: Bytes, events: seq<Event>, e: Event)
    requires Accounted(s, start, late, strayed, events) && !e.Begin? && !e.Reset?
    requires s.profile != "" && Known(s.profiles, s.profile)
    ensures Accounted(Step(s, e), start, late, Plus(strayed, Astray(s, s.profile, e)), events + [e])
  {
    NothingMore(strayed);
    match e
    case Sample(up, down) => SampleStep(s, start, late, strayed, events, up, down);
    case Take(_, _) => TakeStep(s, start, late, strayed, events, e);
    case Land(i) => LandStep(s, start, late, strayed, events, i);
  }

  lemma Opened(before: State, profile: string, now: int)
    ensures var s := Begun(before, profile, now);
      Accounted(s, TotalsOf(before.profiles, profile), InFlight(before.flights, profile), ZERO, [])
  {
  }

  /**
   * Where the bytes of a session are: from the moment it begins until the
   * counters are next reset, however samples, saves and their landings interleave
   * and whether or not the core restarts, the total shown is what the profile had
   * plus every positive increment, and it is stored or on its way to the profile,
   * pending, or saved under another name.
   */
  lemma {:induction false} BytesAreAccountedFor(before: State, profile: string, now: int, events: seq<Event>)
    requires profile != "" && Known(before.profiles, profile) && InSession(events)
    ensures var s := Begun(before, profile, now);
      Accounted(Run(s, events), TotalsOf(before.profiles, profile), InFlight(before.flights, profile), Strayed(s, events), events)
  {
    var s := Begun(before, profile, now);
    if events == [] {
      Opened(before, profile, now);
    } else {
      var init, last := events[..|events| - 1], events[|events| - 1];
      assert events == init + [last];
      assert last in events && forall e <- init :: e in events;
      BytesAreAccountedFor(before, profile, now, init);
      RunKeepsProfile(s, init);
      EachIsPaid(s, init, profile);
      StepAccounts(Run(s, init), TotalsOf(before.profiles, profile), InFlight(before.flights, profile), Strayed(s, init), init, last);
      StrayedMore(s, init, last);
      FoldMore(Step, s, init, last);
    }
  }

  lemma {:induction false} RunKeepsProfile(s: State, events: seq<Event>)
    requires InSession(events)
    ensures Run(s, events).profile == s.profile
  {
    if events != [] {
      var init := events[..|events| - 1];
      assert events[|events| - 1] in events && forall e <- init :: e in events;
      RunKeepsProfile(s, init);
    }
  }

  /**
   * No byte is lost or credited to somebody else exactly when every save that
   * finds pending bytes is for the session's own profile.
   */
  lemma BytesAreConserved(before: State, profile: string, now: int, events: seq<Event>)
    requires profile != "" && Known(before.profiles, profile) && InSession(events)
    ensures var s := Begun(before, profile, now);
      && Run(s, events).profile == profile
      && (AddUp(Run(s, events).total, InFlight(before.flights, profile), Credit(Run(s, events))) <==> RightlySaved(s, events))
  {
    BytesAreAccountedFor(before, profile, now, events);
    RunKeepsProfile(Begun(before, profile, now), events);
    NothingStrays(Begun(before, profile, now), events);
  }

  lemma NoFlights(flights: seq<Flight>, profile: string)
    requires |flights| == 0
    ensures InFlight(flights, profile) == ZERO
  {
  }

  lemma SameBytes(total: Bytes, stored: Bytes)
    ensures AddUp(total, ZERO, Plus(Plus(stored, ZERO), ZERO)) <==> total == stored
  {
    NothingMore(stored);
  }

  /** Once everything on its way has landed, the profile holds exactly what is shown under the same condition. */
  lemma SettledTotals(before: State, profile: string, now: int, events: seq<Event>)
    requires profile != "" && Known(before.profiles, profile) && InSession(events)
    requires before.flights == []
    requires var s := Run(Begun(before, profile, now), events); s.flights == [] && s.pending == ZERO
    ensures var s := Begun(before, profile, now);
      Run(s, events).total == TotalsOf(Run(s, events).profiles, profile) <==> RightlySaved(s, events)
  {
    BytesAreAccountedFor(before, profile, now, events);
    BytesAreConserved(before, profile, now, events);
    RunKeepsProfile(Begun(before, profile, now), events);
    NoFlights(before.flights, profile);
    NoFlights(Run(Begun(before, profile, now), events).flights, profile);
    SameBytes(Run(Begun(before, profile, now), events).total, TotalsOf(Run(Begun(before, profile, now), events).profiles, profile));
  }

  // -------------------------------------------------------------- whole runs

  /** What one event adds to the counters. */
  function Added(s: State, e: Event): Bytes {
    if e.Sample? && e.up >= 0 && e.down >= 0 then
      var base := Anchor(s.base, Bytes(e.up, e.down));
      Growth(Bytes(e.up - base.up, e.down - base.down), s.session)
    else ZERO
  }

  /** What it takes off them to save under some name. */
  function Named(s: State, e: Event): Bytes {
    if e.Take? && e.shown != "" then s.pending else ZERO
  }

  /** What it throws away: a save without a name, a new session and a reset do. */
  function Dropped(s: State, e: Event): Bytes {
    if e.Begin? || e.Reset? || (e.Take? && e.shown == "") then s.pending else ZERO
  }

  function SumOf(of: (State, Event) -> Bytes, s: State, events: seq<Event>): Bytes {
    if events == [] then ZERO
    else
      var init := events[..|events| - 1];
      Plus(SumOf(of, s, init), of(Run(s, init), events[|events| - 1]))
  }

  /** What was counted is what is pending, what was saved, and what was thrown away. */
  predicate Balance(counted: Bytes, pending: Bytes, named: Bytes, dropped: Bytes) {
    counted.up == pending.up + named.up + dropped.up && counted.down == pending.down + named.down + dropped.down
  }

  lemma SampleBalances(s: State, up: int, down: int)
    ensures Sampled(s, up, down).pending == Plus(s.pending, Added(s, Sample(up, down)))
  {
  }

  lemma StepBalances(s: State, e: Event)
    ensures Balance(Plus(s.pending, Added(s, e)), Step(s, e).pending, Named(s, e), Dropped(s, e))
  {
    if e.Sample? {
      SampleBalances(s, e.up, e.down);
    }
  }

  lemma BalanceMore(counted: Bytes, named: Bytes, dropped: Bytes, s: State, e: Event)
    requires Balance(counted, s.pending, named, dropped)
    ensures Balance(Plus(counted, Added(s, e)), Step(s, e).pending, Plus(named, Named(s, e)), Plus(dropped, Dropped(s, e)))
  {
    StepBalances(s, e);
  }

  lemma SumOfMore(of: (State, Event) -> Bytes, s: State, init: seq<Event>, last: Event)
    ensures SumOf(of, s, init + [last]) == Plus(SumOf(of, s, init), of(Run(s, init), last))
  {
    assert (init + [last])[..|init|] == init;
  }

  /**
   * Over any run whatever, every byte counted is pending, was saved under some
   * name, or was pending when something threw it away.
   */
  lemma {:induction false} EveryByteGoesSomewhere(s: State, events: seq<Event>)
    requires s.pending == ZERO
    ensures Balance(SumOf(Added, s, events), Run(s, events).pending, SumOf(Named, s, events), SumOf(Dropped, s, events))
  {
    if events != [] {
      var init, last := events[..|events| - 1], events[|events| - 1];
      assert events == init + [last];
      EveryByteGoesSomewhere(s, init);
      SumOfMore(Added, s, init, last);
      SumOfMore(Named, s, init, last);
      SumOfMore(Dropped, s, init, last);
      FoldMore(Step, s, init, last);
      BalanceMore(SumOf(Added, s, init), SumOf(Named, s, init), SumOf(Dropped, s, init), Run(s, init), last);
    }
  }

  /** The anchor is never anything but zero, whatever happens: re-anchoring never takes place. */
  lemma {:induction false} AnchorIsZero(s: State, events: seq<Event>)
    requires s.base == ZERO
    ensures Run(s, events).base == ZERO
  {
    if events != [] {
      AnchorIsZero(s, events[..|events| - 1]);
    }
  }
}
