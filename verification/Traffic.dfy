// The counters of internal/app/traffic.go, updated by each call.

module Traffic {
  import opened Wrappers
  import opened TrafficSpec

  /** The app's counters and profiles, and what it shows: the profile in the shown state, and whether it is connected. */
  class Meter {
    var base: Bytes
    var session: Bytes
    var total: Bytes
    var pending: Bytes
    var lastPersisted: int
    var shown: string
    var connected: bool
    var profiles: seq<Profile>
    ghost var profile: string
    ghost var flights: seq<Flight>

    ghost function Now(): State
      reads this
    {
      State(base, session, total, pending, lastPersisted, profile, profiles, flights)
    }

    constructor (profiles: seq<Profile>)
      ensures Now() == State(ZERO, ZERO, ZERO, ZERO, 0, "", profiles, []) && shown == "" && !connected
    {
      this.profiles := profiles;
      shown, connected := "", false;
      base, session, total, pending := ZERO, ZERO, ZERO, ZERO;
      lastPersisted, profile, flights := 0, "", [];
    }

    method ProfileTotals(id: string) returns (totals: Bytes)
      ensures totals == TotalsOf(profiles, id)
    {
      var i := 0;
      while i < |profiles|
        invariant 0 <= i <= |profiles|
        invariant TotalsOf(profiles, id) == TotalsOf(profiles[i..], id)
      {
        if profiles[i].id == id { return Bytes(Or0(profiles[i].up), Or0(profiles[i].down)); }
        i := i + 1;
      }
      return ZERO;
    }

    method BeginSession(id: string, now: int)
      modifies this
      ensures shown == old(shown) && connected == old(connected)
      ensures Now() == Begun(old(Now()), id, now)
    {
      var totals := ProfileTotals(id);
      base, session, pending := ZERO, ZERO, ZERO;
      total, profile, lastPersisted := totals, id, now;
    }

    method ResetTraffic()
      modifies this`base, this`session, this`total, this`pending
      ensures Now() == ResetState(old(Now()))
    {
      base, session, total, pending := ZERO, ZERO, ZERO, ZERO;
    }

    /** One sample, taken while holding the counters; whether a save is due. */
    method Count(up: nat, down: nat, now: int) returns (due: bool)
      modifies this`base, this`session, this`total, this`pending
      ensures Now() == Sampled(old(Now()), up, down) && due == Due(Now(), now)
    {
      if up < base.up || down < base.down {
        base := Bytes(up, down);
      }
      var sessionUp, sessionDown := up - base.up, down - base.down;
      var rates := Bytes(SaturatingSub(sessionUp, session.up), SaturatingSub(sessionDown, session.down));
      session := Bytes(sessionUp, sessionDown);
      total := Bytes(total.up + rates.up, total.down + rates.down);
      pending := Bytes(pending.up + rates.up, pending.down + rates.down);
      due := now - lastPersisted >= PERSIST_INTERVAL;
    }

    /** Counters from the core, when nobody interrupts; what they add waits at most so long before a later sample has it taken. */
    method HandleCoreStats(up: int, down: int, now: int)
      modifies this`base, this`session, this`total, this`pending, this`lastPersisted, this`flights
      ensures Now() == Run(old(Now()), Heard(old(Now()), up, down, shown, connected, now))
      ensures connected && up >= 0 && down >= 0 ==> pending == ZERO || !Due(Now(), now)
    {
      if up < 0 || down < 0 { return; }
      var id := shown;
      if !connected { return; }
      RunTwo(Now(), Sample(up, down), Take(id, now));
      var due := Count(up, down, now);
      if due {
        var _ := PersistUsage(id, now);
      }
    }

    /** Up to where persistUsage lets go of the counters; without a profile what it took is thrown away. */
    method PersistUsage(id: string, now: int) returns (bytes: Bytes)
      modifies this`pending, this`lastPersisted, this`flights
      ensures Now() == Taken(old(Now()), id, now) && bytes == old(pending)
      ensures id == "" || bytes == ZERO ==> flights == old(flights)
      ensures id != "" && bytes != ZERO ==> flights == old(flights) + [Flight(id, bytes)]
    {
      bytes := pending;
      pending, lastPersisted := ZERO, now;
      if id == "" || bytes == ZERO { return; }
      flights := flights + [Flight(id, bytes)];
    }

    method FlushUsage(now: int)
      modifies this`pending, this`lastPersisted, this`flights
      ensures Now() == Taken(old(Now()), shown, now)
    {
      var _ := PersistUsage(shown, now);
    }

    /** Adds to the first profile with an id. */
    method AddProfileUsage(id: string, bytes: Bytes)
      modifies this`profiles
      ensures profiles == AddTo(old(profiles), id, bytes)
    {
      ghost var was := profiles;
      var i := 0;
      while i < |profiles|
        invariant 0 <= i <= |profiles| && profiles == was
        invariant AddTo(was, id, bytes) == was[..i] + AddTo(was[i..], id, bytes)
      {
        if profiles[i].id == id {
          Reassemble(was, i, Credited(was[i], bytes));
          profiles := profiles[i := Credited(profiles[i], bytes)];
          return;
        }
        MoveOver(was, i, AddTo(was[i + 1..], id, bytes));
        i := i + 1;
      }
      WholeTaken(was);
    }
  }

  lemma RunTwo(s: State, first: Event, second: Event)
    ensures Run(s, []) == s && Run(s, [first]) == Step(s, first)
    ensures Run(s, [first, second]) == Step(Step(s, first), second)
  {
    assert [first, second][..1] == [first] && [first][..0] == [];
  }

  lemma WholeTaken<T>(s: seq<T>)
    ensures s[..|s|] + [] == s
  {
  }

  lemma Reassemble<T>(s: seq<T>, i: nat, x: T)
    requires i < |s|
    ensures s[..i] + ([x] + s[i..][1..]) == s[i := x]
  {
  }

  lemma MoveOver<T>(s: seq<T>, i: nat, rest: seq<T>)
    requires i < |s|
    ensures s[..i] + ([s[i]] + rest) == s[..i + 1] + rest && s[i..][1..] == s[i + 1..]
  {
  }
}
