// Traffic by program (internal/app/insights.go, countUsage; internal/stats/stats.go,
// AddUsage and Usage): what each look at the open connections adds, and the totals shown.

module UsageSpec {
  import opened Wrappers
  import opened Sequences
  import opened TrafficSpec

  /** An open connection: how much it has carried so far. */
  datatype Open = Open(id: string, app: string, counted: Bytes)

  /** One look: connected and counting, or not. */
  datatype Round = Round(day: string, counting: bool, open: seq<Open>)

  function OpenIn(r: Round): seq<Open> { if r.counting then r.open else [] }

  /** What was added since the last look; a connection whose counts went back is a new one. */
  function Added(previous: Bytes, now: Bytes): Bytes {
    if now.up < previous.up || now.down < previous.down then now
    else Bytes(now.up - previous.up, now.down - previous.down)
  }

  /** The counts kept for the next look. */
  function SeenOf(open: seq<Open>): map<string, Bytes> {
    if open == [] then map[] else SeenOf(open[..|open| - 1])[open[|open| - 1].id := open[|open| - 1].counted]
  }

  function SeenAfter(rounds: seq<Round>): map<string, Bytes> {
    if rounds == [] then map[] else SeenOf(OpenIn(rounds[|rounds| - 1]))
  }

  function Prior(seen: map<string, Bytes>, id: string): Bytes { if id in seen then seen[id] else ZERO }

  function Credit(seen: map<string, Bytes>, o: Open): Bytes { Added(Prior(seen, o.id), o.counted) }

  datatype Direction = Sent | Received

  function Amount(b: Bytes, dir: Direction): nat { if dir.Sent? then b.up else b.down }

  /** What one look credits to a connection. */
  function CreditedIn(seen: map<string, Bytes>, open: seq<Open>, id: string, dir: Direction): nat {
    if open == [] then 0
    else
      var last := open[|open| - 1];
      CreditedIn(seen, open[..|open| - 1], id, dir) + if last.id == id then Amount(Credit(seen, last), dir) else 0
  }

  /** What all the looks credit to it. */
  function Credited(rounds: seq<Round>, id: string, dir: Direction): nat {
    if rounds == [] then 0
    else
      var init := rounds[..|rounds| - 1];
      Credited(init, id, dir) + CreditedIn(SeenAfter(init), OpenIn(rounds[|rounds| - 1]), id, dir)
  }

  // --------------------------------------------------------- what that comes to

  predicate DistinctIds(open: seq<Open>) {
    forall i, j :: 0 <= i < j < |open| ==> open[i].id != open[j].id
  }

  function Reading(r: Round, id: string): Option<Bytes> {
    var seen := SeenOf(OpenIn(r));
    if id in seen then Some(seen[id]) else None
  }

  predicate WentBack(previous: Bytes, now: Bytes) { now.up < previous.up || now.down < previous.down }

  /** The look at k is the last of an unbroken stretch: the next one does not see the connection, or sees less. */
  predicate StretchEnds(rounds: seq<Round>, id: string, k: nat)
    requires k < |rounds|
  {
    && Reading(rounds[k], id).Some?
    && (k + 1 == |rounds| || Reading(rounds[k + 1], id).None?
        || WentBack(Reading(rounds[k], id).value, Reading(rounds[k + 1], id).value))
  }

  function FinalAt(rounds: seq<Round>, id: string, k: nat, dir: Direction): nat
    requires k < |rounds|
  {
    if StretchEnds(rounds, id, k) then Amount(Reading(rounds[k], id).value, dir) else 0
  }

  /** The final counts of the stretches ending before n. */
  function Finals(rounds: seq<Round>, id: string, n: nat, dir: Direction): nat
    requires n <= |rounds|
  {
    if n == 0 then 0 else Finals(rounds, id, n - 1, dir) + FinalAt(rounds, id, n - 1, dir)
  }

  lemma {:induction false} SeenMeans(open: seq<Open>, id: string)
    ensures id in SeenOf(open) <==> exists o <- open :: o.id == id
  {
    if open != [] {
      var init, last := open[..|open| - 1], open[|open| - 1];
      SeenMeans(init, id);
      assert forall o :: o in open <==> o in init || o == last;
    }
  }

  lemma NotSeenBefore(init: seq<Open>, last: Open)
    requires DistinctIds(init + [last])
    ensures last.id !in SeenOf(init) && DistinctIds(init)
  {
    SeenMeans(init, last.id);
    var all := init + [last];
    forall i | 0 <= i < |init|
      ensures init[i].id != last.id
    {
      assert all[i] == init[i] && all[|init|] == last;
    }
    forall i, j | 0 <= i < j < |init|
      ensures init[i].id != init[j].id
    {
      assert all[i] == init[i] && all[j] == init[j];
    }
  }

  lemma {:induction false} CreditedOnce(seen: map<string, Bytes>, open: seq<Open>, id: string, dir: Direction)
    requires DistinctIds(open)
    ensures CreditedIn(seen, open, id, dir) ==
      if id in SeenOf(open) then Amount(Added(Prior(seen, id), SeenOf(open)[id]), dir) else 0
  {
    if open != [] {
      var init, last := open[..|open| - 1], open[|open| - 1];
      Unsnoc(open);
      NotSeenBefore(init, last);
      CreditedOnce(seen, init, id, dir);
    }
  }

  lemma {:induction false} FinalsBefore(rounds: seq<Round>, more: Round, id: string, n: nat, dir: Direction)
    requires n < |rounds|
    ensures Finals(rounds + [more], id, n, dir) == Finals(rounds, id, n, dir)
  {
    if n > 0 {
      FinalsBefore(rounds, more, id, n - 1, dir);
      assert (rounds + [more])[n - 1] == rounds[n - 1] && (rounds + [more])[n] == rounds[n];
    }
  }

  /** What one look credits, from readings alone. */
  function Step(before: Option<Bytes>, now: Option<Bytes>, dir: Direction): nat {
    if now.None? then 0 else Amount(Added(if before.Some? then before.value else ZERO, now.value), dir)
  }

  lemma StepMeans(seen: map<string, Bytes>, before: Option<Bytes>, last: Round, id: string, dir: Direction)
    requires DistinctIds(OpenIn(last)) && before == if id in seen then Some(seen[id]) else None
    ensures CreditedIn(seen, OpenIn(last), id, dir) == Step(before, Reading(last, id), dir)
  {
    CreditedOnce(seen, OpenIn(last), id, dir);
  }

  /** One more look goes on with the stretch before it, or begins another. */
  lemma LastLook(init: seq<Round>, last: Round, id: string, dir: Direction)
    requires init != []
    ensures var all, k := init + [last], |init| - 1;
      FinalAt(init, id, k, dir) + Step(Reading(init[k], id), Reading(last, id), dir)
      == FinalAt(all, id, k, dir) + FinalAt(all, id, k + 1, dir)
  {
    var all, k := init + [last], |init| - 1;
    assert all[k] == init[k] && all[k + 1] == last;
  }

  /**
   * Over any looks, what a connection is credited with is the final count of
   * each unbroken stretch it was seen for: nothing while it is seen is lost or
   * counted twice.
   */
  lemma {:induction false} CreditsAreFinals(rounds: seq<Round>, id: string, dir: Direction)
    requires forall r <- rounds :: DistinctIds(OpenIn(r))
    ensures Credited(rounds, id, dir) == Finals(rounds, id, |rounds|, dir)
  {
    if rounds != [] {
      var init, last := rounds[..|rounds| - 1], rounds[|rounds| - 1];
      assert last in rounds && forall r <- init :: r in rounds;
      CreditsAreFinals(init, id, dir);
      OneMoreLook(init, last, id, dir);
      Unsnoc(rounds);
    }
  }

  lemma CreditedMore(init: seq<Round>, last: Round, id: string, dir: Direction)
    ensures Credited(init + [last], id, dir) == Credited(init, id, dir) + CreditedIn(SeenAfter(init), OpenIn(last), id, dir)
  {
    assert (init + [last])[..|init|] == init;
  }

  lemma OneMoreLook(init: seq<Round>, last: Round, id: string, dir: Direction)
    requires DistinctIds(OpenIn(last)) && Credited(init, id, dir) == Finals(init, id, |init|, dir)
    ensures Credited(init + [last], id, dir) == Finals(init + [last], id, |init| + 1, dir)
  {
    CreditedMore(init, last, id, dir);
    if init != [] {
      StepMeans(SeenAfter(init), Reading(init[|init| - 1], id), last, id, dir);
      FinalsMore(init, last, id, dir);
    } else {
      StepMeans(map[], None, last, id, dir);
      assert init + [last] == [last];
      assert Finals([last], id, 1, dir) == Finals([last], id, 0, dir) + FinalAt([last], id, 0, dir);
    }
  }

  lemma FinalsMore(init: seq<Round>, last: Round, id: string, dir: Direction)
    requires init != []
    ensures Finals(init + [last], id, |init| + 1, dir)
      == Finals(init, id, |init|, dir) + Step(Reading(init[|init| - 1], id), Reading(last, id), dir)
  {
    FinalsBefore(init, last, id, |init| - 1, dir);
    LastLook(init, last, id, dir);
    assert Finals(init + [last], id, |init|, dir)
      == Finals(init + [last], id, |init| - 1, dir) + FinalAt(init + [last], id, |init| - 1, dir);
  }

  lemma {:induction false} FinalsZero(rounds: seq<Round>, id: string, n: nat, dir: Direction)
    requires n <= |rounds|
    ensures Finals(rounds, id, n, dir) == 0 <==> forall k: nat :: k < n ==> FinalAt(rounds, id, k, dir) == 0
  {
    if n > 0 {
      FinalsZero(rounds, id, n - 1, dir);
    }
  }

  /**
   * A connection still open is counted exactly once, or some earlier stretch
   * of it ended with bytes on it: counting was switched off and on again, or a
   * look missed the connection, and what it had carried is counted again.
   */
  lemma CountedOnce(rounds: seq<Round>, id: string, dir: Direction)
    requires rounds != [] && forall r <- rounds :: DistinctIds(OpenIn(r))
    requires Reading(rounds[|rounds| - 1], id).Some?
    ensures Credited(rounds, id, dir) == Amount(Reading(rounds[|rounds| - 1], id).value, dir)
      <==> forall k: nat :: k < |rounds| - 1 ==> FinalAt(rounds, id, k, dir) == 0
  {
    var n := |rounds| - 1;
    CreditsAreFinals(rounds, id, dir);
    FinalsZero(rounds, id, n, dir);
    LastIsFinal(rounds, id, dir);
  }

  lemma LastIsFinal(rounds: seq<Round>, id: string, dir: Direction)
    requires rounds != [] && Reading(rounds[|rounds| - 1], id).Some?
    ensures Finals(rounds, id, |rounds|, dir)
      == Finals(rounds, id, |rounds| - 1, dir) + Amount(Reading(rounds[|rounds| - 1], id).value, dir)
  {
  }

  /** Switching the statistics off and on while something is open counts it twice. */
  lemma SwitchingCountsTwice(day: string, o: Open, dir: Direction)
    ensures Credited([Round(day, true, [o]), Round(day, false, []), Round(day, true, [o])], o.id, dir)
      == 2 * Amount(o.counted, dir)
  {
    var first, off := Round(day, true, [o]), Round(day, false, []);
    var rounds := [first, off, first];
    forall r <- rounds ensures DistinctIds(OpenIn(r)) {}
    CreditsAreFinals(rounds, o.id, dir);
    assert SeenOf([o]) == map[o.id := o.counted] by { assert [o][..0] == []; }
    assert Finals(rounds, o.id, 1, dir) == Amount(o.counted, dir);
    assert Finals(rounds, o.id, 2, dir) == Amount(o.counted, dir);
  }

  // -------------------------------------------------------------- by program

  /** Bytes by day and program. */
  type Ledger = map<string, map<string, Bytes>>

  function DayOf(usage: Ledger, day: string): map<string, Bytes> { if day in usage then usage[day] else map[] }

  function More(counters: map<string, Bytes>, program: string, b: Bytes): map<string, Bytes> {
    counters[program := Plus(Prior(counters, program), b)]
  }

  function Entered(usage: Ledger, day: string, program: string, b: Bytes): Ledger {
    if b == ZERO then usage else usage[day := More(DayOf(usage, day), program, b)]
  }

  function EnteredAll(usage: Ledger, seen: map<string, Bytes>, day: string, open: seq<Open>): Ledger {
    if open == [] then usage
    else
      var last := open[|open| - 1];
      Entered(EnteredAll(usage, seen, day, open[..|open| - 1]), day, last.app, Credit(seen, last))
  }

  /** The ledger after some looks, starting from nothing. */
  function LedgerAfter(rounds: seq<Round>): Ledger {
    if rounds == [] then map[]
    else
      var init, last := rounds[..|rounds| - 1], rounds[|rounds| - 1];
      EnteredAll(LedgerAfter(init), SeenAfter(init), last.day, OpenIn(last))
  }

  /** All the counters of a day, or of a list of programs, together. */
  ghost function Sum(counters: map<string, Bytes>, dir: Direction): nat {
    if counters == map[] then 0
    else
      var program :| program in counters;
      Amount(counters[program], dir) + Sum(counters - {program}, dir)
  }

  lemma {:induction false} SumWithout(counters: map<string, Bytes>, program: string, dir: Direction)
    requires program in counters
    ensures Sum(counters, dir) == Amount(counters[program], dir) + Sum(counters - {program}, dir)
    decreases |counters|
  {
    var first :| first in counters && Sum(counters, dir) == Amount(counters[first], dir) + Sum(counters - {first}, dir);
    if first != program {
      SumWithout(counters - {first}, program, dir);
      SumWithout(counters - {program}, first, dir);
      assert counters - {first} - {program} == counters - {program} - {first};
    }
  }

  lemma MoreWithout(counters: map<string, Bytes>, program: string, b: Bytes)
    ensures More(counters, program, b) - {program} == counters - {program}
    ensures program !in counters ==> counters - {program} == counters
  {
  }

  /** Crediting one program raises the sum by what was credited, and no more. */
  lemma SumMore(counters: map<string, Bytes>, program: string, b: Bytes, dir: Direction)
    ensures Sum(More(counters, program, b), dir) == Sum(counters, dir) + Amount(b, dir)
  {
    SumWithout(More(counters, program, b), program, dir);
    MoreWithout(counters, program, b);
    if program in counters {
      SumWithout(counters, program, dir);
    }
  }

  /** What all the connections of a look are credited with. */
  function CreditsOf(seen: map<string, Bytes>, open: seq<Open>, dir: Direction): nat {
    if open == [] then 0
    else CreditsOf(seen, open[..|open| - 1], dir) + Amount(Credit(seen, open[|open| - 1]), dir)
  }

  lemma EnteredSum(usage: Ledger, day: string, program: string, b: Bytes, other: string, dir: Direction)
    ensures Sum(DayOf(Entered(usage, day, program, b), other), dir) ==
      Sum(DayOf(usage, other), dir) + if other == day then Amount(b, dir) else 0
  {
    SumMore(DayOf(usage, day), program, b, dir);
  }

  lemma {:induction false} EnteredAllSum(
      usage: Ledger, seen: map<string, Bytes>, day: string, open: seq<Open>, other: string, dir: Direction)
    ensures Sum(DayOf(EnteredAll(usage, seen, day, open), other), dir) ==
      Sum(DayOf(usage, other), dir) + if other == day then CreditsOf(seen, open, dir) else 0
  {
    if open != [] {
      var init, last := open[..|open| - 1], open[|open| - 1];
      EnteredAllSum(usage, seen, day, init, other, dir);
      EnteredSum(EnteredAll(usage, seen, day, init), day, last.app, Credit(seen, last), other, dir);
    }
  }

  /** What the looks on a day credited, to any connection. */
  function CreditedOn(rounds: seq<Round>, day: string, dir: Direction): nat {
    if rounds == [] then 0
    else
      var init, last := rounds[..|rounds| - 1], rounds[|rounds| - 1];
      CreditedOn(init, day, dir) + if last.day == day then CreditsOf(SeenAfter(init), OpenIn(last), dir) else 0
  }

  /** Each day's counters hold, together, what that day's looks credited. */
  lemma {:induction false} LedgerHoldsCredits(rounds: seq<Round>, day: string, dir: Direction)
    ensures Sum(DayOf(LedgerAfter(rounds), day), dir) == CreditedOn(rounds, day, dir)
  {
    if rounds != [] {
      var init, last := rounds[..|rounds| - 1], rounds[|rounds| - 1];
      LedgerHoldsCredits(init, day, dir);
      EnteredAllSum(LedgerAfter(init), SeenAfter(init), last.day, OpenIn(last), day, dir);
    }
  }

  // ------------------------------------------------------------------ the totals

  function ProgramTotal(usage: Ledger, days: seq<string>, program: string, dir: Direction): nat {
    if days == [] then 0
    else
      var last := days[|days| - 1];
      ProgramTotal(usage, days[..|days| - 1], program, dir) + Amount(Prior(DayOf(usage, last), program), dir)
  }

  predicate Mentioned(usage: Ledger, days: seq<string>, program: string) {
    exists day <- days :: program in DayOf(usage, day)
  }

  function Together(daily: seq<Bytes>, dir: Direction): nat {
    if daily == [] then 0 else Together(daily[..|daily| - 1], dir) + Amount(daily[|daily| - 1], dir)
  }
}
