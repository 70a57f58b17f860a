// The counting loops of internal/app/insights.go and internal/stats/stats.go.

module Usage {
  import opened Wrappers
  import opened TrafficSpec
  import opened UsageSpec

  /** The statistics, and each connection's counts at the last look. */
  class Counter {
    var usage: Ledger
    var seen: map<string, Bytes>

    constructor ()
      ensures usage == map[] && seen == map[]
    {
      usage, seen := map[], map[];
    }

    method AddUsage(day: string, program: string, b: Bytes)
      modifies this`usage
      ensures usage == Entered(old(usage), day, program, b)
    {
      if b.up == 0 && b.down == 0 { return; }
      if day !in usage { usage := usage[day := map[]]; }
      if program !in usage[day] { usage := usage[day := usage[day][program := ZERO]]; }
      var counter := usage[day][program];
      usage := usage[day := usage[day][program := Bytes(counter.up + b.up, counter.down + b.down)]];
      assert usage[day] == More(DayOf(old(usage), day), program, b);
    }

    /** What one connection added since the last look. */
    method CountOne(day: string, o: Open)
      modifies this`usage
      ensures usage == Entered(old(usage), day, o.app, UsageSpec.Credit(seen, o))
    {
      var previous := if o.id in seen then seen[o.id] else ZERO;
      var up, down := o.counted.up as int - previous.up, o.counted.down as int - previous.down;
      if up < 0 || down < 0 {
        up, down := o.counted.up, o.counted.down;
      }
      AddUsage(day, o.app, Bytes(up, down));
    }

    /** One look; when not counting, what was seen is forgotten. */
    method CountUsage(r: Round)
      modifies this
      ensures usage == EnteredAll(old(usage), old(seen), r.day, OpenIn(r))
      ensures seen == SeenOf(OpenIn(r))
    {
      if !r.counting {
        seen := map[];
        return;
      }
      var next: map<string, Bytes> := map[];
      for i := 0 to |r.open|
        invariant seen == old(seen) && next == SeenOf(r.open[..i])
        invariant usage == EnteredAll(old(usage), old(seen), r.day, r.open[..i])
      {
        OneMoreOpen(old(usage), seen, r.day, r.open, i);
        CountOne(r.day, r.open[i]);
        next := next[r.open[i].id := r.open[i].counted];
      }
      assert r.open[..|r.open|] == r.open;
      seen := next;
    }

    /** From a fresh start, look after look. */
    method CountAll(rounds: seq<Round>)
      requires usage == map[] && seen == map[]
      modifies this
      ensures usage == LedgerAfter(rounds) && seen == SeenAfter(rounds)
      ensures forall day, dir :: Sum(DayOf(usage, day), dir) == CreditedOn(rounds, day, dir)
    {
      for i := 0 to |rounds|
        invariant usage == LedgerAfter(rounds[..i]) && seen == SeenAfter(rounds[..i])
      {
        assert rounds[..i + 1][..i] == rounds[..i];
        CountUsage(rounds[i]);
      }
      assert rounds[..|rounds|] == rounds;
      forall day, dir
        ensures Sum(DayOf(usage, day), dir) == CreditedOn(rounds, day, dir)
      {
        LedgerHoldsCredits(rounds, day, dir);
      }
    }
  }

  lemma OneMoreOpen(usage: Ledger, seen: map<string, Bytes>, day: string, open: seq<Open>, i: nat)
    requires i < |open|
    ensures EnteredAll(usage, seen, day, open[..i + 1])
      == Entered(EnteredAll(usage, seen, day, open[..i]), day, open[i].app, UsageSpec.Credit(seen, open[i]))
    ensures SeenOf(open[..i + 1]) == SeenOf(open[..i])[open[i].id := open[i].counted]
  {
    assert open[..i + 1][..i] == open[..i];
  }

  /** A program's counters, here and there. */
  function Both(a: map<string, Bytes>, b: map<string, Bytes>, program: string, dir: Direction): nat {
    Amount(Prior(a, program), dir) + Amount(Prior(b, program), dir)
  }

  /** What is still to be added and what has been, together what there was. */
  ghost predicate Conserved(
      totals: map<string, Bytes>, rest: map<string, Bytes>, day: Bytes, before: map<string, Bytes>, counters: map<string, Bytes>)
  {
    && (forall p :: p in totals || p in rest <==> p in before || p in counters)
    && (forall p, dir :: Both(totals, rest, p, dir) == Both(before, counters, p, dir))
    && (forall dir :: Amount(day, dir) + Sum(rest, dir) == Sum(counters, dir))
    && (forall dir :: Sum(totals, dir) + Sum(rest, dir) == Sum(before, dir) + Sum(counters, dir))
  }

  lemma Moved(
      totals: map<string, Bytes>, rest: map<string, Bytes>, day: Bytes, before: map<string, Bytes>, counters: map<string, Bytes>,
      program: string)
    requires Conserved(totals, rest, day, before, counters) && program in rest
    ensures Conserved(More(totals, program, rest[program]), rest - {program}, Plus(day, rest[program]), before, counters)
  {
    var more, less := More(totals, program, rest[program]), rest - {program};
    forall dir
      ensures Sum(rest, dir) == Sum(less, dir) + Amount(rest[program], dir)
      ensures Sum(more, dir) == Sum(totals, dir) + Amount(rest[program], dir)
    {
      SumWithout(rest, program, dir);
      SumMore(totals, program, rest[program], dir);
    }
    forall p, dir
      ensures Both(more, less, p, dir) == Both(totals, rest, p, dir)
    {
    }
    forall p
      ensures p in more || p in less <==> p in totals || p in rest
    {
    }
  }

  /** One day's counters, added to the totals by program; the day's own total. */
  method AddDay(counters: map<string, Bytes>, before: map<string, Bytes>) returns (totals: map<string, Bytes>, day: Bytes)
    ensures forall p :: p in totals <==> p in before || p in counters
    ensures forall p, dir :: Amount(Prior(totals, p), dir) == Both(before, counters, p, dir)
    ensures forall dir :: Amount(day, dir) == Sum(counters, dir) && Sum(totals, dir) == Sum(before, dir) + Sum(counters, dir)
  {
    totals, day := before, ZERO;
    var rest := counters;
    while rest != map[]
      invariant Conserved(totals, rest, day, before, counters)
      decreases |rest|
    {
      var p :| p in rest;
      Moved(totals, rest, day, before, counters, p);
      day := Plus(day, rest[p]);
      totals := totals[p := Plus(if p in totals then totals[p] else ZERO, rest[p])];
      rest := rest - {p};
    }
    forall p, dir
      ensures Amount(Prior(totals, p), dir) == Both(before, counters, p, dir)
    {
      assert Both(totals, rest, p, dir) == Both(before, counters, p, dir);
    }
  }

  /**
   * Traffic over some days, by program and by day: the two ways of looking at
   * it come to the same bytes.
   */
  method Totals(usage: Ledger, days: seq<string>) returns (totals: map<string, Bytes>, daily: seq<Bytes>)
    ensures |daily| == |days|
    ensures forall k, dir :: 0 <= k < |days| ==> Amount(daily[k], dir) == Sum(DayOf(usage, days[k]), dir)
    ensures forall p :: p in totals <==> Mentioned(usage, days, p)
    ensures forall p, dir :: Amount(Prior(totals, p), dir) == ProgramTotal(usage, days, p, dir)
    ensures forall dir :: Sum(totals, dir) == Together(daily, dir)
  {
    totals, daily := map[], [];
    for i := 0 to |days|
      invariant Shown(usage, days[..i], totals, daily)
    {
      var added, day := AddDay(DayOf(usage, days[i]), totals);
      OneMoreDay(usage, days[..i], days[i], totals, daily, added, day);
      assert days[..i + 1] == days[..i] + [days[i]];
      totals, daily := added, daily + [day];
    }
    assert days[..|days|] == days;
  }

  /** What is shown for some days. */
  ghost predicate Shown(usage: Ledger, days: seq<string>, totals: map<string, Bytes>, daily: seq<Bytes>) {
    && |daily| == |days|
    && (forall k, dir :: 0 <= k < |days| ==> Amount(daily[k], dir) == Sum(DayOf(usage, days[k]), dir))
    && (forall p :: p in totals <==> Mentioned(usage, days, p))
    && (forall p, dir :: Amount(Prior(totals, p), dir) == ProgramTotal(usage, days, p, dir))
    && (forall dir :: Sum(totals, dir) == Together(daily, dir))
  }

  lemma OneMoreDay(
      usage: Ledger, days: seq<string>, last: string, totals: map<string, Bytes>, daily: seq<Bytes>,
      added: map<string, Bytes>, day: Bytes)
    requires Shown(usage, days, totals, daily)
    requires forall p :: p in added <==> p in totals || p in DayOf(usage, last)
    requires forall p, dir :: Amount(Prior(added, p), dir) == Both(totals, DayOf(usage, last), p, dir)
    requires forall dir :: Amount(day, dir) == Sum(DayOf(usage, last), dir)
    requires forall dir :: Sum(added, dir) == Sum(totals, dir) + Sum(DayOf(usage, last), dir)
    ensures Shown(usage, days + [last], added, daily + [day])
  {
    MentionedMore(usage, days, last);
    assert (days + [last])[..|days|] == days && (daily + [day])[..|daily|] == daily;
    forall p, dir
      ensures Amount(Prior(added, p), dir) == ProgramTotal(usage, days + [last], p, dir)
    {
      assert Amount(Prior(totals, p), dir) == ProgramTotal(usage, days, p, dir);
      assert Amount(Prior(added, p), dir) == Both(totals, DayOf(usage, last), p, dir);
    }
  }

  lemma MentionedMore(usage: Ledger, days: seq<string>, day: string)
    ensures forall p :: Mentioned(usage, days + [day], p) <==> Mentioned(usage, days, p) || p in DayOf(usage, day)
  {
    assert forall d :: d in days + [day] <==> d in days || d == day;
    forall p | p in DayOf(usage, day)
      ensures Mentioned(usage, days + [day], p)
    {
      assert day in days + [day];
    }
  }
}
