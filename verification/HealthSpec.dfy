// What the app remembers of each server (internal/stats/stats.go): bounded
// histories in time order, pruned by binary search.

module HealthSpec {
  import opened Wrappers
  import opened Sequences

  const PER_HOST := 600
  const DAY := 24 * 60 * 60
  const WEEK := 7 * DAY

  datatype Kind = Ping | Connect | Drop

  /** at is unix seconds; ms is -1 for a failure. */
  datatype Sample = Sample(at: int, kind: Kind, ms: int)

  predicate Good(s: Sample) { s.ms >= 0 && !s.kind.Drop? }

  predicate InOrder(samples: seq<Sample>) {
    forall i, j :: 0 <= i < j < |samples| ==> samples[i].at <= samples[j].at
  }

  function Newest(samples: seq<Sample>): (r: seq<Sample>)
    ensures |r| <= PER_HOST && |r| <= |samples|
  {
    if |samples| > PER_HOST then samples[|samples| - PER_HOST..] else samples
  }

  /** A sample goes after everything not later than it. */
  function Insert(samples: seq<Sample>, s: Sample): (r: seq<Sample>)
    ensures |r| == |samples| + 1
  {
    if samples == [] || samples[|samples| - 1].at <= s.at then samples + [s]
    else Insert(samples[..|samples| - 1], s) + [samples[|samples| - 1]]
  }

  /** Everything from k on is later, and what comes just before is not. */
  predicate Divides(samples: seq<Sample>, at: int, k: nat) {
    k <= |samples| && (forall i :: k <= i < |samples| ==> samples[i].at > at) && (k > 0 ==> samples[k - 1].at <= at)
  }

  function InsertAt(samples: seq<Sample>, s: Sample, k: nat): (r: seq<Sample>)
    requires k <= |samples|
    ensures |r| == |samples| + 1
  {
    samples[..k] + [s] + samples[k..]
  }

  lemma InsertShorter(samples: seq<Sample>, s: Sample, k: nat)
    requires k < |samples|
    ensures InsertAt(samples[..|samples| - 1], s, k) + [samples[|samples| - 1]] == InsertAt(samples, s, k)
  {
  }

  lemma InsertLast(samples: seq<Sample>, s: Sample)
    ensures InsertAt(samples, s, |samples|) == samples + [s]
  {
  }

  lemma {:induction false} InsertIsAt(samples: seq<Sample>, s: Sample, k: nat)
    requires Divides(samples, s.at, k)
    ensures Insert(samples, s) == InsertAt(samples, s, k)
  {
    if k == |samples| {
      InsertLast(samples, s);
    } else {
      InsertShorter(samples, s, k);
      InsertIsAt(samples[..|samples| - 1], s, k);
    }
  }

  lemma {:induction false} Divider(samples: seq<Sample>, at: int) returns (k: nat)
    ensures Divides(samples, at, k)
  {
    if samples == [] || samples[|samples| - 1].at <= at {
      k := |samples|;
    } else {
      k := Divider(samples[..|samples| - 1], at);
    }
  }

  function Recorded(samples: seq<Sample>, s: Sample): seq<Sample> { Newest(Insert(samples, s)) }

  /** A server's history after observations in the order they arrived. */
  function History(arrived: seq<Sample>): (r: seq<Sample>)
    ensures |r| <= PER_HOST
  {
    if arrived == [] then [] else Recorded(History(arrived[..|arrived| - 1]), arrived[|arrived| - 1])
  }

  // ---------------------------------------------------------------- by time

  /** All the observations, in time order, those of one moment as they arrived. */
  function ByTime(arrived: seq<Sample>): seq<Sample> {
    if arrived == [] then [] else Insert(ByTime(arrived[..|arrived| - 1]), arrived[|arrived| - 1])
  }

  function AtMoment(samples: seq<Sample>, at: int): seq<Sample> {
    Collect((s: Sample) => if s.at == at then Some(s) else None, samples)
  }

  lemma {:induction false} CollectNone<S, T>(accept: S -> Option<T>, values: seq<S>)
    requires forall v <- values :: accept(v).None?
    ensures Collect(accept, values) == []
  {
    if values != [] {
      assert values[|values| - 1] in values;
      CollectNone(accept, values[..|values| - 1]);
    }
  }

  lemma InOrderAt(samples: seq<Sample>, s: Sample, k: nat)
    requires InOrder(samples) && Divides(samples, s.at, k)
    ensures InOrder(InsertAt(samples, s, k))
  {
    var r := InsertAt(samples, s, k);
    assert forall i :: 0 <= i < k ==> r[i] == samples[i] && samples[i].at <= s.at;
    assert r[k] == s;
    assert forall i :: k < i < |r| ==> r[i] == samples[i - 1] && samples[i - 1].at > s.at;
  }

  lemma InsertInOrder(samples: seq<Sample>, s: Sample)
    requires InOrder(samples)
    ensures InOrder(Insert(samples, s))
  {
    var k := Divider(samples, s.at);
    InsertIsAt(samples, s, k);
    InOrderAt(samples, s, k);
  }

  lemma InsertStable(samples: seq<Sample>, s: Sample, at: int)
    requires InOrder(samples)
    ensures AtMoment(Insert(samples, s), at) == AtMoment(samples, at) + if s.at == at then [s] else []
  {
    var k := Divider(samples, s.at);
    InsertIsAt(samples, s, k);
    SplitStable(samples, s, at, k);
  }

  lemma SplitStable(samples: seq<Sample>, s: Sample, at: int, k: nat)
    requires Divides(samples, s.at, k)
    ensures AtMoment(InsertAt(samples, s, k), at) == AtMoment(samples, at) + if s.at == at then [s] else []
  {
    var keep := (x: Sample) => if x.at == at then Some(x) else None;
    var before, after := samples[..k], samples[k..];
    CollectAppend(keep, before, after);
    CollectAppend(keep, before + [s], after);
    CollectAppend(keep, before, [s]);
    Halves(samples, k);
    CollectOne(keep, s);
    if s.at == at {
      assert forall v <- after :: v.at > at;
      CollectNone(keep, after);
    }
    LastOfTwo(Collect(keep, before), Collect(keep, [s]), Collect(keep, after));
  }

  lemma LastOfTwo<T>(a: seq<T>, x: seq<T>, b: seq<T>)
    requires x == [] || b == []
    ensures a + x + b == a + b + x
  {
  }

  lemma Halves<T>(s: seq<T>, k: nat)
    requires k <= |s|
    ensures s[..k] + s[k..] == s
  {
  }

  /** ByTime is the arrivals in time order, and among those of one moment in the order they came. */
  lemma {:induction false} ByTimeSortsStably(arrived: seq<Sample>, at: int)
    ensures InOrder(ByTime(arrived)) && |ByTime(arrived)| == |arrived|
    ensures AtMoment(ByTime(arrived), at) == AtMoment(arrived, at)
  {
    if arrived != [] {
      var init, last := arrived[..|arrived| - 1], arrived[|arrived| - 1];
      ByTimeSortsStably(init, at);
      InsertInOrder(ByTime(init), last);
      InsertStable(ByTime(init), last, at);
    }
  }

  // ------------------------------------------------------------ the newest 600

  lemma DividesKept(all: seq<Sample>, m: nat, at: int, k: nat)
    requires m <= |all| && Divides(all, at, k)
    ensures Divides(all[m..], at, if k > m then k - m else 0)
  {
    assert forall i :: 0 <= i < |all| - m ==> all[m..][i] == all[i + m];
  }

  lemma LateSlice(all: seq<Sample>, m: nat, s: Sample, k: nat)
    requires m < k <= |all|
    ensures InsertAt(all, s, k)[m + 1..] == InsertAt(all[m..], s, k - m)[1..]
  {
  }

  lemma EarlySlice(all: seq<Sample>, m: nat, s: Sample, k: nat)
    requires k <= m <= |all|
    ensures InsertAt(all, s, k)[m + 1..] == all[m..] == InsertAt(all[m..], s, 0)[1..]
  {
  }

  /** Where a sample goes among the newest, when it goes at k among all. */
  function KeptPlace(all: seq<Sample>, k: nat): (j: nat)
    requires |all| > PER_HOST && k <= |all|
    ensures j <= PER_HOST
  {
    if k > |all| - PER_HOST then k - (|all| - PER_HOST) else 0
  }

  lemma NewestAt(all: seq<Sample>, s: Sample, k: nat)
    requires |all| > PER_HOST && k <= |all|
    ensures Newest(InsertAt(Newest(all), s, KeptPlace(all, k))) == Newest(InsertAt(all, s, k))
  {
    var m := |all| - PER_HOST;
    if k > m {
      LateSlice(all, m, s, k);
    } else {
      EarlySlice(all, m, s, k);
    }
  }

  lemma InsertsAmongNewest(all: seq<Sample>, s: Sample) returns (k: nat)
    requires |all| > PER_HOST
    ensures k <= |all| && Insert(all, s) == InsertAt(all, s, k)
    ensures Insert(Newest(all), s) == InsertAt(Newest(all), s, KeptPlace(all, k))
  {
    k := Divider(all, s.at);
    DividesKept(all, |all| - PER_HOST, s.at, k);
    InsertIsAt(all, s, k);
    InsertIsAt(Newest(all), s, KeptPlace(all, k));
  }

  /** Forgetting the oldest before or after a new observation comes to the same. */
  lemma NewestInsert(all: seq<Sample>, s: Sample)
    ensures Newest(Insert(Newest(all), s)) == Newest(Insert(all, s))
  {
    if |all| > PER_HOST {
      var k := InsertsAmongNewest(all, s);
      NewestAt(all, s, k);
    }
  }

  /** Whatever order observations come in, a history is exactly the newest of them in time order. */
  lemma {:induction false} HistoryIsNewest(arrived: seq<Sample>)
    ensures History(arrived) == Newest(ByTime(arrived))
    ensures InOrder(History(arrived))
  {
    ByTimeSortsStably(arrived, 0);
    if arrived != [] {
      var init, last := arrived[..|arrived| - 1], arrived[|arrived| - 1];
      HistoryIsNewest(init);
      NewestInsert(ByTime(init), last);
    }
  }

  // ------------------------------------------------------------------ pruning

  /** The first sample not older than a moment. */
  function FirstSince(samples: seq<Sample>, since: int): (k: nat)
    ensures k <= |samples|
    ensures forall i :: 0 <= i < k ==> samples[i].at < since
    ensures k < |samples| ==> samples[k].at >= since
  {
    if samples == [] || samples[0].at >= since then 0
    else
      var rest := FirstSince(samples[1..], since);
      assert forall i :: 1 <= i < rest + 1 ==> samples[i] == samples[1..][i - 1];
      rest + 1
  }

  lemma FirstIsUnique(samples: seq<Sample>, since: int, k: nat)
    requires k <= |samples| && forall i :: 0 <= i < k ==> samples[i].at < since
    requires k < |samples| ==> samples[k].at >= since
    ensures FirstSince(samples, since) == k
  {
    var first := FirstSince(samples, since);
    assert !(first < k) && !(k < first);
  }

  function Pruned(samples: seq<Sample>, now: int): seq<Sample> {
    Newest(samples[FirstSince(samples, now - WEEK)..])
  }

  function Since(samples: seq<Sample>, since: int): seq<Sample> {
    Collect((s: Sample) => if s.at >= since then Some(s) else None, samples)
  }

  // ------------------------------------------------------------------- summary

  function GoodOnes(samples: seq<Sample>): seq<Sample> {
    Collect((s: Sample) => if Good(s) then Some(s) else None, samples)
  }

  function Latencies(samples: seq<Sample>): seq<int> {
    Collect((s: Sample) => if s.kind.Ping? && s.ms >= 0 then Some(s.ms) else None, samples)
  }

  function InsertSorted(sorted: seq<int>, x: int): (r: seq<int>)
    ensures |r| == |sorted| + 1
  {
    if sorted == [] || x < sorted[0] then [x] + sorted else [sorted[0]] + InsertSorted(sorted[1..], x)
  }

  function SortedInts(values: seq<int>): (r: seq<int>)
    ensures |r| == |values|
  {
    if values == [] then [] else InsertSorted(SortedInts(values[..|values| - 1]), values[|values| - 1])
  }

  /** The share of checks that succeeded; -1 when there were none. */
  function Share(samples: seq<Sample>): real {
    if samples == [] then -1.0 else |GoodOnes(samples)| as real / |samples| as real
  }

  function Median(values: seq<int>): int {
    if values == [] then 0 else SortedInts(values)[|values| / 2]
  }

  /** The last three checks failed, the latest within twelve hours. */
  predicate Failing(samples: seq<Sample>, now: int) {
    && |samples| >= 3 && samples[|samples| - 1].at >= now - DAY / 2
    && forall s <- samples[|samples| - 3..] :: !Good(s)
  }

  datatype Health = Health(uptimeDay: real, uptimeWeek: real, latency: int, checks: nat, failing: bool, recent: seq<Sample>)

  function HealthOf(samples: seq<Sample>, now: int): Health {
    var week, day := Since(samples, now - WEEK), Since(samples, now - DAY);
    Health(Share(day), Share(week), Median(Latencies(day)), |week|, Failing(samples, now), day)
  }

  lemma SinceKeeps(samples: seq<Sample>, cut: nat, since: int)
    requires cut <= |samples| && forall i :: 0 <= i < cut ==> samples[i].at < since
    ensures Since(samples[cut..], since) == Since(samples, since)
  {
    var keep := (s: Sample) => if s.at >= since then Some(s) else None;
    Halves(samples, cut);
    CollectAppend(keep, samples[..cut], samples[cut..]);
    CollectNone(keep, samples[..cut]);
  }

  lemma PrunedIsSuffix(samples: seq<Sample>, now: int)
    requires InOrder(samples) && |samples| <= PER_HOST
    ensures var cut := FirstSince(samples, now - WEEK);
      Pruned(samples, now) == samples[cut..] && forall i :: 0 <= i < cut ==> samples[i].at < now - WEEK
  {
  }

  /**
   * Pruning loses nothing anyone looks at: at that or any later time a server's
   * uptime, latency, check count and recent samples are what they were, and
   * only its failing mark can go, exactly when fewer than three samples remain.
   */
  lemma PruningIsUnseen(samples: seq<Sample>, now: int, later: int)
    requires InOrder(samples) && |samples| <= PER_HOST && now <= later
    ensures var kept := Pruned(samples, now);
      HealthOf(kept, later) == HealthOf(samples, later).(failing := HealthOf(samples, later).failing && |kept| >= 3)
  {
    PrunedIsSuffix(samples, now);
    var cut := FirstSince(samples, now - WEEK);
    SinceKeeps(samples, cut, later - WEEK);
    SinceKeeps(samples, cut, later - DAY);
    FailingOfSuffix(samples, cut, later);
  }

  lemma FailingOfSuffix(samples: seq<Sample>, cut: nat, now: int)
    requires cut <= |samples|
    ensures Failing(samples[cut..], now) <==> Failing(samples, now) && |samples| - cut >= 3
  {
    if |samples| - cut >= 3 {
      assert samples[cut..][|samples| - cut - 3..] == samples[|samples| - 3..];
    }
  }

  /** Every history the store keeps is one pruning is safe for. */
  lemma HistoriesPrune(arrived: seq<Sample>, now: int, later: int)
    requires now <= later
    ensures var all, kept := History(arrived), Pruned(History(arrived), now);
      HealthOf(kept, later) == HealthOf(all, later).(failing := HealthOf(all, later).failing && |kept| >= 3)
  {
    HistoryIsNewest(arrived);
    PruningIsUnseen(History(arrived), now, later);
  }
}
