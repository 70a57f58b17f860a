// The store of histories (internal/stats/stats.go), inserted into and cut in place.

module HealthStore {
  import opened Wrappers
  import opened Sequences
  import opened HealthSpec

  /** Counters over the samples of a period. */
  class Tally {
    var good: nat
    var all: nat
    var latencies: seq<int>
    var seen: seq<Sample>

    predicate Counts(samples: seq<Sample>)
      reads this
    {
      seen == samples && all == |samples| && good == |GoodOnes(samples)| && latencies == Latencies(samples)
    }

    constructor ()
      ensures Counts([])
    {
      good, all, latencies, seen := 0, 0, [], [];
    }

    method Add(s: Sample)
      requires Counts(seen)
      modifies this
      ensures Counts(old(seen) + [s])
    {
      SummaryMore(seen, s);
      all := all + 1;
      if Good(s) {
        good := good + 1;
      }
      if s.kind.Ping? && s.ms >= 0 {
        latencies := latencies + [s.ms];
      }
      seen := seen + [s];
    }

    function Uptime(): real
      requires Counts(seen)
      reads this
      ensures Uptime() == Share(seen)
    {
      if all > 0 then good as real / all as real else -1.0
    }
  }

  class Store {
    var health: map<string, seq<Sample>>
    var dirty: bool

    /** Histories as Record and Save leave them, and as they are loaded again. */
    ghost predicate Valid()
      reads this
    {
      forall server <- health :: InOrder(health[server])
    }

    function Of(server: string): seq<Sample>
      reads this
    {
      if server in health then health[server] else []
    }

    constructor ()
      ensures Valid() && health == map[]
    {
      health, dirty := map[], false;
    }

    method Record(server: string, sample: Sample)
      requires Valid()
      modifies this
      ensures Valid()
      ensures server == "" ==> health == old(health) && dirty == old(dirty)
      ensures server != "" ==> dirty && health == old(health)[server := Recorded(old(Of(server)), sample)]
    {
      if server == "" { return; }
      var samples := Insertion(Of(server), sample);
      if |samples| > PER_HOST {
        samples := samples[|samples| - PER_HOST..];
      }
      health := health[server := samples];
      dirty := true;
    }

    /** Kept in time order, which Record's callers nearly always are. */
    static method Insertion(samples: seq<Sample>, sample: Sample) returns (more: seq<Sample>)
      requires InOrder(samples)
      ensures more == Insert(samples, sample) && InOrder(more)
    {
      var index := |samples|;
      while index > 0 && samples[index - 1].at > sample.at
        invariant 0 <= index <= |samples|
        invariant forall i :: index <= i < |samples| ==> samples[i].at > sample.at
      {
        index := index - 1;
      }
      assert Divides(samples, sample.at, index);
      InsertIsAt(samples, sample, index);
      InsertInOrder(samples, sample);
      return samples[..index] + [sample] + samples[index..];
    }

    /** sort.Search: halving the range in which the first sample not too old must be. */
    static method Search(samples: seq<Sample>, since: int) returns (first: nat)
      requires InOrder(samples)
      ensures first == FirstSince(samples, since)
    {
      var low, high := 0, |samples|;
      while low < high
        invariant low <= high <= |samples|
        invariant forall i :: 0 <= i < low ==> samples[i].at < since
        invariant forall i :: high <= i < |samples| ==> samples[i].at >= since
      {
        var middle := (low + high) / 2;
        if samples[middle].at >= since {
          high := middle;
        } else {
          low := middle + 1;
        }
      }
      FirstIsUnique(samples, since, low);
      return low;
    }

    static method Kept(samples: seq<Sample>, now: int) returns (kept: seq<Sample>)
      requires InOrder(samples)
      ensures kept == Pruned(samples, now) && InOrder(kept)
    {
      var first := Search(samples, now - WEEK);
      kept := samples[first..];
      if |kept| > PER_HOST {
        kept := kept[|kept| - PER_HOST..];
      }
    }

    /** One server's history pruned; dropped altogether when nothing is left. */
    method PruneOne(server: string, now: int) returns (kept: seq<Sample>)
      requires Valid() && server in health
      modifies this`health
      ensures Valid() && kept == Pruned(old(health)[server], now)
      ensures health == if kept == [] then old(health) - {server} else old(health)[server := kept]
    {
      kept := Kept(health[server], now);
      if kept == [] {
        health := health - {server};
      } else {
        health := health[server := kept];
      }
    }

    method Prune(now: int)
      requires Valid()
      modifies this`health
      ensures Valid()
      ensures forall server <- old(health) :: Of(server) == Pruned(old(health)[server], now)
      ensures forall server <- health :: server in old(health) && health[server] != []
    {
      ghost var target := map server | server in health :: Pruned(health[server], now);
      var left := health.Keys;
      while left != {}
        invariant Valid() && left <= health.Keys <= target.Keys == old(health).Keys
        invariant forall server <- left :: health[server] == old(health)[server]
        invariant forall server <- health :: server !in left ==> health[server] == target[server] != []
        invariant forall server <- target :: server !in health ==> target[server] == []
        decreases left
      {
        var server :| server in left;
        var kept := PruneOne(server, now);
        left := left - {server};
      }
    }

    method HealthNow(server: string, now: int) returns (health: Health)
      ensures health == HealthOf(Of(server), now)
    {
      health := Summary(Of(server), now);
    }

    static method Summary(samples: seq<Sample>, now: int) returns (health: Health)
      ensures health == HealthOf(samples, now)
    {
      var week := new Tally();
      var day := new Tally();
      for i := 0 to |samples|
        invariant week.Counts(Since(samples[..i], now - WEEK)) && day.Counts(Since(samples[..i], now - DAY))
        invariant fresh(week) && fresh(day) && week != day
      {
        SinceMore(samples, i, now - WEEK);
        SinceMore(samples, i, now - DAY);
        if samples[i].at >= now - WEEK {
          week.Add(samples[i]);
          if samples[i].at >= now - DAY {
            day.Add(samples[i]);
          }
        }
      }
      assert samples[..|samples|] == samples;
      var failing := IsFailing(samples, now);
      var latencies := day.latencies;
      health := Health(day.Uptime(), week.Uptime(),
        if |latencies| > 0 then SortedInts(latencies)[|latencies| / 2] else 0, week.all, failing, day.seen);
    }

    static method IsFailing(samples: seq<Sample>, now: int) returns (failing: bool)
      ensures failing == Failing(samples, now)
    {
      if |samples| < 3 || samples[|samples| - 1].at < now - DAY / 2 { return false; }
      var last := samples[|samples| - 3..];
      for i := 0 to 3
        invariant forall j :: 0 <= j < i ==> !Good(last[j])
      {
        if Good(last[i]) {
          assert last[i] in last;
          return false;
        }
      }
      return true;
    }
  }

  lemma SinceMore(samples: seq<Sample>, i: nat, since: int)
    requires i < |samples|
    ensures Since(samples[..i + 1], since) ==
      if samples[i].at >= since then Since(samples[..i], since) + [samples[i]] else Since(samples[..i], since)
  {
    assert samples[..i + 1][..i] == samples[..i];
  }

  lemma SummaryMore(samples: seq<Sample>, s: Sample)
    ensures GoodOnes(samples + [s]) == if Good(s) then GoodOnes(samples) + [s] else GoodOnes(samples)
    ensures Latencies(samples + [s]) == if s.kind.Ping? && s.ms >= 0 then Latencies(samples) + [s.ms] else Latencies(samples)
  {
    assert (samples + [s])[..|samples|] == samples;
  }
}
