// Which graph rule each open connection belongs to (internal/core/instance.go,
// RuleHits; internal/app/routing.go, GetRuleHits).

module HitSpec {
  import opened Wrappers
  import opened RouteSpec

  /** The rule a connection matched, as the core reports it: none, one of the running config's, or a stale one. */
  datatype Matched = NoRule | Known(index: nat) | Stale

  /** The slot a connection is counted in: its rule's, or the last one. */
  function SlotOf(rules: nat, m: Matched): Option<nat> {
    match m
    case NoRule => Some(rules)
    case Known(index) => if index < rules then Some(index) else None
    case Stale => None
  }

  function Hits(rules: nat, open: seq<Matched>): (r: seq<nat>)
    ensures |r| == rules + 1
  {
    if open == [] then seq(rules + 1, i => 0)
    else
      var before := Hits(rules, open[..|open| - 1]);
      match SlotOf(rules, open[|open| - 1])
      case None => before
      case Some(slot) => before[slot := before[slot] + 1]
  }

  /** Whom a slot belongs to; "" for the app's own rules. */
  function OwnerOf(owners: seq<string>, slots: nat, i: nat): string {
    if i + 1 == slots then DEFAULT_OWNER else if i < |owners| then owners[i] else ""
  }

  /** The first n slots of one owner, added up. */
  function Total(hits: seq<nat>, owners: seq<string>, id: string, n: nat): nat
    requires n <= |hits|
  {
    if n == 0 then 0
    else Total(hits, owners, id, n - 1) + if OwnerOf(owners, |hits|, n - 1) == id then hits[n - 1] else 0
  }

  /** What a connection is counted under, if at all. */
  function AttributedTo(rules: nat, owners: seq<string>, m: Matched): Option<string> {
    match SlotOf(rules, m)
    case None => None
    case Some(slot) => if OwnerOf(owners, rules + 1, slot) == "" then None else Some(OwnerOf(owners, rules + 1, slot))
  }

  function CountFor(rules: nat, owners: seq<string>, open: seq<Matched>, id: string): nat {
    if open == [] then 0
    else CountFor(rules, owners, open[..|open| - 1], id)
         + if AttributedTo(rules, owners, open[|open| - 1]) == Some(id) then 1 else 0
  }

  lemma {:induction false} TotalBumped(hits: seq<nat>, owners: seq<string>, id: string, slot: nat, n: nat)
    requires slot < |hits| && n <= |hits|
    ensures Total(hits[slot := hits[slot] + 1], owners, id, n) ==
      Total(hits, owners, id, n) + if slot < n && OwnerOf(owners, |hits|, slot) == id then 1 else 0
  {
    if n > 0 {
      TotalBumped(hits, owners, id, slot, n - 1);
    }
  }

  lemma {:induction false} TotalOfNone(hits: seq<nat>, owners: seq<string>, id: string, n: nat)
    requires n <= |hits| && forall i :: 0 <= i < |hits| ==> hits[i] == 0
    ensures Total(hits, owners, id, n) == 0
  {
    if n > 0 {
      TotalOfNone(hits, owners, id, n - 1);
    }
  }

  /**
   * Regrouping the slots by owner counts connections: each owner gets exactly
   * the open connections attributed to it.
   */
  lemma {:induction false} AttributionConserves(rules: nat, owners: seq<string>, open: seq<Matched>, id: string)
    requires id != ""
    ensures Total(Hits(rules, open), owners, id, rules + 1) == CountFor(rules, owners, open, id)
  {
    if open == [] {
      TotalOfNone(Hits(rules, open), owners, id, rules + 1);
    } else {
      var init, last := open[..|open| - 1], open[|open| - 1];
      AttributionConserves(rules, owners, init, id);
      if SlotOf(rules, last).Some? {
        TotalBumped(Hits(rules, init), owners, id, SlotOf(rules, last).value, rules + 1);
      }
    }
  }

  /** A connection is left out exactly when an app-owned rule took it, or its rule is not of this config. */
  lemma LeftOutExactly(rules: nat, owners: seq<string>, m: Matched)
    requires |owners| == rules && (m.Known? ==> m.index < rules)
    ensures AttributedTo(rules, owners, m).None? <==> m.Stale? || (m.Known? && owners[m.index] == "")
    ensures m.NoRule? ==> AttributedTo(rules, owners, m) == Some(DEFAULT_OWNER)
    ensures m.Known? && owners[m.index] != "" ==> AttributedTo(rules, owners, m) == Some(owners[m.index])
  {
  }

  // ---------------------------------------------------------- in the source form

  method RuleHits(rules: nat, open: seq<Matched>) returns (hits: array<nat>)
    ensures fresh(hits) && hits[..] == Hits(rules, open)
  {
    hits := new nat[rules + 1](i => 0);
    assert hits[..] == Hits(rules, []);
    for k := 0 to |open|
      invariant hits.Length == rules + 1 && hits[..] == Hits(rules, open[..k])
    {
      assert open[..k + 1][..k] == open[..k];
      match SlotOf(rules, open[k]) {
        case None =>
        case Some(slot) => hits[slot] := hits[slot] + 1;
      }
    }
    assert open[..|open|] == open;
  }

  function At(result: map<string, nat>, id: string): nat {
    if id in result then result[id] else 0
  }

  /** Slots with nothing in them, and the app's own, are not mentioned. */
  method GetRuleHits(hits: seq<nat>, owners: seq<string>) returns (result: map<string, nat>)
    ensures forall id :: id != "" ==> At(result, id) == Total(hits, owners, id, |hits|)
    ensures forall id <- result :: id != "" && result[id] > 0
  {
    result := map[];
    for i := 0 to |hits|
      invariant forall id :: id != "" ==> At(result, id) == Total(hits, owners, id, i)
      invariant forall id <- result :: id != "" && result[id] > 0
    {
      if hits[i] != 0 {
        if i == |hits| - 1 {
          result := result[DEFAULT_OWNER := At(result, DEFAULT_OWNER) + hits[i]];
        } else if i < |owners| && owners[i] != "" {
          result := result[owners[i] := At(result, owners[i]) + hits[i]];
        }
      }
    }
  }

  /** From open connections to counts by graph rule. */
  method CountByRule(rules: nat, owners: seq<string>, open: seq<Matched>) returns (result: map<string, nat>)
    ensures forall id :: id != "" ==> At(result, id) == CountFor(rules, owners, open, id)
    ensures forall id <- result :: exists m <- open :: AttributedTo(rules, owners, m) == Some(id)
  {
    var hits := RuleHits(rules, open);
    result := GetRuleHits(hits[..], owners);
    forall id | id != ""
      ensures At(result, id) == CountFor(rules, owners, open, id)
    {
      AttributionConserves(rules, owners, open, id);
    }
    forall id <- result
      ensures exists m <- open :: AttributedTo(rules, owners, m) == Some(id)
    {
      CountedExists(rules, owners, open, id);
    }
  }

  lemma {:induction false} CountedExists(rules: nat, owners: seq<string>, open: seq<Matched>, id: string)
    requires CountFor(rules, owners, open, id) > 0
    ensures exists m <- open :: AttributedTo(rules, owners, m) == Some(id)
  {
    var init, last := open[..|open| - 1], open[|open| - 1];
    if AttributedTo(rules, owners, last) != Some(id) {
      CountedExists(rules, owners, init, id);
      var m :| m in init && AttributedTo(rules, owners, m) == Some(id);
      assert m in open;
    }
  }
}
