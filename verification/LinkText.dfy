// Lists joined with commas and split again, as links carry them (internal/link).

module LinkText {
  import opened Wrappers
  import opened Sequences
  import opened Text

  predicate Clean(s: string) { s != "" && Trimmed(s) }

  // -------------------------------------------------------------------- lists

  function SplitOn(s: string, c: char): (r: seq<string>)
    ensures r != []
    decreases |s|
  {
    var (before, after) := CutAt(s, c);
    match after
    case None => [before]
    case Some(rest) =>
      CutAtMeans(s, c);
      [before] + SplitOn(rest, c)
  }

  function JoinOn(parts: seq<string>, c: char): string {
    if parts == [] then ""
    else if |parts| == 1 then parts[0]
    else parts[0] + [c] + JoinOn(parts[1..], c)
  }

  lemma {:induction false} SplitJoined(parts: seq<string>, c: char)
    requires parts != [] && forall p <- parts :: c !in p
    ensures SplitOn(JoinOn(parts, c), c) == parts
  {
    if |parts| == 1 {
      CutAbsent(parts[0], c);
    } else {
      CutJoined(parts[0], c, JoinOn(parts[1..], c));
      SplitJoined(parts[1..], c);
    }
  }

  lemma {:induction false} SplitParts(s: string, c: char)
    ensures forall p <- SplitOn(s, c) :: c !in p
    decreases |s|
  {
    CutAtMeans(s, c);
    var (before, after) := CutAt(s, c);
    if after.Some? {
      SplitParts(after.value, c);
    }
  }

  function Item(part: string): Option<string> {
    if Trim(part) != "" then Some(Trim(part)) else None
  }

  /** A comma-separated list, blanks dropped. */
  function SplitList(value: string): seq<string> {
    if Trim(value) == "" then [] else Collect(Item, SplitOn(value, ','))
  }

  predicate CleanItem(s: string) { Clean(s) && ',' !in s }

  lemma {:induction false} JoinClean(parts: seq<string>, c: char)
    requires parts != [] && !IsSpace(c) && forall p <- parts :: Clean(p)
    ensures Clean(JoinOn(parts, c))
    ensures parts[0] != "" && JoinOn(parts, c)[0] == parts[0][0]
  {
    assert parts[0] in parts && forall p <- parts[1..] :: p in parts;
    if |parts| > 1 {
      JoinClean(parts[1..], c);
    }
  }

  lemma {:induction false} CollectClean(parts: seq<string>)
    requires forall p <- parts :: Clean(p)
    ensures Collect(Item, parts) == parts
  {
    if parts != [] {
      var init, last := parts[..|parts| - 1], parts[|parts| - 1];
      assert last in parts && forall p <- init :: p in parts;
      CollectClean(init);
      TrimFixes(last);
    }
  }

  lemma SplitListItems(value: string)
    ensures forall p <- SplitList(value) :: CleanItem(p)
  {
    SplitParts(value, ',');
    forall p <- SplitList(value)
      ensures CleanItem(p)
    {
      CollectMembers(Item, SplitOn(value, ','), p);
      var raw :| raw in SplitOn(value, ',') && Item(raw) == Some(p);
      TrimTrims(raw);
    }
  }

  /** A list survives being joined and split exactly when its items are clean. */
  lemma ListRoundTrip(items: seq<string>)
    ensures SplitList(Trim(JoinOn(items, ','))) == items <==> forall p <- items :: CleanItem(p)
  {
    SplitListItems(Trim(JoinOn(items, ',')));
    if items != [] && forall p <- items :: CleanItem(p) {
      JoinClean(items, ',');
      TrimFixes(JoinOn(items, ','));
      SplitJoined(items, ',');
      CollectClean(items);
    }
  }
}
