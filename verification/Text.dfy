// Strings as the app's Go code handles them: trimming, lower-casing, suffixes,
// splitting, and decimal numerals.

module Wrappers {
  datatype Option<+T> = None | Some(value: T)
}

/** Sequences built one entry at a time, skipping what is refused or already there. */
module Sequences {
  import opened Wrappers

  /** The accepted images of the entries, in order, each at its first appearance. */
  function Distinct<S, T(==)>(accept: S -> Option<T>, values: seq<S>): (r: seq<T>)
    ensures |r| <= |values|
  {
    if values == [] then []
    else
      var kept := Distinct(accept, values[..|values| - 1]);
      match accept(values[|values| - 1])
      case Some(value) => if value in kept then kept else kept + [value]
      case None => kept
  }

  /** Some image satisfies p exactly when some accepted entry's image does. */
  lemma {:induction false} DistinctAny<S, T>(accept: S -> Option<T>, values: seq<S>, p: T -> bool)
    ensures (exists t <- Distinct(accept, values) :: p(t))
      <==> (exists v <- values :: accept(v).Some? && p(accept(v).value))
  {
    if v :| v in values && accept(v).Some? && p(accept(v).value) {
      DistinctMembers(accept, values, accept(v).value);
    }
    if t :| t in Distinct(accept, values) && p(t) {
      DistinctMembers(accept, values, t);
      var raw :| raw in values && accept(raw) == Some(t);
    }
  }

  lemma {:induction false} CollectAny<S, T>(accept: S -> Option<T>, values: seq<S>, p: T -> bool)
    ensures (exists t <- Collect(accept, values) :: p(t))
      <==> (exists v <- values :: accept(v).Some? && p(accept(v).value))
  {
    if v :| v in values && accept(v).Some? && p(accept(v).value) {
      CollectMembers(accept, values, accept(v).value);
    }
    if t :| t in Collect(accept, values) && p(t) {
      CollectMembers(accept, values, t);
      var raw :| raw in values && accept(raw) == Some(t);
    }
  }

  /** Like Collect, except that with all set one refused entry refuses the whole list. */
  function CollectAll<S, T>(accept: S -> Option<T>, values: seq<S>, all: bool): (r: Option<seq<T>>)
    ensures r.Some? ==> |r.value| <= |values|
    ensures !all ==> r.Some?
  {
    if values == [] then Some([])
    else match CollectAll(accept, values[..|values| - 1], all)
      case None => None
      case Some(kept) =>
        match accept(values[|values| - 1])
        case Some(value) => Some(kept + [value])
        case None => if all then None else Some(kept)
  }

  lemma {:induction false} CollectAllRefused<S, T>(accept: S -> Option<T>, values: seq<S>, n: nat)
    requires n <= |values| && CollectAll(accept, values[..n], true).None?
    ensures CollectAll(accept, values, true).None?
  {
    if n < |values| {
      assert values[..|values| - 1][..n] == values[..n];
      CollectAllRefused(accept, values[..|values| - 1], n);
    } else {
      assert values[..n] == values;
    }
  }

  lemma {:induction false} CollectAllMembers<S, T>(accept: S -> Option<T>, values: seq<S>, all: bool, value: T)
    ensures CollectAll(accept, values, all).None? <==> all && (exists v <- values :: accept(v).None?)
    ensures CollectAll(accept, values, all).Some? ==>
      (value in CollectAll(accept, values, all).value <==> (exists v <- values :: accept(v) == Some(value)))
  {
    if values != [] {
      var init, last := values[..|values| - 1], values[|values| - 1];
      CollectAllMembers(accept, init, all, value);
      assert values == init + [last];
      assert last in values;
      assert forall v :: v in values <==> v in init || v == last;
    }
  }

  /** Empty entries and repeats dropped. */
  function Dedupe(values: seq<string>): seq<string> {
    Distinct((value: string) => if value == "" then None else Some(value), values)
  }

  predicate NoRepeats<T(==)>(s: seq<T>) {
    forall i, j :: 0 <= i < j < |s| ==> s[i] != s[j]
  }

  lemma {:induction false} DistinctMembers<S, T>(accept: S -> Option<T>, values: seq<S>, value: T)
    ensures value in Distinct(accept, values) <==> (exists raw <- values :: accept(raw) == Some(value))
  {
    if values != [] {
      var init, last := values[..|values| - 1], values[|values| - 1];
      DistinctMembers(accept, init, value);
      assert values == init + [last];
      assert last in values;
    }
  }

  lemma DedupeMembers(values: seq<string>, value: string)
    ensures value in Dedupe(values) <==> value != "" && value in values
  {
    DistinctMembers((v: string) => if v == "" then None else Some(v), values, value);
  }

  lemma {:induction false} DistinctNoRepeats<S, T>(accept: S -> Option<T>, values: seq<S>)
    ensures NoRepeats(Distinct(accept, values))
  {
    if values != [] {
      DistinctNoRepeats(accept, values[..|values| - 1]);
    }
  }

  /** The accepted images of the entries, repeats and all. */
  function Collect<S, T>(accept: S -> Option<T>, values: seq<S>): (r: seq<T>)
    ensures |r| <= |values|
  {
    if values == [] then []
    else
      var kept := Collect(accept, values[..|values| - 1]);
      match accept(values[|values| - 1])
      case Some(value) => kept + [value]
      case None => kept
  }

  lemma {:induction false} CollectMembers<S, T>(accept: S -> Option<T>, values: seq<S>, value: T)
    ensures value in Collect(accept, values) <==> (exists raw <- values :: accept(raw) == Some(value))
  {
    if values != [] {
      var init, last := values[..|values| - 1], values[|values| - 1];
      CollectMembers(accept, init, value);
      assert values == init + [last];
      assert last in values;
    }
  }

  lemma {:induction false} CollectAppend<S, T>(accept: S -> Option<T>, a: seq<S>, b: seq<S>)
    ensures Collect(accept, a + b) == Collect(accept, a) + Collect(accept, b)
  {
    if b == [] {
      assert a + b == a;
      NothingAfter(Collect(accept, a));
    } else {
      CollectAppend(accept, a, b[..|b| - 1]);
      AppendLast(a, b);
    }
  }

  lemma NothingAfter<T>(a: seq<T>)
    ensures a + [] == a
  {
  }

  lemma NothingBefore<T>(a: seq<T>)
    ensures [] + a == a
  {
  }

  lemma Whole<T>(a: seq<T>)
    ensures a[..|a|] == a
  {
  }

  lemma Unsnoc<T>(a: seq<T>)
    requires a != []
    ensures a[..|a| - 1] + [a[|a| - 1]] == a
  {
  }

  /** The first i + 1 entries, as the first i and one more. */
  lemma Took<T>(a: seq<T>, i: nat)
    requires i < |a|
    ensures a[..i + 1] != [] && a[..i + 1][..|a[..i + 1]| - 1] == a[..i] && a[..i + 1][|a[..i + 1]| - 1] == a[i]
  {
  }

  lemma CollectOne<S, T>(accept: S -> Option<T>, e: S)
    ensures Collect(accept, [e]) == match accept(e) case Some(value) => [value] case None => []
  {
    assert [e][..0] == [];
  }

  lemma AppendLast<T>(a: seq<T>, b: seq<T>)
    requires b != []
    ensures (a + b)[..|a + b| - 1] == a + b[..|b| - 1] && (a + b)[|a + b| - 1] == b[|b| - 1]
  {
  }

  function Map<S, T>(f: S -> T, values: seq<S>): (r: seq<T>)
    ensures |r| == |values|
    ensures forall i :: 0 <= i < |values| ==> r[i] == f(values[i])
  {
    seq(|values|, i requires 0 <= i < |values| => f(values[i]))
  }

  lemma MapMembers<S, T>(f: S -> T, values: seq<S>, value: T)
    ensures value in Map(f, values) <==> (exists v <- values :: f(v) == value)
  {
  }

  lemma {:induction false} FlattenMembers<T>(parts: seq<seq<T>>, value: T)
    ensures value in Flatten(parts) <==> (exists part <- parts :: value in part)
  {
    if parts != [] {
      FlattenMembers(parts[1..], value);
      assert parts == [parts[0]] + parts[1..];
      assert parts[0] in parts;
    }
  }

  /** A run: the state the events lead to, one after another. */
  function Fold<S, E>(step: (S, E) -> S, s: S, events: seq<E>): S {
    if events == [] then s else step(Fold(step, s, events[..|events| - 1]), events[|events| - 1])
  }

  /** What every step keeps, every run keeps. */
  lemma {:induction false} RunInvariant<S(!new), E(!new)>(
      step: (S, E) -> S, allowed: E -> bool, good: S -> bool, s: S, events: seq<E>)
    requires good(s) && (forall e <- events :: allowed(e))
    requires forall t, e :: good(t) && allowed(e) ==> good(step(t, e))
    ensures good(Fold(step, s, events))
  {
    if events != [] {
      assert events[|events| - 1] in events && forall e <- events[..|events| - 1] :: e in events;
      RunInvariant(step, allowed, good, s, events[..|events| - 1]);
    }
  }

  lemma FoldMore<S, E>(step: (S, E) -> S, s: S, events: seq<E>, e: E)
    ensures Fold(step, s, events + [e]) == step(Fold(step, s, events), e)
  {
    assert (events + [e])[..|events|] == events;
  }

  lemma {:induction false} FoldTwo<S, E>(step: (S, E) -> S, s: S, events: seq<E>, more: seq<E>)
    ensures Fold(step, s, events + more) == Fold(step, Fold(step, s, events), more)
  {
    if more == [] {
      assert events + more == events;
    } else {
      var init, last := more[..|more| - 1], more[|more| - 1];
      FoldTwo(step, s, events, init);
      FoldMore(step, s, events + init, last);
      assert events + init + [last] == events + more;
    }
  }

  lemma FoldFirst<S, E>(step: (S, E) -> S, s: S, e: E, more: seq<E>)
    ensures Fold(step, s, [e] + more) == Fold(step, step(s, e), more)
  {
    FoldMore(step, s, [], e);
    assert [] + [e] == [e];
    FoldTwo(step, s, [e], more);
  }

  function Flatten<T>(parts: seq<seq<T>>): seq<T> {
    if parts == [] then [] else parts[0] + Flatten(parts[1..])
  }
}

module Text {
  import opened Wrappers

  // ---------------------------------------------------------------- trimming

  /** Unicode White_Space, which is what Go's strings.TrimSpace removes. */
  predicate IsSpace(c: char) {
    '\t' <= c <= '\r' || c == ' ' || c == '\U{85}' || c == '\U{A0}' || c == '\U{1680}'
    || '\U{2000}' <= c <= '\U{200A}' || c == '\U{2028}' || c == '\U{2029}'
    || c == '\U{202F}' || c == '\U{205F}' || c == '\U{3000}'
  }

  /** The first position from i on that holds no space. */
  function SkipSpace(s: string, i: nat): (j: nat)
    requires i <= |s|
    ensures i <= j <= |s|
    decreases |s| - i
  {
    if i < |s| && IsSpace(s[i]) then SkipSpace(s, i + 1) else i
  }

  /** Where the last non-space of s[..hi] ends, not before lo. */
  function DropSpace(s: string, lo: nat, hi: nat): (j: nat)
    requires lo <= hi <= |s|
    ensures lo <= j <= hi
  {
    if lo < hi && IsSpace(s[hi - 1]) then DropSpace(s, lo, hi - 1) else hi
  }

  function Trim(s: string): string {
    var start := SkipSpace(s, 0);
    s[start..DropSpace(s, start, |s|)]
  }

  /** No space at either end. */
  predicate Trimmed(s: string) {
    s != [] ==> !IsSpace(s[0]) && !IsSpace(s[|s| - 1])
  }

  lemma {:induction false} SkipSpaceStops(s: string, i: nat)
    requires i <= |s|
    ensures var j := SkipSpace(s, i); j < |s| ==> !IsSpace(s[j])
    decreases |s| - i
  {
    if i < |s| && IsSpace(s[i]) {
      SkipSpaceStops(s, i + 1);
    }
  }

  lemma {:induction false} DropSpaceStops(s: string, lo: nat, hi: nat)
    requires lo <= hi <= |s|
    ensures var j := DropSpace(s, lo, hi); lo < j ==> !IsSpace(s[j - 1])
  {
    if lo < hi && IsSpace(s[hi - 1]) {
      DropSpaceStops(s, lo, hi - 1);
    }
  }

  lemma TrimTrims(s: string)
    ensures Trimmed(Trim(s))
  {
    SkipSpaceStops(s, 0);
    DropSpaceStops(s, SkipSpace(s, 0), |s|);
  }

  lemma TrimFixes(s: string)
    ensures Trim(s) == s <==> Trimmed(s)
  {
    TrimTrims(s);
    if Trimmed(s) && s != [] {
      assert SkipSpace(s, 0) == 0 && DropSpace(s, 0, |s|) == |s|;
    }
  }

  lemma TrimmedTwice(s: string)
    ensures Trim(Trim(s)) == Trim(s)
  {
    TrimTrims(s);
    TrimFixes(Trim(s));
  }

  // ------------------------------------------------------------- lower case

  function Lower(c: char): char {
    if 'A' <= c <= 'Z' then (c as int + 32) as char else c
  }

  function ToLower(s: string): string {
    seq(|s|, i requires 0 <= i < |s| => Lower(s[i]))
  }

  lemma LowerKeeps(c: char)
    ensures Lower(Lower(c)) == Lower(c) && IsSpace(Lower(c)) == IsSpace(c)
  {
  }

  lemma LowerTwice(s: string)
    ensures ToLower(ToLower(s)) == ToLower(s)
  {
    forall i | 0 <= i < |s|
      ensures ToLower(ToLower(s))[i] == ToLower(s)[i]
    {
      LowerKeeps(s[i]);
    }
  }

  lemma LowerTrimmed(s: string)
    requires Trimmed(s)
    ensures Trimmed(ToLower(s))
  {
    if s != [] {
      LowerKeeps(s[0]);
      LowerKeeps(s[|s| - 1]);
    }
  }

  lemma TidyTwice(text: string)
    requires Trimmed(text)
    ensures var tidy := ToLower(text); Trim(tidy) == tidy && ToLower(tidy) == tidy
  {
    LowerTwice(text);
    LowerTrimmed(text);
    TrimFixes(ToLower(text));
  }

  // --------------------------------------------------------------- suffixes

  predicate HasSuffix(s: string, suffix: string) {
    |suffix| <= |s| && s[|s| - |suffix|..] == suffix
  }

  // --------------------------------------------------------------- numerals

  predicate IsDigit(c: char) { '0' <= c <= '9' }

  predicate IsSign(c: char) { c == '+' || c == '-' }

  predicate AllDigits(s: string) {
    forall i :: 0 <= i < |s| ==> IsDigit(s[i])
  }

  function Itoa(n: nat): (r: string)
    ensures r != []
  {
    if n < 10 then [('0' as int + n) as char] else Itoa(n / 10) + [('0' as int + n % 10) as char]
  }

  /** The value of the first n digits. */
  function DigitsValue(s: string, n: nat): nat
    requires n <= |s| && AllDigits(s)
  {
    if n == 0 then 0 else 10 * DigitsValue(s, n - 1) + (s[n - 1] as int - '0' as int) as nat
  }

  lemma {:induction false} DigitsValuePrefix(s: string, t: string, n: nat)
    requires n <= |s| && n <= |t| && AllDigits(s) && AllDigits(t) && s[..n] == t[..n]
    ensures DigitsValue(s, n) == DigitsValue(t, n)
  {
    if n > 0 {
      assert s[n - 1] == s[..n][n - 1] && t[n - 1] == t[..n][n - 1];
      assert s[..n - 1] == s[..n][..n - 1] && t[..n - 1] == t[..n][..n - 1];
      DigitsValuePrefix(s, t, n - 1);
    }
  }

  lemma {:induction false} DigitsOfItoa(n: nat)
    ensures AllDigits(Itoa(n)) && DigitsValue(Itoa(n), |Itoa(n)|) == n
  {
    var s := Itoa(n);
    if n >= 10 {
      var front := Itoa(n / 10);
      DigitsOfItoa(n / 10);
      assert s[..|front|] == front;
      DigitsValuePrefix(s, front, |front|);
    } else {
      assert DigitsValue(s, 1) == 10 * DigitsValue(s, 0) + n;
    }
  }

  lemma {:induction false} ItoaInjective(m: nat, n: nat)
    requires Itoa(m) == Itoa(n)
    ensures m == n
  {
    DigitsOfItoa(m);
    DigitsOfItoa(n);
  }

  /** strconv.Atoi without its 64-bit range: an optional sign, then digits. */
  function Atoi(s: string): (r: Option<int>) {
    var digits := if s != [] && IsSign(s[0]) then s[1..] else s;
    if digits == [] || !AllDigits(digits) then None
    else if s[0] == '-' then Some(-(DigitsValue(digits, |digits|) as int))
    else Some(DigitsValue(digits, |digits|))
  }

  lemma {:induction false} AtoiOfItoa(n: nat)
    ensures Atoi(Itoa(n)) == Some(n)
  {
    DigitsOfItoa(n);
    assert IsDigit(Itoa(n)[0]);
  }

  // ------------------------------------------------------------------- cut

  /** Where a character first occurs from position i on, or the length. */
  function IndexFrom(s: string, c: char, i: nat): (j: nat)
    requires i <= |s|
    ensures i <= j <= |s|
    decreases |s| - i
  {
    if i == |s| || s[i] == c then i else IndexFrom(s, c, i + 1)
  }

  function IndexOf(s: string, c: char): (j: nat)
    ensures j <= |s|
  {
    IndexFrom(s, c, 0)
  }

  lemma {:induction false} IndexFromFirst(s: string, c: char, i: nat)
    requires i <= |s|
    ensures var j := IndexFrom(s, c, i); (j < |s| ==> s[j] == c) && forall k :: i <= k < j ==> s[k] != c
    decreases |s| - i
  {
    if i < |s| && s[i] != c {
      IndexFromFirst(s, c, i + 1);
    }
  }

  lemma {:induction false} IndexFromUnique(s: string, c: char, i: nat, j: nat)
    requires i <= j <= |s| && (j < |s| ==> s[j] == c) && forall k :: i <= k < j ==> s[k] != c
    ensures IndexFrom(s, c, i) == j
    decreases j - i
  {
    if i < j {
      IndexFromUnique(s, c, i + 1, j);
    }
  }

  /** strings.Cut: the text before the first c, and the text after it when there is one. */
  function CutAt(s: string, c: char): (string, Option<string>) {
    var i := IndexOf(s, c);
    if i == |s| then (s, None) else (s[..i], Some(s[i + 1..]))
  }

  lemma CutAtMeans(s: string, c: char)
    ensures var (before, after) := CutAt(s, c);
      c !in before && s == match after case None => before case Some(rest) => before + [c] + rest
  {
    IndexFromFirst(s, c, 0);
  }

  lemma CutJoined(before: string, c: char, after: string)
    requires c !in before
    ensures CutAt(before + [c] + after, c) == (before, Some(after))
  {
    var s := before + [c] + after;
    assert s[..|before|] == before && s[|before| + 1..] == after;
    assert forall k :: 0 <= k < |before| ==> s[k] == before[k];
    IndexFromUnique(s, c, 0, |before|);
  }

  lemma CutAbsent(s: string, c: char)
    requires c !in s
    ensures CutAt(s, c) == (s, None)
  {
    IndexFromUnique(s, c, 0, |s|);
  }
}
