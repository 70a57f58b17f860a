// Saved routing setups and their schedule (internal/models/setups.go,
// internal/models/schedule.go).

module SetupSpec {
  import opened Wrappers
  import opened Sequences
  import opened Text
  import opened Models
  import opened Normalize

  datatype Setup = Setup(id: string, name: string, graph: Graph)

  /** start and end are times of day as text. */
  datatype Slot = Slot(id: string, setup: string, days: seq<int>, start: string, end: string)

  datatype State = State(
    live: Graph, setups: seq<Setup>, active: string, schedule: seq<Slot>, fallback: string, legacy: Legacy)

  /** Minutes past midnight, for a time of day that can be read. */
  type Clock = string -> Option<nat>

  predicate ValidClock(clock: Clock, text: string) { clock(text).Some? && clock(text).value < 24 * 60 }

  const MAIN := "main"
  const MAX_NAME := 60
  const MAX_SLOTS := 50

  // --------------------------------------------------------------------- setups

  /** A loaded graph always has rules, even if none. */
  function Loaded(graph: Graph): Graph {
    graph.(rules := if graph.rules.None? then Some([]) else graph.rules,
           defaultAction := if graph.defaultAction == NO_ACTION then Proxy else graph.defaultAction)
  }

  function TidyGraph(graph: Graph): Graph {
    graph.(rules := if graph.rules.None? then Some([]) else graph.rules,
           defaultAction := if ValidAction(graph.defaultAction) then graph.defaultAction else Proxy)
  }

  function TidyName(name: string): string {
    if |Trim(name)| > MAX_NAME then Trim(name)[..MAX_NAME] else Trim(name)
  }

  function TidySetup(s: Setup): Setup { Setup(Trim(s.id), TidyName(s.name), TidyGraph(s.graph)) }

  predicate Has(setups: seq<Setup>, id: string) { exists s <- setups :: s.id == id }

  /** The setups with an id of their own, the first of each, tidied. */
  function KeptSetups(setups: seq<Setup>): seq<Setup> {
    if setups == [] then []
    else
      var kept, last := KeptSetups(setups[..|setups| - 1]), TidySetup(setups[|setups| - 1]);
      if last.id == "" || Has(kept, last.id) then kept else kept + [last]
  }

  function Mirrored(setups: seq<Setup>, active: string, live: Graph): seq<Setup> {
    Map((s: Setup) => if s.id == active then s.(graph := live) else s, setups)
  }

  function SetupsOf(setups: seq<Setup>, live: Graph): (r: seq<Setup>)
    ensures r != []
  {
    var kept := KeptSetups(setups);
    if kept == [] then [Setup(MAIN, "", live)] else kept
  }

  function ActiveOf(setups: seq<Setup>, live: Graph, active: string): string {
    var all := SetupsOf(setups, live);
    if Has(KeptSetups(setups), active) then active else all[0].id
  }

  // ------------------------------------------------------------------- schedule

  function KeptDays(days: seq<int>): seq<int> {
    Distinct(day => if 0 <= day <= 6 then Some(day) else None, days)
  }

  function SlotId(index: nat): string { "schedule-" + Itoa(index + 1) }

  function TidySlot(clock: Clock, setups: seq<Setup>, s: Slot, index: nat): Option<Slot> {
    if !Has(setups, s.setup) || clock(s.start).None? || clock(s.end).None? || s.start == s.end || KeptDays(s.days) == []
    then None
    else Some(s.(days := KeptDays(s.days), id := if s.id == "" then SlotId(index) else s.id))
  }

  function KeptSlots(clock: Clock, setups: seq<Setup>, schedule: seq<Slot>): (r: seq<Slot>)
    ensures |r| <= MAX_SLOTS
  {
    if schedule == [] then []
    else
      var kept := KeptSlots(clock, setups, schedule[..|schedule| - 1]);
      match TidySlot(clock, setups, schedule[|schedule| - 1], |schedule| - 1)
      case Some(slot) => if |kept| < MAX_SLOTS then kept + [slot] else kept
      case None => kept
  }

  // ------------------------------------------------------------------ normalising

  function NormalState(clock: Clock, s: State): State {
    var live := NormalGraph(s.live, s.legacy);
    var active := ActiveOf(s.setups, live, s.active);
    var setups := Mirrored(SetupsOf(s.setups, live), active, live);
    s.(live := live, setups := setups, active := active,
       schedule := KeptSlots(clock, setups, s.schedule),
       fallback := if s.fallback != "" && !Has(setups, s.fallback) then "" else s.fallback)
  }

  /** The last setup with an id. */
  function GraphOf(setups: seq<Setup>, id: string): Option<Graph> {
    if setups == [] then None
    else
      var last := setups[|setups| - 1];
      if last.id == id then Some(last.graph) else GraphOf(setups[..|setups| - 1], id)
  }

  function Switched(clock: Clock, s: State, id: string): State {
    if !Has(s.setups, id) then s
    else
      var stored := Mirrored(s.setups, s.active, s.live);
      match GraphOf(stored, id)
      case Some(graph) => NormalState(clock, s.(setups := stored, live := Loaded(graph), active := id))
      case None => s
  }

  // ------------------------------------------------------------------- invariants

  predicate DistinctIds(setups: seq<Setup>) {
    forall i, j :: 0 <= i < j < |setups| ==> setups[i].id != setups[j].id
  }

  predicate TidyId(id: string) { id != "" && Trim(id) == id }

  /** A graph normalising does not change, whatever else is set. */
  ghost predicate Settled(graph: Graph) { forall legacy :: NormalGraph(graph, legacy) == graph }

  predicate Tidy(s: Setup) { TidyId(s.id) && TidyGraph(s.graph) == s.graph }

  /** There is a setup, each has its own id, and the active one is there and is what is live. */
  ghost predicate Sound(s: State) {
    && s.setups != [] && DistinctIds(s.setups) && Settled(s.live)
    && (forall x <- s.setups :: Tidy(x))
    && Has(s.setups, s.active) && (forall x <- s.setups :: x.id == s.active ==> x.graph == s.live)
    && (forall slot <- s.schedule :: Has(s.setups, slot.setup))
    && (s.fallback != "" ==> Has(s.setups, s.fallback))
  }

  lemma NormalIsSettled(graph: Graph, legacy: Legacy)
    ensures Settled(NormalGraph(graph, legacy)) && TidyGraph(NormalGraph(graph, legacy)) == NormalGraph(graph, legacy)
  {
    forall other ensures NormalGraph(NormalGraph(graph, legacy), other) == NormalGraph(graph, legacy) {
      NormalGraphTwice(graph, legacy, other);
    }
  }

  lemma {:induction false} KeptSetupsTidy(setups: seq<Setup>)
    ensures DistinctIds(KeptSetups(setups)) && forall s <- KeptSetups(setups) :: Tidy(s)
  {
    if setups != [] {
      KeptSetupsTidy(setups[..|setups| - 1]);
      TrimmedTwice(setups[|setups| - 1].id);
      var kept, last := KeptSetups(setups[..|setups| - 1]), TidySetup(setups[|setups| - 1]);
      if last.id != "" && !Has(kept, last.id) {
        forall i | 0 <= i < |kept| ensures kept[i].id != last.id {
          assert kept[i] in kept;
        }
      }
    }
  }

  lemma MainIsTidy()
    ensures TidyId(MAIN)
  {
    TrimFixes(MAIN);
  }

  lemma SetupsOfTidy(setups: seq<Setup>, live: Graph)
    requires TidyGraph(live) == live
    ensures DistinctIds(SetupsOf(setups, live)) && forall s <- SetupsOf(setups, live) :: Tidy(s)
  {
    KeptSetupsTidy(setups);
    MainIsTidy();
  }

  lemma MirroredIds(setups: seq<Setup>, active: string, live: Graph)
    ensures var m := Mirrored(setups, active, live);
      && |m| == |setups|
      && (forall i :: 0 <= i < |m| ==>
            m[i].id == setups[i].id && m[i].name == setups[i].name
            && m[i].graph == if setups[i].id == active then live else setups[i].graph)
    ensures forall id :: Has(Mirrored(setups, active, live), id) <==> Has(setups, id)
  {
    var m := Mirrored(setups, active, live);
    forall id
      ensures Has(m, id) <==> Has(setups, id)
    {
      if s :| s in setups && s.id == id {
        var i :| 0 <= i < |setups| && setups[i] == s;
        assert m[i].id == id && m[i] in m;
      }
      if s :| s in m && s.id == id {
        var i :| 0 <= i < |m| && m[i] == s;
        assert setups[i].id == id && setups[i] in setups;
      }
    }
  }

  lemma MirrorsSound(setups: seq<Setup>, active: string, live: Graph)
    requires DistinctIds(setups) && (forall s <- setups :: Tidy(s)) && TidyGraph(live) == live
    ensures var m := Mirrored(setups, active, live);
      && DistinctIds(m) && (forall s <- m :: Tidy(s)) && (forall s <- m :: s.id == active ==> s.graph == live)
  {
    MirroredIds(setups, active, live);
    var m := Mirrored(setups, active, live);
    forall s <- m
      ensures Tidy(s) && (s.id == active ==> s.graph == live)
    {
      var i :| 0 <= i < |m| && m[i] == s;
      assert setups[i] in setups;
    }
  }

  lemma {:induction false} KeptSlotsExist(clock: Clock, setups: seq<Setup>, schedule: seq<Slot>)
    ensures forall slot <- KeptSlots(clock, setups, schedule) ::
      Has(setups, slot.setup) && clock(slot.start).Some? && clock(slot.end).Some? && slot.start != slot.end
      && slot.days != [] && KeptDays(slot.days) == slot.days
  {
    if schedule != [] {
      KeptSlotsExist(clock, setups, schedule[..|schedule| - 1]);
      DaysTwice(schedule[|schedule| - 1].days);
    }
  }

  lemma DaysTwice(days: seq<int>)
    ensures KeptDays(KeptDays(days)) == KeptDays(days)
  {
    var keep := (day: int) => if 0 <= day <= 6 then Some(day) else None;
    DistinctNoRepeats(keep, days);
    forall day <- KeptDays(days) ensures keep(day) == Some(day) {
      DistinctMembers(keep, days, day);
    }
    DistinctTwice(keep, KeptDays(days));
  }

  lemma ActiveExists(setups: seq<Setup>, live: Graph, active: string)
    ensures Has(SetupsOf(setups, live), ActiveOf(setups, live, active))
  {
    var all := SetupsOf(setups, live);
    assert all[0] in all;
  }

  /** Whatever settings are loaded, normalising leaves them sound. */
  lemma NormalIsSound(clock: Clock, s: State)
    ensures Sound(NormalState(clock, s))
  {
    var live := NormalGraph(s.live, s.legacy);
    var all, active := SetupsOf(s.setups, live), ActiveOf(s.setups, live, s.active);
    NormalIsSettled(s.live, s.legacy);
    SetupsOfTidy(s.setups, live);
    ActiveExists(s.setups, live, s.active);
    MirroredIds(all, active, live);
    MirrorsSound(all, active, live);
    KeptSlotsExist(clock, Mirrored(all, active, live), s.schedule);
  }

  // -------------------------------------------------------------------- switching

  /** The same setups, as far as ids and graphs go. */
  predicate SameGraphs(a: seq<Setup>, b: seq<Setup>) {
    |a| == |b| && forall i :: 0 <= i < |a| ==> a[i].id == b[i].id && a[i].graph == b[i].graph
  }

  lemma HasSame(a: seq<Setup>, b: seq<Setup>, id: string)
    requires SameGraphs(a, b)
    ensures Has(a, id) <==> Has(b, id)
  {
    if s :| s in a && s.id == id {
      var i :| 0 <= i < |a| && a[i] == s;
      assert b[i].id == id && b[i] in b;
    }
    if s :| s in b && s.id == id {
      var i :| 0 <= i < |b| && b[i] == s;
      assert a[i].id == id && a[i] in a;
    }
  }

  lemma LastIsNew(setups: seq<Setup>)
    requires setups != [] && DistinctIds(setups)
    ensures DistinctIds(setups[..|setups| - 1]) && !Has(setups[..|setups| - 1], setups[|setups| - 1].id)
  {
    var init := setups[..|setups| - 1];
    forall i | 0 <= i < |init| ensures init[i].id != setups[|setups| - 1].id {
      assert init[i] == setups[i];
    }
  }

  lemma SameMore(a: seq<Setup>, b: seq<Setup>, x: Setup)
    requires b != [] && SameGraphs(a, b[..|b| - 1]) && x.id == b[|b| - 1].id && x.graph == b[|b| - 1].graph
    ensures SameGraphs(a + [x], b)
  {
    assert forall i :: 0 <= i < |b| - 1 ==> b[..|b| - 1][i] == b[i];
  }

  lemma {:induction false} TidySetupsKept(setups: seq<Setup>)
    requires DistinctIds(setups) && forall s <- setups :: Tidy(s)
    ensures SameGraphs(KeptSetups(setups), setups)
  {
    if setups != [] {
      var init, last := setups[..|setups| - 1], setups[|setups| - 1];
      assert last in setups && forall s <- init :: s in setups;
      LastIsNew(setups);
      TidySetupsKept(init);
      HasSame(KeptSetups(init), init, last.id);
      SameMore(KeptSetups(init), setups, TidySetup(last));
    }
  }

  lemma {:induction false} GraphOfAt(setups: seq<Setup>, i: nat)
    requires DistinctIds(setups) && i < |setups|
    ensures GraphOf(setups, setups[i].id) == Some(setups[i].graph)
  {
    if i < |setups| - 1 {
      assert setups[i].id != setups[|setups| - 1].id;
      GraphOfAt(setups[..|setups| - 1], i);
    }
  }

  lemma {:induction false} HasGraph(setups: seq<Setup>, id: string)
    ensures Has(setups, id) <==> GraphOf(setups, id).Some?
  {
    if setups != [] {
      var init, last := setups[..|setups| - 1], setups[|setups| - 1];
      HasGraph(init, id);
      assert last in setups && forall s :: s in setups ==> s in init || s == last;
    }
  }

  /** What a setup's graph becomes when it is loaded. */
  function Opened(graph: Graph, legacy: Legacy): Graph { NormalGraph(Loaded(graph), legacy) }

  /** Where each setup's graph is after a switch. */
  ghost predicate AfterSwitch(s: State, t: State, id: string, graph: Graph) {
    && t.active == id && t.live == Opened(graph, s.legacy) && t.legacy == s.legacy
    && |t.setups| == |s.setups|
    && forall i :: 0 <= i < |s.setups| ==>
         && t.setups[i].id == s.setups[i].id
         && t.setups[i].graph == if s.setups[i].id == id then t.live else s.setups[i].graph
  }

  lemma {:induction false} SameGraphOf(a: seq<Setup>, b: seq<Setup>, id: string)
    requires SameGraphs(a, b)
    ensures GraphOf(a, id) == GraphOf(b, id)
  {
    if a != [] {
      SameGraphOf(a[..|a| - 1], b[..|b| - 1], id);
    }
  }

  lemma MirrorOfSound(s: State)
    requires Sound(s)
    ensures SameGraphs(Mirrored(s.setups, s.active, s.live), s.setups)
  {
    MirroredIds(s.setups, s.active, s.live);
    forall i | 0 <= i < |s.setups|
      ensures s.setups[i].id == s.active ==> s.setups[i].graph == s.live
    {
      assert s.setups[i] in s.setups;
    }
  }

  lemma StoredIsTidy(s: State)
    requires Sound(s)
    ensures var stored := Mirrored(s.setups, s.active, s.live);
      DistinctIds(stored) && (forall x <- stored :: Tidy(x)) && SameGraphs(stored, s.setups) && stored != []
  {
    MirrorOfSound(s);
    var stored := Mirrored(s.setups, s.active, s.live);
    forall x <- stored ensures Tidy(x) {
      var i :| 0 <= i < |stored| && stored[i] == x;
      assert s.setups[i] in s.setups;
    }
    assert |stored| == |s.setups|;
  }

  /** Loading a setup that is there, out of a tidy list. */
  lemma LoadedState(clock: Clock, s: State, stored: seq<Setup>, id: string, graph: Graph)
    requires DistinctIds(stored) && (forall x <- stored :: Tidy(x)) && stored != [] && Has(stored, id)
    requires SameGraphs(stored, s.setups)
    ensures AfterSwitch(s, NormalState(clock, s.(setups := stored, live := Loaded(graph), active := id)), id, graph)
  {
    var loaded := s.(setups := stored, live := Loaded(graph), active := id);
    var live := NormalGraph(loaded.live, loaded.legacy);
    TidySetupsKept(stored);
    HasSame(KeptSetups(stored), stored, id);
    MirroredIds(SetupsOf(stored, live), id, live);
  }

  /** Switching stores nothing new for the other setups, and opens the one named. */
  lemma SwitchMoves(clock: Clock, s: State, id: string)
    requires Sound(s) && Has(s.setups, id)
    ensures GraphOf(s.setups, id).Some?
    ensures var t := Switched(clock, s, id); Sound(t) && AfterSwitch(s, t, id, GraphOf(s.setups, id).value)
  {
    var stored := Mirrored(s.setups, s.active, s.live);
    StoredIsTidy(s);
    HasGraph(s.setups, id);
    SameGraphOf(stored, s.setups, id);
    HasSame(stored, s.setups, id);
    var graph := GraphOf(s.setups, id).value;
    LoadedState(clock, s, stored, id, graph);
    NormalIsSound(clock, s.(setups := stored, live := Loaded(graph), active := id));
  }

  lemma SettledOpens(graph: Graph, legacy: Legacy)
    requires Settled(graph)
    ensures Opened(graph, legacy) == graph
  {
    assert NormalGraph(graph, legacy) == graph;
    assert Loaded(graph) == graph;
  }

  lemma SameIndexes(a: seq<Setup>, b: seq<Setup>, id: string)
    requires |a| == |b| && forall i :: 0 <= i < |a| ==> a[i].id == b[i].id
    ensures Has(a, id) <==> Has(b, id)
  {
    if s :| s in a && s.id == id {
      var i :| 0 <= i < |a| && a[i] == s;
      assert b[i].id == id && b[i] in b;
    }
    if s :| s in b && s.id == id {
      var i :| 0 <= i < |b| && b[i] == s;
      assert a[i].id == id && a[i] in a;
    }
  }

  /** The two switches, setup by setup: only the other one's graph can have changed. */
  lemma BackAndForth(s: State, t: State, u: State, id: string, graph: Graph)
    requires Sound(s) && Sound(t) && id != s.active
    requires AfterSwitch(s, t, id, graph) && GraphOf(t.setups, s.active).Some?
    requires AfterSwitch(t, u, s.active, GraphOf(t.setups, s.active).value)
    requires GraphOf(s.setups, id) == Some(graph)
    ensures u.live == s.live && u.active == s.active
    ensures forall i :: 0 <= i < |s.setups| ==>
      (u.setups[i].id == s.setups[i].id
       && u.setups[i].graph == if s.setups[i].id == id then Opened(graph, s.legacy) else s.setups[i].graph)
  {
    var x :| x in s.setups && x.id == s.active;
    var i :| 0 <= i < |s.setups| && s.setups[i] == x;
    GraphOfAt(t.setups, i);
    SettledOpens(s.live, s.legacy);
    forall k | 0 <= k < |s.setups|
      ensures s.setups[k].id == s.active ==> s.setups[k].graph == s.live
    {
      assert s.setups[k] in s.setups;
    }
  }

  lemma SameWhenOpened(s: State, u: State, id: string, graph: Graph)
    requires DistinctIds(s.setups) && Has(s.setups, id) && GraphOf(s.setups, id) == Some(graph) && |u.setups| == |s.setups|
    requires forall i :: 0 <= i < |s.setups| ==>
      (u.setups[i].id == s.setups[i].id
       && u.setups[i].graph == if s.setups[i].id == id then Opened(graph, s.legacy) else s.setups[i].graph)
    ensures SameGraphs(u.setups, s.setups) <==> Opened(graph, s.legacy) == graph
  {
    var x :| x in s.setups && x.id == id;
    var i :| 0 <= i < |s.setups| && s.setups[i] == x;
    GraphOfAt(s.setups, i);
    if Opened(graph, s.legacy) == graph {
      forall k | 0 <= k < |s.setups| ensures u.setups[k].graph == s.setups[k].graph {
        if s.setups[k].id == id {
          GraphOfAt(s.setups, k);
        }
      }
    }
  }

  /**
   * Switching to another setup and back restores what is live, and leaves every
   * setup's graph as it was exactly when the other one's opens unchanged.
   */
  lemma SwitchBackRestores(clock: Clock, s: State, id: string)
    requires Sound(s) && Has(s.setups, id) && id != s.active
    ensures GraphOf(s.setups, id).Some?
    ensures var u := Switched(clock, Switched(clock, s, id), s.active);
      var graph := GraphOf(s.setups, id).value;
      && Sound(u) && u.live == s.live && u.active == s.active
      && (SameGraphs(u.setups, s.setups) <==> Opened(graph, s.legacy) == graph)
  {
    SwitchMoves(clock, s, id);
    var t := Switched(clock, s, id);
    SameIndexes(t.setups, s.setups, s.active);
    SwitchMoves(clock, t, s.active);
    var u := Switched(clock, t, s.active);
    BackAndForth(s, t, u, id, GraphOf(s.setups, id).value);
    SameWhenOpened(s, u, id, GraphOf(s.setups, id).value);
  }

  /** A saved graph need not open unchanged: one whose default server was saved with spaces around it does not. */
  lemma OpeningCanChange(legacy: Legacy)
    ensures var graph := Graph(Some([]), Proxy, " ", map[], [], []);
      TidyGraph(graph) == graph && Opened(graph, legacy) != graph
  {
    TrimTrims(" ");
    TrimFixes(" ");
  }

  /** A name is settled by one pass exactly when the cut does not leave a space at its end. */
  lemma NameTwice(name: string)
    ensures TidyName(TidyName(name)) == TidyName(name) <==>
      |Trim(name)| <= MAX_NAME || !IsSpace(Trim(name)[MAX_NAME - 1])
  {
    TrimTrims(name);
    TrimFixes(TidyName(name));
    ShortTrim(TidyName(name));
  }

  lemma ShortTrim(s: string)
    ensures |Trim(s)| <= |s|
  {
  }

  // --------------------------------------------------------------------- schedule

  /** day is 0 for Sunday; minute is past midnight. */
  datatype Moment = Moment(day: nat, minute: nat)

  predicate ValidMoment(m: Moment) { m.day < 7 && m.minute < 24 * 60 }

  predicate Covers(clock: Clock, s: Slot, now: Moment) {
    match (clock(s.start), clock(s.end))
    case (Some(start), Some(end)) =>
      if start == end then false
      else if start < end then now.day in s.days && start <= now.minute < end
      else (now.day in s.days && now.minute >= start) || ((now.day + 6) % 7 in s.days && now.minute < end)
    case _ => false
  }

  const DAY := 24 * 60
  const WEEK := 7 * DAY

  /** How long after a listed day's start time now is, going round the week. */
  function Elapsed(day: int, start: nat, now: Moment): int { ((now.day * DAY + now.minute) - (day * DAY + start)) % WEEK }

  function Length(start: nat, end: nat): int { (end - start) % DAY }

  lemma ElapsedToday(now: Moment, start: nat)
    requires ValidMoment(now) && start < DAY
    ensures Elapsed(now.day, start, now) == if now.minute >= start then now.minute - start else now.minute - start + WEEK
  {
  }

  lemma ElapsedYesterday(now: Moment, start: nat)
    requires ValidMoment(now) && start < DAY
    ensures Elapsed((now.day + 6) % 7, start, now) == now.minute - start + DAY
  {
    if now.day == 0 {
      assert (now.day + 6) % 7 == 6;
    } else {
      assert (now.day + 6) % 7 == now.day - 1;
    }
  }

  /** Two days on or more, a window that lasts less than a day is over. */
  lemma ElapsedLater(now: Moment, day: int, start: nat)
    requires ValidMoment(now) && start < DAY && 0 <= day < 7 && day != now.day && day != (now.day + 6) % 7
    ensures Elapsed(day, start, now) >= DAY
  {
    var days := if day < now.day then now.day - day else now.day - day + 7;
    assert days >= 2 by {
      if now.day == 0 {
        assert (now.day + 6) % 7 == 6;
      } else {
        assert (now.day + 6) % 7 == now.day - 1;
      }
    }
    var away := days * DAY + now.minute - start;
    var apart := (now.day * DAY + now.minute) - (day * DAY + start);
    assert DAY <= away < WEEK && (apart == away || apart == away - WEEK);
  }

  predicate InWindow(days: seq<int>, start: nat, end: nat, now: Moment) {
    exists day <- days :: Elapsed(day, start, now) < Length(start, end)
  }

  /** A slot is on exactly while one of its days' windows is open, windows past midnight and past Saturday included, and one that ends as it starts not. */
  lemma CoversIsWindow(clock: Clock, s: Slot, now: Moment)
    requires ValidClock(clock, s.start) && ValidClock(clock, s.end)
    requires ValidMoment(now) && forall day <- s.days :: 0 <= day < 7
    ensures Covers(clock, s, now) <==> InWindow(s.days, clock(s.start).value, clock(s.end).value, now)
  {
    var start, end := clock(s.start).value, clock(s.end).value;
    ElapsedToday(now, start);
    ElapsedYesterday(now, start);
    assert Length(start, end) == if start <= end then end - start else end - start + DAY;
    forall day <- s.days | day != now.day && day != (now.day + 6) % 7
      ensures Elapsed(day, start, now) >= DAY
    {
      ElapsedLater(now, day, start);
    }
  }

  /** The first slot that is on, else the fallback. */
  function Scheduled(clock: Clock, schedule: seq<Slot>, fallback: string, now: Moment): string {
    if schedule == [] then fallback
    else if Covers(clock, schedule[0], now) then schedule[0].setup
    else Scheduled(clock, schedule[1..], fallback, now)
  }

  /** The schedule never switches to something that is not there. */
  lemma {:induction false} ScheduledExists(clock: Clock, setups: seq<Setup>, schedule: seq<Slot>, fallback: string, now: Moment)
    requires (forall slot <- schedule :: Has(setups, slot.setup)) && (fallback != "" ==> Has(setups, fallback))
    ensures var wanted := Scheduled(clock, schedule, fallback, now); wanted != "" ==> Has(setups, wanted)
  {
    if schedule != [] {
      assert schedule[0] in schedule && forall slot <- schedule[1..] :: slot in schedule;
      ScheduledExists(clock, setups, schedule[1..], fallback, now);
    }
  }

  /** So following the schedule always has somewhere to go. */
  lemma ScheduleIsSafe(clock: Clock, s: State, now: Moment)
    ensures var t := NormalState(clock, s);
      var wanted := Scheduled(clock, t.schedule, t.fallback, now);
      wanted != "" ==> Has(t.setups, wanted) && Sound(Switched(clock, t, wanted)) && Switched(clock, t, wanted).active == wanted
  {
    NormalIsSound(clock, s);
    var t := NormalState(clock, s);
    var wanted := Scheduled(clock, t.schedule, t.fallback, now);
    ScheduledExists(clock, t.setups, t.schedule, t.fallback, now);
    if wanted != "" {
      SwitchMoves(clock, t, wanted);
    }
  }
}
