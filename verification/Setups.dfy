// The settings a switch overwrites in place (internal/models/setups.go,
// internal/models/schedule.go).

module Setups {
  import opened Wrappers
  import opened Sequences
  import opened Text
  import opened Models
  import opened Normalize
  import opened SetupSpec

  /** The settings the routing canvas and its setups live in. */
  class Settings {
    var live: Graph
    var setups: seq<Setup>
    var active: string
    var schedule: seq<Slot>
    var fallback: string
    const legacy: Legacy

    function Now(): State
      reads this
    {
      State(live, setups, active, schedule, fallback, legacy)
    }

    constructor (s: State)
      ensures Now() == s
    {
      live, setups, active, schedule, fallback, legacy := s.live, s.setups, s.active, s.schedule, s.fallback, s.legacy;
    }

    method SetGraph(graph: Graph)
      modifies this`live
      ensures Now() == old(Now()).(live := Loaded(graph))
    {
      live := graph;
      if live.rules.None? {
        live := live.(rules := Some([]));
      }
      if live.defaultAction == NO_ACTION {
        live := live.(defaultAction := Proxy);
      }
    }

    /** Stores what is live into the setup it belongs to. */
    method StoreLive()
      modifies this`setups
      ensures Now() == old(Now()).(setups := Mirrored(old(setups), active, live))
    {
      var i := 0;
      while i < |setups|
        invariant 0 <= i <= |setups| == |old(setups)|
        invariant forall k :: 0 <= k < i ==> setups[k] == Mirrored(old(setups), active, live)[k]
        invariant forall k :: i <= k < |setups| ==> setups[k] == old(setups)[k]
      {
        if setups[i].id == active {
          setups := setups[i := setups[i].(graph := live)];
        }
        i := i + 1;
      }
      assert setups == Mirrored(old(setups), active, live);
    }

    method NormalizeSetups()
      modifies this`setups, this`active
      ensures var all, current := SetupsOf(old(setups), live), ActiveOf(old(setups), live, old(active));
        Now() == old(Now()).(setups := Mirrored(all, current, live), active := current)
    {
      var kept := TidiedSetups(setups);
      var seen := Has(kept, active);
      if kept == [] {
        kept := [Setup(MAIN, "", live)];
      }
      setups := kept;
      if !seen {
        active := setups[0].id;
      }
      StoreLive();
    }

    static method TidiedSetups(setups: seq<Setup>) returns (kept: seq<Setup>)
      ensures kept == KeptSetups(setups)
    {
      kept := [];
      for i := 0 to |setups|
        invariant kept == KeptSetups(setups[..i])
      {
        Took(setups, i);
        var id := Trim(setups[i].id);
        if id != "" && !Has(kept, id) {
          var name := Trim(setups[i].name);
          if |name| > MAX_NAME {
            name := name[..MAX_NAME];
          }
          kept := kept + [Setup(id, name, TidyGraph(setups[i].graph))];
        }
      }
      Whole(setups);
    }

    method NormalizeSchedule(clock: Clock)
      modifies this`schedule, this`fallback
      ensures Now() == old(Now()).(
        schedule := KeptSlots(clock, setups, old(schedule)),
        fallback := if old(fallback) != "" && !Has(setups, old(fallback)) then "" else old(fallback))
    {
      schedule := TidiedSlots(clock, setups, schedule);
      if fallback != "" && !Has(setups, fallback) {
        fallback := "";
      }
    }

    static method TidiedSlots(clock: Clock, setups: seq<Setup>, schedule: seq<Slot>) returns (kept: seq<Slot>)
      ensures kept == KeptSlots(clock, setups, schedule)
    {
      kept := [];
      for i := 0 to |schedule|
        invariant kept == KeptSlots(clock, setups, schedule[..i])
      {
        if |kept| == MAX_SLOTS {
          FullStays(clock, setups, schedule, i);
          return;
        }
        Took(schedule, i);
        var tidied := TidySlot(clock, setups, schedule[i], i);
        if tidied.Some? {
          kept := kept + [tidied.value];
        }
      }
      Whole(schedule);
    }

    /** normalizeRouting's loop over the rules. */
    static method TidiedRules(rules: seq<Rule>) returns (kept: seq<Rule>)
      ensures kept == KeptRules(rules)
    {
      kept := [];
      for i := 0 to |rules|
        invariant kept == KeptRules(rules[..i])
      {
        Took(rules, i);
        var rule := rules[i];
        if !rule.kind.UnknownKind? && (rule.action == NO_ACTION || ValidAction(rule.action)) {
          if rule.id == "" {
            rule := rule.(id := RuleId(rule.kind, i));
          }
          rule := rule.(server := if rule.action == Proxy then Trim(rule.server) else "", dns := Trim(rule.dns));
          if rule.kind.Logical? {
            var conditions := TidiedConditions(rule.conditions);
            rule := rule.(mode := if rule.mode == Any then Any else All, conditions := conditions);
          } else {
            rule := rule.(mode := NO_MODE, conditions := []);
          }
          kept := kept + [rule];
        }
      }
      Whole(rules);
    }

    static method TidiedConditions(conditions: seq<Condition>) returns (kept: seq<Condition>)
      ensures kept == KeptConditions(conditions)
    {
      kept := [];
      for i := 0 to |conditions|
        invariant kept == KeptConditions(conditions[..i])
      {
        Took(conditions, i);
        if ValidMatcherKind(conditions[i].kind) && |kept| != MAX_CONDITIONS {
          kept := kept + [conditions[i]];
        }
      }
      Whole(conditions);
    }

    method NormalizeRouting()
      modifies this`live
      ensures Now() == old(Now()).(live := NormalGraph(old(live), legacy))
    {
      var rules, action := live.rules, live.defaultAction;
      if rules.None? && action == NO_ACTION {
        rules, action := Some(MigratedRules(legacy)), MigratedAction(legacy);
      }
      if rules.None? {
        rules := Some([]);
      }
      if !ValidAction(action) {
        action := Proxy;
      }
      var kept := TidiedRules(rules.value);
      live := live.(
        rules := Some(kept), defaultAction := action,
        defaultServer := if action == Proxy then Trim(live.defaultServer) else "",
        servers := Distinct(NormalServer, live.servers), comments := Collect(NormalComment, live.comments));
    }

    method Normalize(clock: Clock)
      modifies this
      ensures Now() == NormalState(clock, old(Now()))
      ensures Sound(Now())
    {
      NormalIsSound(clock, Now());
      NormalizeRouting();
      NormalizeSetups();
      NormalizeSchedule(clock);
    }

    method SwitchSetup(clock: Clock, id: string) returns (switched: bool)
      modifies this
      ensures switched == Has(old(setups), id)
      ensures Now() == Switched(clock, old(Now()), id)
    {
      ghost var before := Now();
      var target: Option<nat> := None;
      for i := 0 to |setups|
        invariant Now() == before
        invariant target.None? ==> forall k :: 0 <= k < i ==> setups[k].id != id
        invariant target.Some? ==>
          target.value < i && setups[target.value].id == id && forall k :: target.value < k < i ==> setups[k].id != id
      {
        if setups[i].id == id {
          target := Some(i);
        }
      }
      if target.None? { return false; }
      assert setups[target.value] in setups;
      MirroredIds(setups, active, live);
      StoreLive();
      LastIsGraph(setups, id, target.value);
      SetGraph(setups[target.value].graph);
      active := id;
      Normalize(clock);
      return true;
    }
  }

  lemma {:induction false} LastIsGraph(setups: seq<Setup>, id: string, i: nat)
    requires i < |setups| && setups[i].id == id && forall k :: i < k < |setups| ==> setups[k].id != id
    ensures GraphOf(setups, id) == Some(setups[i].graph)
  {
    if i < |setups| - 1 {
      LastIsGraph(setups[..|setups| - 1], id, i);
    }
  }

  lemma {:induction false} FullStays(clock: Clock, setups: seq<Setup>, schedule: seq<Slot>, i: nat)
    requires i <= |schedule| && |KeptSlots(clock, setups, schedule[..i])| == MAX_SLOTS
    ensures KeptSlots(clock, setups, schedule) == KeptSlots(clock, setups, schedule[..i])
    decreases |schedule|
  {
    if i == |schedule| {
      Whole(schedule);
    } else {
      var init := schedule[..|schedule| - 1];
      assert init[..i] == schedule[..i];
      FullStays(clock, setups, init, i);
    }
  }
}
