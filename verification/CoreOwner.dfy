// Which core the service holds (internal/core/instance.go): starts and stops
// that may fail at any point, and what they leave running.

module CoreOwner {
  import opened Wrappers
  import opened Sequences

  datatype Core = Builtin | Xray | SingBox | Mihomo | Unknown

  /** How one call fares: whether each thing it tries succeeds. */
  datatype Luck = Luck(
    closes: bool, available: bool, parses: bool, creates: bool, starts: bool, engineStarts: bool, altStarts: bool)

  /**
   * What is held. Each context, box, engine or other core brought up gets the
   * next number; closed lists those taken down again, in order.
   */
  datatype State = State(
    instance: Option<nat>, cancel: Option<nat>, alt: Option<nat>, engine: Option<nat>, next: nat, closed: seq<nat>)

  const NOTHING := State(None, None, None, None, 0, [])

  function Open(s: State): State { s.(next := s.next + 1) }

  function Close(s: State, what: Option<nat>): State {
    match what case Some(id) => s.(closed := s.closed + [id]) case None => s
  }

  predicate Idle(s: State) { s.instance.None? && s.cancel.None? && s.alt.None? && s.engine.None? }

  predicate Running(s: State) { s.instance.Some? || s.alt.Some? }

  /** Another core goes alone; otherwise the context, then the built-in core, then the engine it sends through. */
  function Stopped(s: State): State {
    if s.alt.Some? then Close(s, s.alt).(alt := None)
    else if s.instance.None? then Close(s, s.engine).(engine := None)
    else Close(Close(Close(s, s.cancel), s.instance), s.engine).(instance := None, cancel := None, engine := None)
  }

  /** Whether stopping reports an error: only what was running can. */
  function StopFails(s: State, luck: Luck): bool { Running(s) && !luck.closes }

  /** The built-in core, and the context it runs in, which a failure gives back. */
  function BuiltinStarted(s: State, luck: Luck): (State, bool) {
    if !luck.parses then (s, false)
    else
      var context := s.next;
      if !luck.creates then (Close(Open(s), Some(context)), false)
      else if !luck.starts then (Close(Close(Open(Open(s)), Some(context + 1)), Some(context)), false)
      else (Open(Open(s)).(instance := Some(context + 1), cancel := Some(context)), true)
  }

  function StartedBuiltin(s: State, luck: Luck): (State, bool) {
    if StopFails(s, luck) then (Stopped(s), false) else BuiltinStarted(Stopped(s), luck)
  }

  function StartedCore(s: State, core: Core, luck: Luck): (State, bool) {
    var stopped := Stopped(s);
    if StopFails(s, luck) || !luck.available then (stopped, false)
    else match core
      case Builtin => BuiltinStarted(stopped, luck)
      case Xray =>
        if !luck.engineStarts then (stopped, false)
        else
          var (started, ok) := BuiltinStarted(Open(stopped), luck);
          if ok then (started.(engine := Some(stopped.next)), true) else (Close(started, Some(stopped.next)), false)
      case SingBox => if luck.altStarts then (Open(stopped).(alt := Some(stopped.next)), true) else (stopped, false)
      case Mihomo => if luck.altStarts then (Open(stopped).(alt := Some(stopped.next)), true) else (stopped, false)
      case Unknown => (stopped, false)
  }

  // --------------------------------------------------------------- the owner

  class Instance {
    var instance: Option<nat>
    var cancel: Option<nat>
    var alt: Option<nat>
    var engine: Option<nat>
    var next: nat
    ghost var closed: seq<nat>

    ghost function Now(): State
      reads this
    {
      State(instance, cancel, alt, engine, next, closed)
    }

    constructor ()
      ensures Now() == NOTHING
    {
      instance, cancel, alt, engine, next, closed := None, None, None, None, 0, [];
    }

    method Bring() returns (id: nat)
      modifies this`next
      ensures Now() == Open(old(Now())) && id == old(next)
    {
      id := next;
      next := next + 1;
    }

    method Take(id: nat)
      modifies this`closed
      ensures Now() == Close(old(Now()), Some(id))
    {
      closed := closed + [id];
    }

    method StopLocked(luck: Luck) returns (ok: bool)
      modifies this
      ensures Now() == Stopped(old(Now())) && ok == !StopFails(old(Now()), luck)
    {
      if alt.Some? {
        var was := alt.value;
        alt := None;
        Take(was);
        return luck.closes;
      }
      if instance.None? {
        CloseEngine();
        return true;
      }
      var box, context := instance.value, cancel;
      instance, cancel := None, None;
      if context.Some? {
        Take(context.value);
      }
      Take(box);
      CloseEngine();
      return luck.closes;
    }

    method CloseEngine()
      modifies this
      ensures Now() == Close(old(Now()), old(engine)).(engine := None)
    {
      if engine.Some? {
        Take(engine.value);
      }
      engine := None;
    }

    method StartBuiltinLocked(luck: Luck) returns (ok: bool)
      modifies this
      ensures (Now(), ok) == BuiltinStarted(old(Now()), luck)
    {
      if !luck.parses { return false; }
      var context := Bring();
      if !luck.creates {
        Take(context);
        return false;
      }
      var box := Bring();
      if !luck.starts {
        Take(box);
        Take(context);
        return false;
      }
      instance, cancel := Some(box), Some(context);
      return true;
    }

    method Start(luck: Luck) returns (ok: bool)
      modifies this
      ensures (Now(), ok) == StartedBuiltin(old(Now()), luck)
    {
      ok := StopLocked(luck);
      if !ok { return; }
      ok := StartBuiltinLocked(luck);
    }

    method StartCore(core: Core, luck: Luck) returns (ok: bool)
      modifies this
      ensures (Now(), ok) == StartedCore(old(Now()), core, luck)
    {
      ok := StopLocked(luck);
      if !ok || !luck.available { return false; }
      match core {
        case Builtin => ok := StartBuiltinLocked(luck);
        case Xray => ok := StartWithEngine(luck);
        case SingBox => ok := StartAlternative(luck);
        case Mihomo => ok := StartAlternative(luck);
        case Unknown => ok := false;
      }
    }

    /** Xray first: the built-in core's outbounds point at it. */
    method StartWithEngine(luck: Luck) returns (ok: bool)
      modifies this
      ensures (Now(), ok) ==
        if !luck.engineStarts then (old(Now()), false)
        else
          var (started, up) := BuiltinStarted(Open(old(Now())), luck);
          if up then (started.(engine := Some(old(next))), true) else (Close(started, Some(old(next))), false)
    {
      if !luck.engineStarts { return false; }
      var xray := Bring();
      ok := StartBuiltinLocked(luck);
      if !ok {
        Take(xray);
        return;
      }
      engine := Some(xray);
    }

    method StartAlternative(luck: Luck) returns (ok: bool)
      modifies this
      ensures (Now(), ok) ==
        if luck.altStarts then (Open(old(Now())).(alt := Some(old(next))), true) else (old(Now()), false)
    {
      if !luck.altStarts { return false; }
      var other := Bring();
      alt := Some(other);
      return true;
    }

    method Stop(luck: Luck) returns (ok: bool)
      modifies this
      ensures Now() == Stopped(old(Now())) && ok == !StopFails(old(Now()), luck)
    {
      ok := StopLocked(luck);
    }
  }

  // --------------------------------------------------------------- every run

  datatype Call = Start(luck: Luck) | StartCore(core: Core, luck: Luck) | Stop(luck: Luck)

  function After(s: State, call: Call): (State, bool) {
    match call
    case Start(luck) => StartedBuiltin(s, luck)
    case StartCore(core, luck) => StartedCore(s, core, luck)
    case Stop(luck) => (Stopped(s), !StopFails(s, luck))
  }

  function Run(calls: seq<Call>): State {
    if calls == [] then NOTHING else After(Run(calls[..|calls| - 1]), calls[|calls| - 1]).0
  }

  predicate Holds(s: State, id: nat) {
    s.instance == Some(id) || s.cancel == Some(id) || s.alt == Some(id) || s.engine == Some(id)
  }

  /** Which things may be held together. */
  ghost predicate Shape(s: State) {
    && (s.instance.Some? <==> s.cancel.Some?)
    && (s.alt.Some? ==> s.instance.None? && s.engine.None?)
    && (s.engine.Some? ==> s.instance.Some?)
    && (s.instance.Some? ==> s.instance != s.cancel && s.instance != s.engine && s.cancel != s.engine)
    && (forall id: nat :: Holds(s, id) ==> id < s.next)
  }

  /**
   * Everything brought up is held or was closed, never both, and nothing was
   * closed twice; loose are things their caller has yet to keep or close.
   */
  ghost predicate SoundBut(s: State, loose: set<nat>) {
    && Shape(s) && NoRepeats(s.closed)
    && (forall id: nat :: id in loose ==> id < s.next && !Holds(s, id))
    && (forall id: nat :: id in s.closed <==> id < s.next && !Holds(s, id) && id !in loose)
  }

  ghost predicate Sound(s: State) { SoundBut(s, {}) }

  lemma CloseLoose(s: State, loose: set<nat>, id: nat)
    requires SoundBut(s, loose) && id in loose
    ensures SoundBut(Close(s, Some(id)), loose - {id})
  {
    assert forall x: nat :: Holds(Close(s, Some(id)), x) <==> Holds(s, x);
  }

  /** Letting go of everything held. */
  function Bare(s: State): State { s.(instance := None, cancel := None, alt := None, engine := None) }

  ghost function HeldBy(s: State): set<nat> {
    (if s.instance.Some? then {s.instance.value} else {}) + (if s.cancel.Some? then {s.cancel.value} else {})
    + (if s.alt.Some? then {s.alt.value} else {}) + (if s.engine.Some? then {s.engine.value} else {})
  }

  lemma LetGo(s: State)
    requires Sound(s)
    ensures SoundBut(Bare(s), HeldBy(s))
  {
    forall id: nat ensures id in HeldBy(s) <==> Holds(s, id) {}
  }

  /** However stopping fares, nothing is held afterwards. */
  lemma StoppedIsIdle(s: State)
    requires Sound(s)
    ensures Sound(Stopped(s)) && Idle(Stopped(s))
  {
    LetGo(s);
    var bare, held := Bare(s), HeldBy(s);
    if s.alt.Some? {
      CloseLoose(bare, held, s.alt.value);
      assert held - {s.alt.value} == {};
    } else if s.instance.Some? {
      CloseLoose(bare, held, s.cancel.value);
      var first, rest := Close(bare, s.cancel), held - {s.cancel.value};
      CloseLoose(first, rest, s.instance.value);
      var second, last := Close(first, s.instance), rest - {s.instance.value};
      if s.engine.Some? {
        CloseLoose(second, last, s.engine.value);
        assert last - {s.engine.value} == {};
      } else {
        assert last == {};
      }
      assert Stopped(s) == Close(second, s.engine);
    }
  }

  lemma OpenLoose(s: State, loose: set<nat>)
    requires SoundBut(s, loose)
    ensures SoundBut(Open(s), loose + {s.next})
  {
    assert forall x: nat :: Holds(Open(s), x) <==> Holds(s, x);
  }

  lemma BuiltinSound(s: State, loose: set<nat>, luck: Luck)
    requires SoundBut(s, loose) && Idle(s)
    ensures var (t, ok) := BuiltinStarted(s, luck);
      SoundBut(t, loose) && t.alt.None? && t.engine.None? && (if ok then t.instance.Some? else Idle(t))
  {
    var context := s.next;
    OpenLoose(s, loose);
    OpenLoose(Open(s), loose + {context});
    if !luck.creates {
      CloseLoose(Open(s), loose + {context}, context);
      assert loose + {context} - {context} == loose;
    } else if !luck.starts {
      var both := loose + {context} + {context + 1};
      CloseLoose(Open(Open(s)), both, context + 1);
      CloseLoose(Close(Open(Open(s)), Some(context + 1)), both - {context + 1}, context);
      assert both - {context + 1} - {context} == loose;
    }
  }

  lemma EngineSound(s: State, luck: Luck)
    requires Sound(s) && Idle(s) && luck.engineStarts
    ensures var (t, ok) := BuiltinStarted(Open(s), luck);
      if ok then Sound(t.(engine := Some(s.next))) else Sound(Close(t, Some(s.next))) && Idle(t)
  {
    OpenLoose(s, {});
    BuiltinSound(Open(s), {} + {s.next}, luck);
    var (t, ok) := BuiltinStarted(Open(s), luck);
    if !ok {
      CloseLoose(t, {} + {s.next}, s.next);
    }
  }

  lemma AltSound(s: State)
    requires Sound(s) && Idle(s)
    ensures Sound(Open(s).(alt := Some(s.next)))
  {
    OpenLoose(s, {});
  }

  /** What a call leaves held. */
  ghost predicate Leaves(call: Call, ok: bool, t: State) {
    match call
    case Stop(_) => Idle(t)
    case Start(_) => if ok then t.instance.Some? && t.alt.None? && t.engine.None? else Idle(t)
    case StartCore(core, _) =>
      if !ok then Idle(t)
      else match core
        case Builtin => t.instance.Some? && t.alt.None? && t.engine.None?
        case Xray => t.instance.Some? && t.alt.None? && t.engine.Some?
        case _ => t.alt.Some?
  }

  lemma CallSound(s: State, call: Call)
    requires Sound(s)
    ensures var (t, ok) := After(s, call); Sound(t) && Leaves(call, ok, t)
  {
    StoppedIsIdle(s);
    var stopped := Stopped(s);
    match call
    case Stop(_) =>
    case Start(luck) => BuiltinSound(stopped, {}, luck);
    case StartCore(core, luck) =>
      BuiltinSound(stopped, {}, luck);
      AltSound(stopped);
      if luck.engineStarts {
        EngineSound(stopped, luck);
      }
  }

  /**
   * Over every run of starts and stops, whatever fails on the way: at most one
   * core is held, an engine only with the built-in core, and everything ever
   * started is either still held or was closed exactly once.
   */
  lemma {:induction false} NothingLeaks(calls: seq<Call>)
    ensures Sound(Run(calls))
  {
    if calls == [] {
    } else {
      NothingLeaks(calls[..|calls| - 1]);
      CallSound(Run(calls[..|calls| - 1]), calls[|calls| - 1]);
    }
  }

  /** A start that fails leaves nothing running; one that succeeds leaves just the core it was asked for. */
  lemma LastCallDecides(calls: seq<Call>, call: Call)
    ensures var before, (t, ok) := Run(calls), After(Run(calls), call);
      Leaves(call, ok, t) && Run(calls + [call]) == t
  {
    NothingLeaks(calls);
    CallSound(Run(calls), call);
    assert (calls + [call])[..|calls|] == calls;
  }

  /** The built-in core is closed before the engine it sends through, and its context before either. */
  lemma EngineOutlivesCore(calls: seq<Call>, luck: Luck)
    requires Run(calls).engine.Some?
    ensures var s := Run(calls);
      && s.cancel.Some? && s.instance.Some?
      && Run(calls + [Stop(luck)]).closed == s.closed + [s.cancel.value, s.instance.value, s.engine.value]
  {
    NothingLeaks(calls);
    assert (calls + [Stop(luck)])[..|calls|] == calls;
  }
}
