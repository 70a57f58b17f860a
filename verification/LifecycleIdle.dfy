// What is left once a disconnect is through (internal/app/connection.go,
// internal/app/routing.go): when the tunnel stays down, and when something still
// in flight brings a server up with no new connect.

module LifecycleIdle {
  import opened Wrappers
  import opened Sequences
  import opened Lifecycle

  predicate Asks(events: seq<Event>) {
    exists e <- events :: e.Connect?
  }

  predicate ServerSince(s: State, t: State) {
    exists k :: |s.starts| <= k < |t.starts| && t.starts[k].config.ServerConfig?
  }

  /** Some run without a new connect starts a server. */
  ghost predicate StartsAgain(s: State) {
    exists more: seq<Event> :: !Asks(more) && ServerSince(s, Run(s, more))
  }

  /** A profile a reader took from the shown state, and is on its way to show as connected. */
  predicate Carries(shown: Shown) { !shown.status.Connected? && shown.server.Some? }

  /** Neither about to start a server nor about to show one. */
  predicate Calm(generation: nat, actor: Actor) {
    match actor
    case Handler(drop) => !drop.Remembers?
    case Connector(g, _, phase) => phase.Over? || phase.Failing? || (g < generation && !Connects(actor))
    case Disconnector(_, _) => true
    case Watcher(_, watch) =>
      (match watch
       case Read(shown) => !Carries(shown)
       case Answered(shown, up) => !up || !Carries(shown)
       case Writing(shown) => shown.server.None?
       case _ => true)
    case Applier(apply) => !apply.Restarting?
  }

  /** Nothing to go back to, no profile shown, and every goroutine calm. */
  ghost predicate Quiet(s: State) {
    && !s.remembered && s.shown.server.None?
    && forall i: nat :: i < |s.actors| ==> Calm(s.generation, s.actors[i])
  }

  // ------------------------------------------------------- quiet stays quiet

  /** A step of one actor that leaves it calm, and perhaps another calm one beside it. */
  ghost predicate Calmly(s: State, t: State) {
    && t.generation == s.generation && !t.remembered && t.shown.server.None? && |s.actors| <= |t.actors|
    && forall i: nat :: i < |t.actors| ==> Calm(t.generation, t.actors[i])
  }

  lemma HandlerCalm(s: State, e: Event)
    requires Quiet(s) && !Arrives(e) && e.a < |s.actors| && s.actors[e.a].Handler?
    ensures Calmly(s, HandlerStep(s, e))
  {
  }

  lemma ReconnectCalm(s: State, e: Event)
    requires Quiet(s) && !Arrives(e) && e.a < |s.actors| && s.actors[e.a].Connector?
    ensures Calmly(s, ReconnectStep(s, e))
  {
  }

  lemma ConnectCalm(s: State, e: Event)
    requires Quiet(s) && !Arrives(e) && e.a < |s.actors| && s.actors[e.a].Connector? && s.actors[e.a].phase.Queued?
    ensures Calmly(s, ConnectStep(s, e))
  {
  }

  lemma DisconnectorCalm(s: State, e: Event)
    requires Quiet(s) && !Arrives(e) && e.a < |s.actors| && s.actors[e.a].Disconnector?
    ensures Calmly(s, DisconnectorStep(s, e))
  {
  }

  lemma WatcherCalm(s: State, e: Event)
    requires Quiet(s) && !Arrives(e) && e.a < |s.actors| && s.actors[e.a].Watcher?
    ensures Calmly(s, WatcherStep(s, e))
  {
  }

  lemma ApplierCalm(s: State, e: Event)
    requires Quiet(s) && !Arrives(e) && e.a < |s.actors| && s.actors[e.a].Applier?
    ensures Calmly(s, ApplierStep(s, e))
  {
  }

  lemma StepQuiet(s: State, e: Event)
    requires Quiet(s) && !e.Connect?
    ensures Quiet(Step(s, e)) && !StartsServer(s, e)
  {
    if !Arrives(e) && e.a < |s.actors| {
      assert Calm(s.generation, s.actors[e.a]);
      match s.actors[e.a]
      case Handler(_) => HandlerCalm(s, e);
      case Connector(_, _, phase) =>
        if phase.Queued? { ConnectCalm(s, e); } else { ReconnectCalm(s, e); }
      case Disconnector(_, _) => DisconnectorCalm(s, e);
      case Watcher(_, _) => WatcherCalm(s, e);
      case Applier(_) => ApplierCalm(s, e);
    }
  }

  ghost predicate StillDown(s: State, t: State) {
    Quiet(t) && s.starts <= t.starts && !ServerSince(s, t)
  }

  lemma StillDownKeeps(s: State, t: State, e: Event, u: State)
    requires StillDown(s, t) && Quiet(u) && Orderly(t, e, u) && !StartsServer(t, e)
    ensures StillDown(s, u)
  {
    forall k | |s.starts| <= k < |t.starts|
      ensures u.starts[k] == t.starts[k]
    {
    }
  }

  /** From a quiet state no server is ever started again without a new connect, and it stays quiet. */
  lemma StaysDown(s: State, more: seq<Event>)
    requires Quiet(s) && !Asks(more)
    ensures Quiet(Run(s, more)) && s.starts <= Run(s, more).starts && !ServerSince(s, Run(s, more))
  {
    var calm := (e: Event) => !e.Connect?;
    forall t, e | StillDown(s, t) && calm(e)
      ensures StillDown(s, Step(t, e))
    {
      StepQuiet(t, e);
      StepOrderly(t, e);
      StillDownKeeps(s, t, e, Step(t, e));
    }
    RunInvariant(Step, calm, t => StillDown(s, t), s, more);
  }

  // -------------------------------------------- anything else brings a server up

  lemma Backwards(s: State, e: Event)
    requires !e.Connect? && StartsAgain(Step(s, e))
    ensures StartsAgain(s)
  {
    var t := Step(s, e);
    var more: seq<Event> :| !Asks(more) && ServerSince(t, Run(t, more));
    StepOrderly(s, e);
    StartsKept(s, t, Run(t, more));
    FoldFirst(Step, s, e, more);
    Prepended(e, more);
    assert ServerSince(s, Run(s, [e] + more));
  }

  lemma StartsKept(s: State, t: State, u: State)
    requires |s.starts| <= |t.starts| && ServerSince(t, u)
    ensures ServerSince(s, u)
  {
  }

  lemma Prepended(e: Event, more: seq<Event>)
    requires !e.Connect? && !Asks(more)
    ensures !Asks([e] + more)
  {
  }

  lemma StartNow(s: State, e: Event)
    requires StartsServer(s, e)
    ensures StartsAgain(s)
  {
    StepOrderly(s, e);
    FoldMore(Step, s, [], e);
    assert [] + [e] == [e];
    var t := Run(s, [e]);
    assert t.starts[|s.starts|].config.ServerConfig?;
    assert ServerSince(s, t) && !Asks([e]);
  }

  /** A profile shown as connected is restarted when the routing changes. */
  lemma ShownRestarts(s: State)
    requires s.lock.None? && s.shown.status.Connected? && s.shown.server.Some?
    ensures StartsAgain(s)
  {
    var a := |s.actors|;
    var asked := Step(s, Apply);
    assert asked == Spawn(s, Applier(Asked));
    var within := Step(asked, Enter(a));
    assert within.actors[a] == Applier(Within) && within.shown == s.shown && |within.actors| == a + 1;
    var restarting := Step(within, Check(a, true));
    assert restarting.actors[a] == Applier(Restarting) && |restarting.actors| == a + 1;
    StartNow(restarting, Restart(a, Worked));
    Backwards(within, Check(a, true));
    Backwards(asked, Enter(a));
    Backwards(s, Apply);
  }

  /** What a disconnect is through with when nobody else moves. */
  function Gone(s: State): State {
    State(s.generation + 1, None, false, false, Shown(Idle, None), Nothing,
          s.actors + [Disconnector(s.generation + 1, Finished)], s.starts)
  }

  function Leaving(s: State, step: DisconnectPhase): State {
    State(s.generation + 1, Some(|s.actors|), s.remembered && !step.Cleared? && !step.Quieted?, false,
          if step.Quieted? then Shown(Idle, None) else s.shown, s.running,
          s.actors + [Disconnector(s.generation + 1, step)], s.starts)
  }

  /** On its way to the lock, and just behind it. */
  function Asking(s: State): State {
    Spawn(s.(generation := s.generation + 1), Disconnector(s.generation + 1, Waiting))
  }

  function Entering(s: State): State {
    State(s.generation + 1, Some(|s.actors|), s.remembered, s.lockedDown, s.shown, s.running,
          s.actors + [Disconnector(s.generation + 1, Inside)], s.starts)
  }

  lemma Enters(s: State)
    requires s.lock.None?
    ensures Step(Asking(s), Enter(|s.actors|)) == Entering(s)
  {
  }

  lemma Releases(s: State)
    ensures Step(Entering(s), Release(|s.actors|)) == Leaving(s, Released)
  {
  }

  lemma Clears(s: State)
    ensures Step(Leaving(s, Released), Clear(|s.actors|)) == Leaving(s, Cleared)
  {
  }

  lemma Quietens(s: State)
    ensures Step(Leaving(s, Cleared), Quieten(|s.actors|)) == Leaving(s, Quieted)
  {
  }

  lemma Stops(s: State)
    ensures Step(Leaving(s, Quieted), Stop(|s.actors|, true)) == Gone(s)
  {
  }

  lemma EnterBack(s: State)
    requires s.lock.None? && StartsAgain(Leaving(s, Released))
    ensures StartsAgain(s)
  {
    Releases(s);
    Backwards(Entering(s), Release(|s.actors|));
    Enters(s);
    Backwards(Asking(s), Enter(|s.actors|));
    Backwards(s, Disconnect);
  }

  lemma LeaveBack(s: State)
    requires StartsAgain(Gone(s))
    ensures StartsAgain(Leaving(s, Released))
  {
    Stops(s);
    Backwards(Leaving(s, Quieted), Stop(|s.actors|, true));
    Quietens(s);
    Backwards(Leaving(s, Cleared), Quieten(|s.actors|));
    Clears(s);
    Backwards(Leaving(s, Released), Clear(|s.actors|));
  }

  /** A pending write of a profile as connected is enough. */
  lemma WriteRestarts(s: State, w: nat)
    requires s.lock.None? && w < |s.actors| && s.actors[w].Watcher? && s.actors[w].watch.Writing?
    requires s.actors[w].watch.shown.status.Connected? && s.actors[w].watch.shown.server.Some?
    ensures StartsAgain(s)
  {
    var t := Step(s, Write(w));
    assert t == Set(s, w, s.actors[w].(watch := Watched)).(shown := s.actors[w].watch.shown);
    ShownRestarts(t);
    Backwards(s, Write(w));
  }

  /** A reader told that the core is up needs only the kill switch's flag to be down, which a disconnect sees to. */
  lemma AnsweredRestarts(s: State, w: nat)
    requires s.lock.None? && w < |s.actors| && s.actors[w].Watcher? && s.actors[w].watch.Answered?
    requires s.actors[w].watch.up && Carries(s.actors[w].watch.shown)
    ensures StartsAgain(s)
  {
    var leaving := Leaving(s, Released);
    var writing := s.actors[w].(watch := Writing(s.actors[w].watch.shown.(status := Connected)));
    var passed := Step(leaving, Pass(w));
    assert passed == Set(leaving, w, writing);
    assert passed == Leaving(s.(actors := s.actors[w := writing]), Released);
    var before := s.(actors := s.actors[w := writing]);
    assert Gone(before).actors[w] == writing;
    WriteRestarts(Gone(before), w);
    LeaveBack(before);
    Backwards(leaving, Pass(w));
    EnterBack(s);
  }

  /** Any profile left in the shown state can be shown as connected, and restarted. */
  lemma ShownServerRestarts(s: State)
    requires s.lock.None? && s.shown.server.Some?
    ensures StartsAgain(s)
  {
    if s.shown.status.Connected? {
      ShownRestarts(s);
    } else {
      var w := |s.actors|;
      var risen := Spawn(s, Watcher(true, Unread));
      assert Step(s, Rise) == risen;
      var seen := Step(risen, See(w));
      assert seen == Set(risen, w, Watcher(true, Answered(s.shown, true)));
      AnsweredRestarts(seen, w);
      Backwards(risen, See(w));
      Backwards(s, Rise);
    }
  }

  // ------------------------------- a reader that has not asked the core yet

  lemma Respawn(s: State, from: Actor, to: Actor)
    ensures Set(Spawn(s, from), |s.actors|, to) == Spawn(s, to)
  {
  }

  /** One step of the newest actor, seen backwards. */
  lemma NewestBack(s: State, from: Actor, e: Event, to: Actor, t: State)
    requires !e.Connect? && Step(Spawn(s, from), e) == Set(Spawn(s, from), |s.actors|, to).(lockedDown := t.lockedDown)
    requires t == s.(lockedDown := t.lockedDown) && StartsAgain(Spawn(t, to))
    ensures StartsAgain(Spawn(s, from))
  {
    Respawn(s, from, to);
    Backwards(Spawn(s, from), e);
  }

  /** A late word that the core is up shows the tunnel as connected, to no profile. */
  lemma RisesBack(s: State)
    requires !s.lockedDown && s.shown == Shown(Idle, None)
    requires StartsAgain(Spawn(s, Watcher(true, Watched)).(shown := Shown(Connected, None)))
    ensures StartsAgain(s)
  {
    var w := |s.actors|;
    var writing := Watcher(true, Writing(Shown(Connected, None)));
    RiseWrites(s);
    RisePasses(s);
    NewestBack(s, Watcher(true, Answered(s.shown, true)), Pass(w), writing, s);
    RiseSees(s);
    NewestBack(s, Watcher(true, Unread), See(w), Watcher(true, Answered(s.shown, true)), s);
    Backwards(s, Rise);
  }

  lemma RiseSees(s: State)
    ensures Step(Spawn(s, Watcher(true, Unread)), See(|s.actors|))
      == Set(Spawn(s, Watcher(true, Unread)), |s.actors|, Watcher(true, Answered(s.shown, true)))
  {
  }

  lemma RisePasses(s: State)
    requires !s.lockedDown && s.shown == Shown(Idle, None)
    ensures Step(Spawn(s, Watcher(true, Answered(s.shown, true))), Pass(|s.actors|))
      == Set(Spawn(s, Watcher(true, Answered(s.shown, true))), |s.actors|, Watcher(true, Writing(Shown(Connected, None))))
  {
  }

  lemma RiseWrites(s: State)
    requires StartsAgain(Spawn(s, Watcher(true, Watched)).(shown := Shown(Connected, None)))
    ensures StartsAgain(Spawn(s, Watcher(true, Writing(Shown(Connected, None)))))
  {
    var writing := Watcher(true, Writing(Shown(Connected, None)));
    Respawn(s, writing, Watcher(true, Watched));
    Backwards(Spawn(s, writing), Write(|s.actors|));
  }

  /** A drop nobody remembers anything about engages the kill switch. */
  lemma LocksBack(s: State)
    requires !s.lockedDown && !s.remembered && s.shown.status.Connected?
    requires StartsAgain(LockedDown(Spawn(s, Handler(Reporting)).(lockedDown := true), Worked))
    ensures StartsAgain(s)
  {
    var h := |s.actors|;
    var flagged := s.(lockedDown := true);
    Respawn(flagged, Handler(Arming), Handler(Reporting));
    Backwards(Spawn(flagged, Handler(Arming)), Lock(h, Worked));
    NewestBack(s, Handler(Forgot), Hold(h), Handler(Arming), flagged);
    DropForgotten(s);
  }

  lemma DropForgotten(s: State)
    requires !s.lockedDown && !s.remembered && s.shown.status.Connected? && StartsAgain(Spawn(s, Handler(Forgot)))
    ensures StartsAgain(s)
  {
    var h := |s.actors|;
    NewestBack(s, Handler(Looking), Recall(h, false), Handler(Forgot), s);
    DropLooks(s);
  }

  lemma DropLooks(s: State)
    requires !s.lockedDown && s.shown.status.Connected? && StartsAgain(Spawn(s, Handler(Looking)))
    ensures StartsAgain(s)
  {
    var h := |s.actors|;
    NewestBack(s, Handler(Dropped), Swap(h), Handler(Looking), s);
    NewestBack(s, Handler(Fresh), See(h), Handler(Dropped), s);
    Backwards(s, Drop);
  }

  lemma AskRestarts(s: State, w: nat)
    requires s.lock.None? && w < |s.actors| && s.actors[w].Watcher? && s.actors[w].watch.Read?
    requires Carries(s.actors[w].watch.shown) && !s.running.Nothing?
    ensures StartsAgain(s)
  {
    var t := Step(s, Ask(w, true));
    assert t == Set(s, w, s.actors[w].(watch := Answered(s.actors[w].watch.shown, true)));
    AnsweredRestarts(t, w);
    Backwards(s, Ask(w, true));
  }

  /** Even before it asks, with nothing running: the kill switch can be what it then finds up. */
  lemma ReadRestarts(s: State, w: nat)
    requires s.lock.None? && w < |s.actors| && s.actors[w].Watcher? && s.actors[w].watch.Read?
    requires Carries(s.actors[w].watch.shown)
    ensures StartsAgain(s)
  {
    var gone := Gone(s);
    var risen := Spawn(gone, Watcher(true, Watched)).(shown := Shown(Connected, None));
    var locked := LockedDown(Spawn(risen, Handler(Reporting)).(lockedDown := true), Worked);
    assert locked.actors[w] == s.actors[w];
    AskRestarts(locked, w);
    LocksBack(risen);
    RisesBack(gone);
    LeaveBack(s);
    EnterBack(s);
  }

  // -------------------------------------------------- a reconnect still current

  lemma QueuedStarts(s: State, a: nat)
    requires s.lock.None? && a < |s.actors| && s.actors[a].Connector?
    requires s.actors[a].generation == s.generation && s.actors[a].phase.Queued?
    ensures StartsAgain(s)
  {
    var c := s.actors[a];
    var trying := Step(s, Enter(a));
    assert trying == Set(s, a, c.(phase := Trying)).(lock := Some(a));
    var starting := Step(trying, Show(a, Some(0)));
    assert starting.actors[a] == c.(phase := Starting(0)) && |starting.actors| == |s.actors|;
    StartNow(starting, Launch(a, Worked));
    Backwards(trying, Show(a, Some(0)));
    Backwards(s, Enter(a));
  }

  /** How far a reconnect of the current generation still is from asking for the lock. */
  function Ahead(phase: ConnectPhase): nat {
    match phase
    case Locking => 4 case Begun => 4 case Resting => 3 case Announcing => 2 case Pausing => 1 case _ => 0
  }

  function Onward(a: nat, phase: ConnectPhase): Event {
    match phase
    case Locking => Lock(a, Worked) case Begun => Begin(a) case Resting => Attempt(a) case Announcing => Announce(a)
    case _ => Wake(a)
  }

  lemma OnwardGoes(s: State, a: nat)
    requires a < |s.actors| && s.actors[a].Connector? && s.actors[a].generation == s.generation && Ahead(s.actors[a].phase) > 0
    ensures var t := ReconnectStep(s, Onward(a, s.actors[a].phase));
      && t.lock == s.lock && t.generation == s.generation && a < |t.actors| && t.actors[a].Connector?
      && t.actors[a].generation == s.generation
      && Ahead(t.actors[a].phase) < Ahead(s.actors[a].phase)
      && (t.actors[a].phase.Queued? || Ahead(t.actors[a].phase) > 0)
  {
  }

  lemma OnwardIsItsStep(s: State, a: nat)
    requires a < |s.actors| && s.actors[a].Connector? && Ahead(s.actors[a].phase) > 0
    ensures Step(s, Onward(a, s.actors[a].phase)) == ReconnectStep(s, Onward(a, s.actors[a].phase))
  {
  }

  lemma {:induction false} CurrentStarts(s: State, a: nat)
    requires s.lock.None? && a < |s.actors| && s.actors[a].Connector? && s.actors[a].generation == s.generation
    requires s.actors[a].phase.Queued? || Ahead(s.actors[a].phase) > 0
    ensures StartsAgain(s)
    decreases Ahead(s.actors[a].phase)
  {
    if s.actors[a].phase.Queued? {
      QueuedStarts(s, a);
    } else {
      var e := Onward(a, s.actors[a].phase);
      OnwardGoes(s, a);
      OnwardIsItsStep(s, a);
      CurrentStarts(Step(s, e), a);
      Backwards(s, e);
    }
  }

  /**
   * A drop handler that still remembers brings a server up again: it reads what
   * to go back to before the generation, and a disconnect in between does not
   * supersede it.
   */
  lemma StaleDropRevives(s: State, h: nat)
    requires s.lock.None? && h < |s.actors| && s.actors[h] == Handler(Remembers)
    ensures StartsAgain(s)
  {
    var a := |s.actors|;
    var begun := Step(s, Reconnect(h));
    assert begun == Spawn(Set(s, h, Handler(Handled)), Connector(s.generation, true, Begun));
    assert begun.actors[a] == Connector(s.generation, true, Begun);
    CurrentStarts(begun, a);
    Backwards(s, Reconnect(h));
  }

  lemma UnquietStarts(s: State, i: nat)
    requires Inv(s) && s.lock.None? && i < |s.actors| && !Calm(s.generation, s.actors[i])
    ensures StartsAgain(s)
  {
    match s.actors[i]
    case Handler(_) => StaleDropRevives(s, i);
    case Connector(_, _, _) => CurrentStarts(s, i);
    case Watcher(told, watch) => WatcherStarts(s, i);
  }

  lemma WatcherStarts(s: State, w: nat)
    requires s.lock.None? && w < |s.actors| && s.actors[w].Watcher? && !Calm(s.generation, s.actors[w])
    ensures StartsAgain(s)
  {
    match s.actors[w].watch
    case Read(_) => ReadRestarts(s, w);
    case Answered(_, _) => AnsweredRestarts(s, w);
    case Writing(shown) =>
      var t := Step(s, Write(w));
      assert t == Set(s, w, s.actors[w].(watch := Watched)).(shown := shown);
      ShownServerRestarts(t);
      Backwards(s, Write(w));
  }

  // --------------------------------------------------------------- the theorems

  /**
   * When the tunnel stays down: with the lock free and nothing to go back to,
   * which is how every disconnect ends, no run without a new connect starts a
   * server exactly when no profile is shown and nobody in flight carries one,
   * remembers the last connect, or reconnects in the current generation.
   */
  lemma StaysDownExactly(s: State)
    requires Inv(s) && s.lock.None? && !s.remembered
    ensures StartsAgain(s) <==> !Quiet(s)
  {
    if Quiet(s) {
      forall more: seq<Event> | !Asks(more)
        ensures !ServerSince(s, Run(s, more))
      {
        StaysDown(s, more);
      }
    } else if s.shown.server.Some? {
      ShownServerRestarts(s);
    } else {
      var i: nat :| i < |s.actors| && !Calm(s.generation, s.actors[i]);
      UnquietStarts(s, i);
    }
  }

  /** Whatever else goes on meanwhile, a disconnect ends with the lock free and nothing to go back to. */
  lemma DisconnectEnds(events: seq<Event>, d: nat, ok: bool)
    requires var s := Run(START, events); d < |s.actors| && s.actors[d].Disconnector? && s.actors[d].step.Quieted?
    ensures var t := Run(START, events + [Stop(d, ok)]);
      && Inv(t) && t.lock.None? && !t.remembered && t.actors[d].step.Finished?
      && (StartsAgain(t) <==> !Quiet(t))
  {
    RunKeeps(START, events);
    RunKeeps(START, events + [Stop(d, ok)]);
    FoldMore(Step, START, events, Stop(d, ok));
    StaysDownExactly(Run(START, events + [Stop(d, ok)]));
  }

  // ------------------------------------------------------------ what is in flight

  lemma Then(events: seq<Event>, s: State, e: Event, t: State)
    requires Run(START, events) == s && Step(s, e) == t
    ensures Run(START, events + [e]) == t
  {
    FoldMore(Step, START, events, e);
  }

  /** A disconnect nobody gets in the way of. */
  lemma ThenGone(events: seq<Event>, s: State) returns (more: seq<Event>)
    requires Run(START, events) == s && s.lock.None?
    ensures Run(START, more) == Gone(s)
  {
    var b := |s.actors|;
    Enters(s);
    Releases(s);
    Clears(s);
    Quietens(s);
    Stops(s);
    Then(events, s, Disconnect, Asking(s));
    more := events + [Disconnect];
    Then(more, Asking(s), Enter(b), Entering(s));
    more := more + [Enter(b)];
    Then(more, Entering(s), Release(b), Leaving(s, Released));
    more := more + [Release(b)];
    Then(more, Leaving(s, Released), Clear(b), Leaving(s, Cleared));
    more := more + [Clear(b)];
    Then(more, Leaving(s, Cleared), Quieten(b), Leaving(s, Quieted));
    more := more + [Quieten(b)];
    Then(more, Leaving(s, Quieted), Stop(b, true), Gone(s));
    more := more + [Stop(b, true)];
  }

  /** The first connect of all, with others beside it. */
  function First(phase: ConnectPhase, shown: Shown, others: seq<Actor>): State {
    var up := phase.Up? || phase.Settling? || phase.Over?;
    State(1, if phase.Queued? || phase.Over? then None else Some(0), phase.Settling? || phase.Over?, false, shown,
          if up then ServerConfig else Nothing, [Connector(1, false, phase)] + others,
          if up then [Start(Some(1), ServerConfig)] else [])
  }

  lemma FirstAsks()
    ensures Step(START, Connect) == First(Queued, Shown(Idle, None), [])
  {
  }

  lemma FirstEnters()
    ensures Step(First(Queued, Shown(Idle, None), []), Enter(0)) == First(Trying, Shown(Idle, None), [])
  {
  }

  lemma FirstShows(server: nat)
    ensures Step(First(Trying, Shown(Idle, None), []), Show(0, Some(server)))
      == First(Starting(server), Shown(Connecting, Some(server)), [])
  {
  }

  /** A first connect, up to where it starts its server. */
  lemma FirstTries(server: nat) returns (events: seq<Event>)
    ensures Run(START, events) == First(Starting(server), Shown(Connecting, Some(server)), [])
  {
    FirstAsks();
    Then([], START, Connect, First(Queued, Shown(Idle, None), []));
    events := [] + [Connect];
    FirstEnters();
    Then(events, First(Queued, Shown(Idle, None), []), Enter(0), First(Trying, Shown(Idle, None), []));
    events := events + [Enter(0)];
    FirstShows(server);
    Then(events, First(Trying, Shown(Idle, None), []), Show(0, Some(server)),
         First(Starting(server), Shown(Connecting, Some(server)), []));
    events := events + [Show(0, Some(server))];
  }

  lemma FirstGoesUp(server: nat, others: seq<Actor>)
    ensures Step(First(Starting(server), Shown(Connecting, Some(server)), others), Launch(0, Worked))
      == First(Up(server), Shown(Connecting, Some(server)), others)
  {
    var before := [Connector(1, false, Starting(server))] + others;
    assert before[0 := Connector(1, false, Up(server))] == [Connector(1, false, Up(server))] + others;
  }

  lemma FirstRemembers(server: nat, others: seq<Actor>)
    ensures Step(First(Up(server), Shown(Connecting, Some(server)), others), Remember(0))
      == First(Settling(server), Shown(Connecting, Some(server)), others)
  {
    var before := [Connector(1, false, Up(server))] + others;
    assert before[0 := Connector(1, false, Settling(server))] == [Connector(1, false, Settling(server))] + others;
  }

  lemma FirstSettles(server: nat, others: seq<Actor>)
    ensures Step(First(Settling(server), Shown(Connecting, Some(server)), others), Settle(0))
      == First(Over, Shown(Connected, Some(server)), others)
  {
    var before := [Connector(1, false, Settling(server))] + others;
    assert before[0 := Connector(1, false, Over)] == [Connector(1, false, Over)] + others;
  }

  /** A reader's steps beside the first connect. */
  lemma ReaderSteps(phase: ConnectPhase, shown: Shown, from: WatchPhase, e: Event, to: WatchPhase)
    requires !Arrives(e) && e.a == 1
    requires WatcherStep(First(phase, shown, [Watcher(false, from)]), e)
      == Set(First(phase, shown, [Watcher(false, from)]), 1, Watcher(false, to))
    ensures Step(First(phase, shown, [Watcher(false, from)]), e) == First(phase, shown, [Watcher(false, to)])
  {
    assert ([Connector(1, false, phase)] + [Watcher(false, from)])[1 := Watcher(false, to)]
      == [Connector(1, false, phase)] + [Watcher(false, to)];
  }

  /** While the first connect starts a server, somebody looks, and the core says it is up. */
  lemma LooksMeanwhile(server: nat) returns (events: seq<Event>)
    ensures Run(START, events)
      == First(Up(server), Shown(Connecting, Some(server)), [Watcher(false, Answered(Shown(Connecting, Some(server)), true))])
  {
    var shown := Shown(Connecting, Some(server));
    events := FirstTries(server);
    assert Step(First(Starting(server), shown, []), Look) == First(Starting(server), shown, [Watcher(false, Unread)]);
    Then(events, First(Starting(server), shown, []), Look, First(Starting(server), shown, [Watcher(false, Unread)]));
    events := AsksMeanwhile(server, events + [Look]);
  }

  lemma AsksMeanwhile(server: nat, before: seq<Event>) returns (events: seq<Event>)
    requires Run(START, before) == First(Starting(server), Shown(Connecting, Some(server)), [Watcher(false, Unread)])
    ensures Run(START, events)
      == First(Up(server), Shown(Connecting, Some(server)), [Watcher(false, Answered(Shown(Connecting, Some(server)), true))])
  {
    var shown := Shown(Connecting, Some(server));
    ReaderSteps(Starting(server), shown, Unread, See(1), Read(shown));
    Then(before, First(Starting(server), shown, [Watcher(false, Unread)]), See(1),
         First(Starting(server), shown, [Watcher(false, Read(shown))]));
    events := before + [See(1)];
    FirstGoesUp(server, [Watcher(false, Read(shown))]);
    Then(events, First(Starting(server), shown, [Watcher(false, Read(shown))]), Launch(0, Worked),
         First(Up(server), shown, [Watcher(false, Read(shown))]));
    events := events + [Launch(0, Worked)];
    ReaderSteps(Up(server), shown, Read(shown), Ask(1, true), Answered(shown, true));
    Then(events, First(Up(server), shown, [Watcher(false, Read(shown))]), Ask(1, true),
         First(Up(server), shown, [Watcher(false, Answered(shown, true))]));
    events := events + [Ask(1, true)];
  }

  lemma Settled(server: nat, others: seq<Actor>, before: seq<Event>) returns (events: seq<Event>)
    requires Run(START, before) == First(Up(server), Shown(Connecting, Some(server)), others)
    ensures Run(START, events) == First(Over, Shown(Connected, Some(server)), others)
  {
    FirstRemembers(server, others);
    Then(before, First(Up(server), Shown(Connecting, Some(server)), others), Remember(0),
         First(Settling(server), Shown(Connecting, Some(server)), others));
    events := before + [Remember(0)];
    FirstSettles(server, others);
    Then(events, First(Settling(server), Shown(Connecting, Some(server)), others), Settle(0),
         First(Over, Shown(Connected, Some(server)), others));
    events := events + [Settle(0)];
  }

  /**
   * A reader in flight: it read the state while a server was connecting, the
   * connect settled, a disconnect ran to its end, and then it writes what it
   * read. A change of routing starts the server again.
   */
  lemma StaleLookHappens(server: nat) returns (events: seq<Event>)
    ensures var s := Run(START, events);
      && s.lock.None? && |s.actors| == 3 && s.actors[2] == Disconnector(2, Finished) && s.running.Nothing?
      && s.actors[1] == Watcher(false, Writing(Shown(Connected, Some(server)))) && StartsAgain(s)
  {
    var shown := Shown(Connecting, Some(server));
    var answered, writing := Answered(shown, true), Writing(Shown(Connected, Some(server)));
    events := LooksMeanwhile(server);
    events := Settled(server, [Watcher(false, answered)], events);
    var up := First(Over, Shown(Connected, Some(server)), [Watcher(false, answered)]);
    ReaderSteps(Over, Shown(Connected, Some(server)), answered, Pass(1), writing);
    var passed := First(Over, Shown(Connected, Some(server)), [Watcher(false, writing)]);
    Then(events, up, Pass(1), passed);
    events := ThenGone(events + [Pass(1)], passed);
    WriteRestarts(Gone(passed), 1);
  }

  lemma DropSteps(shown: Shown, from: DropPhase, e: Event, to: DropPhase)
    requires !Arrives(e) && e.a == 1
    requires HandlerStep(First(Over, shown, [Handler(from)]), e) == Set(First(Over, shown, [Handler(from)]), 1, Handler(to))
    ensures Step(First(Over, shown, [Handler(from)]), e) == First(Over, shown, [Handler(to)])
  {
    assert ([Connector(1, false, Over)] + [Handler(from)])[1 := Handler(to)] == [Connector(1, false, Over)] + [Handler(to)];
  }

  lemma StartsUp(server: nat) returns (events: seq<Event>)
    ensures Run(START, events) == First(Over, Shown(Connected, Some(server)), [])
  {
    var shown := Shown(Connecting, Some(server));
    events := FirstTries(server);
    FirstGoesUp(server, []);
    Then(events, First(Starting(server), shown, []), Launch(0, Worked), First(Up(server), shown, []));
    events := Settled(server, [], events + [Launch(0, Worked)]);
  }

  /**
   * A drop handler in flight: it read what to go back to just before a
   * disconnect took its lock, and asks for the generation after it.
   */
  lemma StaleDropHappens(server: nat) returns (events: seq<Event>)
    ensures var s := Run(START, events);
      && s.lock.None? && |s.actors| == 3 && s.actors[2] == Disconnector(2, Finished) && s.running.Nothing?
      && s.actors[1] == Handler(Remembers) && StartsAgain(s)
  {
    var shown := Shown(Connected, Some(server));
    events := StartsUp(server);
    assert Step(First(Over, shown, []), Drop) == First(Over, shown, [Handler(Fresh)]);
    Then(events, First(Over, shown, []), Drop, First(Over, shown, [Handler(Fresh)]));
    events := events + [Drop];
    DropSteps(shown, Fresh, See(1), Dropped);
    Then(events, First(Over, shown, [Handler(Fresh)]), See(1), First(Over, shown, [Handler(Dropped)]));
    events := events + [See(1)];
    DropSteps(shown, Dropped, Swap(1), Looking);
    Then(events, First(Over, shown, [Handler(Dropped)]), Swap(1), First(Over, shown, [Handler(Looking)]));
    events := events + [Swap(1)];
    DropSteps(shown, Looking, Recall(1, true), Remembers);
    Then(events, First(Over, shown, [Handler(Looking)]), Recall(1, true), First(Over, shown, [Handler(Remembers)]));
    events := ThenGone(events + [Recall(1, true)], First(Over, shown, [Handler(Remembers)]));
    StaleDropRevives(Gone(First(Over, shown, [Handler(Remembers)])), 1);
  }

  // ------------------------------------- a server running with no profile shown

  /** One step of the newest goroutine. */
  lemma ThenNewest(events: seq<Event>, s: State, from: Actor, e: Event, t: State, to: Actor)
    requires Run(START, events) == Spawn(s, from) && t.actors == s.actors
    requires Step(Spawn(s, from), e) == Spawn(t, to)
    ensures Run(START, events + [e]) == Spawn(t, to)
  {
    Then(events, Spawn(s, from), e, Spawn(t, to));
  }

  lemma ApplierEnters(s: State)
    requires s.lock.None?
    ensures Step(Spawn(s, Applier(Asked)), Enter(|s.actors|)) == Spawn(s.(lock := Some(|s.actors|)), Applier(Within))
  {
    Respawn(s, Applier(Asked), Applier(Within));
  }

  lemma ApplierChecks(s: State)
    requires s.shown.status.Connected? && s.shown.server.Some?
    ensures Step(Spawn(s, Applier(Within)), Check(|s.actors|, true)) == Spawn(s, Applier(Restarting))
  {
    Respawn(s, Applier(Within), Applier(Restarting));
  }

  lemma ApplierRefused(s: State)
    ensures Step(Spawn(s, Applier(Restarting)), Restart(|s.actors|, Refused)) == Spawn(s.(lock := None, shown := BROKEN), Applier(Applied))
  {
    Respawn(s, Applier(Restarting), Applier(Applied));
  }

  /** A change of routing whose configuration cannot be built: the old one runs on, and a failure is shown. */
  lemma RefusedRestart(events: seq<Event>, s: State) returns (more: seq<Event>)
    requires Run(START, events) == s && s.lock.None? && s.shown.status.Connected? && s.shown.server.Some?
    ensures Run(START, more) == Spawn(s.(shown := BROKEN), Applier(Applied))
  {
    var a := |s.actors|;
    var held := s.(lock := Some(a));
    Then(events, s, Apply, Spawn(s, Applier(Asked)));
    more := events + [Apply];
    ApplierEnters(s);
    ThenNewest(more, s, Applier(Asked), Enter(a), held, Applier(Within));
    more := more + [Enter(a)];
    ApplierChecks(held);
    ThenNewest(more, held, Applier(Within), Check(a, true), held, Applier(Restarting));
    more := more + [Check(a, true)];
    ApplierRefused(held);
    assert held.(lock := None, shown := BROKEN) == s.(shown := BROKEN);
    ThenNewest(more, held, Applier(Restarting), Restart(a, Refused), s.(shown := BROKEN), Applier(Applied));
    more := more + [Restart(a, Refused)];
  }

  lemma ReaderTurns(s: State, shown: Shown)
    requires s.shown == shown && !s.lockedDown && !s.running.Nothing? && !shown.status.Connected?
    ensures var w := |s.actors|;
      && Step(Spawn(s, Watcher(false, Unread)), See(w)) == Spawn(s, Watcher(false, Read(shown)))
      && Step(Spawn(s, Watcher(false, Read(shown))), Ask(w, true)) == Spawn(s, Watcher(false, Answered(shown, true)))
  {
    Respawn(s, Watcher(false, Unread), Watcher(false, Read(shown)));
    Respawn(s, Watcher(false, Read(shown)), Watcher(false, Answered(shown, true)));
  }

  lemma ReaderWrites(s: State, shown: Shown)
    requires s.shown == shown && !s.lockedDown && !shown.status.Connected?
    ensures var w, up := |s.actors|, shown.(status := Connected);
      && Step(Spawn(s, Watcher(false, Answered(shown, true))), Pass(w)) == Spawn(s, Watcher(false, Writing(up)))
      && Step(Spawn(s, Watcher(false, Writing(up))), Write(w)) == Spawn(s.(shown := up), Watcher(false, Watched))
  {
    Respawn(s, Watcher(false, Answered(shown, true)), Watcher(false, Writing(shown.(status := Connected))));
    Respawn(s, Watcher(false, Writing(shown.(status := Connected))), Watcher(false, Watched));
  }

  /** Somebody looks, and finds the core running. */
  lemma LooksUp(events: seq<Event>, s: State) returns (more: seq<Event>)
    requires Run(START, events) == s && !s.lockedDown && !s.running.Nothing? && !s.shown.status.Connected?
    ensures Run(START, more) == Spawn(s.(shown := s.shown.(status := Connected)), Watcher(false, Watched))
  {
    var w, shown := |s.actors|, s.shown;
    var up := shown.(status := Connected);
    ReaderTurns(s, shown);
    ReaderWrites(s, shown);
    Then(events, s, Look, Spawn(s, Watcher(false, Unread)));
    more := events + [Look];
    ThenNewest(more, s, Watcher(false, Unread), See(w), s, Watcher(false, Read(shown)));
    more := more + [See(w)];
    ThenNewest(more, s, Watcher(false, Read(shown)), Ask(w, true), s, Watcher(false, Answered(shown, true)));
    more := more + [Ask(w, true)];
    ThenNewest(more, s, Watcher(false, Answered(shown, true)), Pass(w), s, Watcher(false, Writing(up)));
    more := more + [Pass(w)];
    ThenNewest(more, s, Watcher(false, Writing(up)), Write(w), s.(shown := up), Watcher(false, Watched));
    more := more + [Write(w)];
  }

  /**
   * A server runs and the tunnel is shown as connected, but to no profile: a
   * change of routing failed before it touched the core, and somebody looked.
   */
  lemma NobodyShownHappens(server: nat) returns (events: seq<Event>)
    ensures var s := Run(START, events);
      s.shown == Shown(Connected, None) && s.running.ServerConfig? && s.lock.None? && !s.lockedDown
  {
    events := StartsUp(server);
    var up := First(Over, Shown(Connected, Some(server)), []);
    events := RefusedRestart(events, up);
    events := LooksUp(events, Spawn(up.(shown := BROKEN), Applier(Applied)));
  }
}
