// Who may bring the tunnel up, and when (internal/app/connection.go,
// internal/app/routing.go): connects, disconnects, reconnects, restarts on new
// routing, and the readers that write the shown state back without the lock.
// A connect or disconnect by the user bumps a generation before it waits for the
// lock; a connect checks its own generation once it has the lock.

module Lifecycle {
  import opened Wrappers
  import opened Sequences

  /** What the core was last asked to run. */
  datatype Running = Nothing | ServerConfig | LockdownConfig

  /** A start succeeds, fails with the old configuration gone, or fails before the core is touched. */
  datatype Outcome = Worked | Broke | Refused

  /** One start of the core; a connect's carries its generation. */
  datatype Start = Start(generation: Option<nat>, config: Running)

  datatype Status = Idle | Connecting | Connected | Failed

  /** The state the interface shows, and the profile in it. */
  datatype Shown = Shown(status: Status, server: Option<nat>)

  datatype DropPhase = Fresh | Dropped | Looking | Remembers | Forgot | Arming | Reporting | Handled

  datatype ConnectPhase =
    | Begun | Locking | Resting | Announcing | Pausing | Queued
    | Trying | Starting(server: nat) | Up(server: nat) | Settling(server: nat)
    | Failing | Over

  datatype DisconnectPhase = Waiting | Inside | Released | Cleared | Quieted | Finished

  datatype WatchPhase = Unread | Read(shown: Shown) | Answered(shown: Shown, up: bool) | Writing(shown: Shown) | Watched

  datatype ApplyPhase = Asked | Within | Restarting | Applied

  /**
   * A goroutine: one handling a dropped tunnel, one connecting for the user or
   * again for a drop, one disconnecting, one reconciling the shown state with
   * the core (because the core said it is up, or because somebody looked), and
   * one restarting the tunnel on new routing.
   */
  datatype Actor =
    | Handler(drop: DropPhase)
    | Connector(generation: nat, again: bool, phase: ConnectPhase)
    | Disconnector(generation: nat, step: DisconnectPhase)
    | Watcher(told: bool, watch: WatchPhase)
    | Applier(apply: ApplyPhase)

  /** remembered: what the user last connected with is known. lockedDown: the kill switch's flag. */
  datatype State = State(
    generation: nat, lock: Option<nat>, remembered: bool, lockedDown: bool, shown: Shown, running: Running,
    actors: seq<Actor>, starts: seq<Start>)

  const START := State(0, None, false, false, Shown(Idle, None), Nothing, [], [])

  datatype Event =
    | Connect | Disconnect | Drop | Rise | Look | Apply | Revoke
    | See(a: nat) | Swap(a: nat) | Recall(a: nat, auto: bool) | Reconnect(a: nat)
    | Hold(a: nat) | Lock(a: nat, how: Outcome) | Report(a: nat)
    | Begin(a: nat) | Attempt(a: nat) | Announce(a: nat) | Wake(a: nat) | Abandon(a: nat)
    | Enter(a: nat) | Show(a: nat, server: Option<nat>) | Launch(a: nat, how: Outcome) | Remember(a: nat) | Settle(a: nat)
    | GiveUp(a: nat)
    | Release(a: nat) | Clear(a: nat) | Quieten(a: nat) | Stop(a: nat, ok: bool)
    | Ask(a: nat, reached: bool) | Pass(a: nat) | Write(a: nat)
    | Check(a: nat, known: bool) | Restart(a: nat, how: Outcome)

  predicate Arrives(e: Event) {
    e.Connect? || e.Disconnect? || e.Drop? || e.Rise? || e.Look? || e.Apply? || e.Revoke?
  }

  function Set(s: State, a: nat, actor: Actor): State
    requires a < |s.actors|
  {
    s.(actors := s.actors[a := actor])
  }

  function Spawn(s: State, actor: Actor): State { s.(actors := s.actors + [actor]) }

  function Launched(s: State, generation: Option<nat>, config: Running, how: Outcome): State {
    if how.Refused? then s
    else s.(starts := s.starts + [Start(generation, config)], running := if how.Worked? then config else Nothing)
  }

  const BROKEN := Shown(Failed, None)

  /** The kill switch's config: the flag is set first, and taken back when the config does not start. */
  function LockedDown(s: State, how: Outcome): State {
    Launched(s, None, LockdownConfig, how).(lockedDown := how.Worked? && s.lockedDown)
  }

  /** handleCoreState(false): what to go back to is read first, the generation only when the reconnect begins. */
  function HandlerStep(s: State, e: Event): State
    requires !Arrives(e) && e.a < |s.actors| && s.actors[e.a].Handler?
  {
    match (e, s.actors[e.a].drop)
    case (See(a), Fresh) =>
      Set(s, a, Handler(if s.shown.status.Connecting? || s.shown.status.Idle? then Handled else Dropped))
    case (Swap(a), Dropped) => Set(s, a, Handler(if s.lockedDown then Reporting else Looking)).(lockedDown := false)
    case (Recall(a, auto), Looking) => Set(s, a, Handler(if s.remembered && auto then Remembers else Forgot))
    case (Reconnect(a), Remembers) => Spawn(Set(s, a, Handler(Handled)), Connector(s.generation, true, Begun))
    case (Hold(a), Forgot) => Set(s, a, Handler(Arming)).(lockedDown := true)
    case (Lock(a, how), Arming) => LockedDown(Set(s, a, Handler(Reporting)), how)
    case (Report(a), Forgot) => Set(s, a, Handler(Handled)).(shown := BROKEN)
    case (Report(a), Reporting) => Set(s, a, Handler(Handled)).(shown := BROKEN)
    case _ => s
  }

  /** After a failed try a reconnect rests; the user's own connect is over. */
  function Rest(c: Actor): Actor
    requires c.Connector?
  {
    c.(phase := if c.again then Resting else Over)
  }

  /** A reconnect up to where it asks for the lock; it shows what it does without holding it. */
  function ReconnectStep(s: State, e: Event): State
    requires !Arrives(e) && e.a < |s.actors| && s.actors[e.a].Connector?
  {
    var c := s.actors[e.a];
    var current := c.generation == s.generation;
    match (e, c.phase)
    case (Hold(a), Begun) => Set(s, a, c.(phase := Locking)).(lockedDown := true)
    case (Lock(a, how), Locking) => LockedDown(Set(s, a, c.(phase := Resting)), how)
    case (Begin(a), Begun) => Set(s, a, c.(phase := Resting))
    case (Attempt(a), Resting) => Set(s, a, c.(phase := if current then Announcing else Over))
    case (Announce(a), Announcing) => Set(s, a, c.(phase := Pausing)).(shown := Shown(Connecting, None))
    case (Wake(a), Pausing) => Set(s, a, c.(phase := if current then Queued else Over))
    case (Abandon(a), Resting) => Set(s, a, c.(phase := if current then Failing else Over))
    case (Report(a), Failing) => Set(s, a, c.(phase := Over)).(shown := BROKEN)
    case _ => s
  }

  /** connect; superseded, it looks at the state on its way out, which a watcher of its own does here. */
  function ConnectStep(s: State, e: Event): State
    requires !Arrives(e) && e.a < |s.actors| && s.actors[e.a].Connector?
  {
    var c := s.actors[e.a];
    match (e, c.phase)
    case (Enter(a), Queued) =>
      if s.lock.Some? then s
      else if c.generation == s.generation then Set(s, a, c.(phase := Trying)).(lock := Some(a))
      else Spawn(Set(s, a, Rest(c)), Watcher(false, Unread))
    case (Show(a, server), Trying) =>
      Set(s, a, c.(phase := if server.Some? then Starting(server.value) else Trying)).(shown := Shown(Connecting, server))
    case (Launch(a, how), Starting(server)) =>
      Launched(Set(s, a, c.(phase := if how.Worked? then Up(server) else Trying)), Some(c.generation), ServerConfig, how)
    case (Remember(a), Up(server)) => Set(s, a, c.(phase := Settling(server))).(lockedDown := false, remembered := true)
    case (Settle(a), Settling(server)) =>
      Set(s, a, c.(phase := Over)).(shown := Shown(Connected, Some(server)), lock := None)
    case (GiveUp(a), Trying) => Set(s, a, Rest(c)).(shown := BROKEN, lock := None)
    case _ => s
  }

  function DisconnectorStep(s: State, e: Event): State
    requires !Arrives(e) && e.a < |s.actors| && s.actors[e.a].Disconnector?
  {
    var d := s.actors[e.a];
    match (e, d.step)
    case (Enter(a), Waiting) => if s.lock.None? then Set(s, a, d.(step := Inside)).(lock := Some(a)) else s
    case (Release(a), Inside) => Set(s, a, d.(step := Released)).(lockedDown := false)
    case (Clear(a), Released) => Set(s, a, d.(step := Cleared)).(remembered := false)
    case (Quieten(a), Cleared) => Set(s, a, d.(step := Quieted)).(shown := Shown(Idle, None))
    case (Stop(a, ok), Quieted) =>
      var stopped := Set(s, a, d.(step := Finished)).(lock := None);
      if ok then stopped.(running := Nothing) else stopped.(shown := BROKEN)
    case _ => s
  }

  /** GetConnectionState, and handleCoreState(true): the profile written back is the one read at first. */
  function WatcherStep(s: State, e: Event): State
    requires !Arrives(e) && e.a < |s.actors| && s.actors[e.a].Watcher?
  {
    var w := s.actors[e.a];
    match (e, w.watch)
    case (See(a), Unread) => Set(s, a, w.(watch := if w.told then Answered(s.shown, true) else Read(s.shown)))
    case (Ask(a, reached), Read(shown)) => Set(s, a, w.(watch := Answered(shown, reached && !s.running.Nothing?)))
    case (Pass(a), Answered(shown, up)) =>
      Set(s, a, w.(watch :=
        if s.lockedDown then Watched
        else if up && !shown.status.Connected? then Writing(shown.(status := Connected))
        else if !up && shown.status.Connected? then Writing(Shown(Idle, None))
        else Watched))
    case (Write(a), Writing(shown)) => Set(s, a, w.(watch := Watched)).(shown := shown)
    case _ => s
  }

  /** reapplyRouting: it asks what is shown, and neither the generation nor what is remembered. */
  function ApplierStep(s: State, e: Event): State
    requires !Arrives(e) && e.a < |s.actors| && s.actors[e.a].Applier?
  {
    match (e, s.actors[e.a].apply)
    case (Enter(a), Asked) => if s.lock.None? then Set(s, a, Applier(Within)).(lock := Some(a)) else s
    case (Check(a, known), Within) =>
      if s.shown.status.Connected? && s.shown.server.Some? && known then Set(s, a, Applier(Restarting))
      else Set(s, a, Applier(Applied)).(lock := None)
    case (Restart(a, how), Restarting) =>
      var next := Launched(Set(s, a, Applier(Applied)), None, ServerConfig, how).(lock := None);
      if how.Worked? then next else next.(shown := BROKEN)
    case _ => s
  }

  function ActorStep(s: State, e: Event): State
    requires !Arrives(e) && e.a < |s.actors|
  {
    match s.actors[e.a]
    case Handler(_) => HandlerStep(s, e)
    case Connector(_, _, phase) =>
      if phase.Queued? || phase.Trying? || phase.Starting? || phase.Up? || phase.Settling? then ConnectStep(s, e)
      else ReconnectStep(s, e)
    case Disconnector(_, _) => DisconnectorStep(s, e)
    case Watcher(_, _) => WatcherStep(s, e)
    case Applier(_) => ApplierStep(s, e)
  }

  function Arrive(s: State, e: Event): State
    requires Arrives(e)
  {
    match e
    case Connect => Spawn(s.(generation := s.generation + 1), Connector(s.generation + 1, false, Queued))
    case Disconnect => Spawn(s.(generation := s.generation + 1), Disconnector(s.generation + 1, Waiting))
    case Drop => Spawn(s, Handler(Fresh))
    case Rise => Spawn(s, Watcher(true, Unread))
    case Look => Spawn(s, Watcher(false, Unread))
    case Apply => Spawn(s, Applier(Asked))
    case Revoke => s.(shown := BROKEN)
  }

  function Step(s: State, e: Event): State {
    if Arrives(e) then Arrive(s, e) else if e.a < |s.actors| then ActorStep(s, e) else s
  }

  /** The state an interleaving leads to; a step that cannot happen changes nothing. */
  function Run(s: State, events: seq<Event>): State {
    Fold(Step, s, events)
  }

  // -------------------------------------------------------------- invariants

  predicate Connects(actor: Actor) {
    actor.Connector?
    && (actor.phase.Trying? || actor.phase.Starting? || actor.phase.Up? || actor.phase.Settling?)
  }

  predicate Entered(actor: Actor) { actor.Disconnector? && !actor.step.Waiting? }

  predicate Holding(actor: Actor) {
    || Connects(actor)
    || (Entered(actor) && !actor.step.Finished?)
    || (actor.Applier? && (actor.apply.Within? || actor.apply.Restarting?))
  }

  /** A disconnect that has forgotten what to go back to and still has the lock. */
  predicate Forgetting(actor: Actor) { actor.Disconnector? && (actor.step.Cleared? || actor.step.Quieted?) }

  predicate Numbered(actor: Actor, generation: nat) {
    actor.Connector? || actor.Disconnector? ==> actor.generation <= generation
  }

  /** The lock is what it says, nobody is ahead of the generation, and who connects is not behind a disconnect that entered. */
  ghost predicate Inv(s: State) {
    && (forall i: nat :: i < |s.actors| && Holding(s.actors[i]) ==> s.lock == Some(i))
    && (forall i: nat :: i < |s.actors| ==> Numbered(s.actors[i], s.generation))
    && (forall i: nat, j: nat :: i < |s.actors| && j < |s.actors| && Entered(s.actors[i]) && Connects(s.actors[j]) ==>
          s.actors[i].generation <= s.actors[j].generation)
    && (forall i: nat :: i < |s.actors| && Forgetting(s.actors[i]) ==> !s.remembered)
  }

  /** One actor changed, and perhaps the lock and what is remembered with it. */
  lemma SetKeeps(s: State, t: State, a: nat, actor: Actor)
    requires Inv(s) && a < |s.actors|
    requires t.actors == s.actors[a := actor] && t.generation == s.generation && Numbered(actor, s.generation)
    requires t.lock == s.lock || s.lock == (if Holding(s.actors[a]) then Some(a) else None)
    requires Holding(actor) ==> t.lock == Some(a)
    requires t.remembered ==> s.remembered || (Connects(actor) && s.lock == Some(a))
    requires Entered(actor) ==> s.lock.None? || (Entered(s.actors[a]) && actor.generation == s.actors[a].generation)
    requires Connects(actor) ==>
      actor.generation == s.generation || (Connects(s.actors[a]) && actor.generation == s.actors[a].generation)
    requires Forgetting(actor) ==> !t.remembered
    ensures Inv(t)
  {
  }

  lemma SpawnKeeps(s: State, generation: nat, actor: Actor)
    requires Inv(s) && s.generation <= generation && !Holding(actor) && !Entered(actor) && Numbered(actor, generation)
    ensures Inv(Spawn(s.(generation := generation), actor))
  {
  }

  lemma SpawnHereKeeps(s: State, actor: Actor)
    requires Inv(s) && !Holding(actor) && !Entered(actor) && Numbered(actor, s.generation)
    ensures Inv(Spawn(s, actor))
  {
    SpawnKeeps(s, s.generation, actor);
    assert s.(generation := s.generation) == s;
  }

  lemma HandlerKeeps(s: State, e: Event)
    requires Inv(s) && !Arrives(e) && e.a < |s.actors| && s.actors[e.a].Handler?
    ensures Inv(HandlerStep(s, e))
  {
    var t := HandlerStep(s, e);
    if e.Reconnect? && s.actors[e.a].drop.Remembers? {
      var handled := Set(s, e.a, Handler(Handled));
      SetKeeps(s, handled, e.a, Handler(Handled));
      SpawnHereKeeps(handled, Connector(s.generation, true, Begun));
    } else {
      assert t.actors == s.actors[e.a := t.actors[e.a]] && t.actors[e.a].Handler?;
      SetKeeps(s, t, e.a, t.actors[e.a]);
    }
  }

  lemma ReconnectKeeps(s: State, e: Event)
    requires Inv(s) && !Arrives(e) && e.a < |s.actors| && s.actors[e.a].Connector? && !Connects(s.actors[e.a])
    ensures Inv(ReconnectStep(s, e))
  {
    var t := ReconnectStep(s, e);
    assert t.actors == s.actors[e.a := t.actors[e.a]];
    SetKeeps(s, t, e.a, t.actors[e.a]);
  }

  lemma ConnectKeeps(s: State, e: Event)
    requires Inv(s) && !Arrives(e) && e.a < |s.actors| && s.actors[e.a].Connector?
    requires Connects(s.actors[e.a]) || s.actors[e.a].phase.Queued?
    ensures Inv(ConnectStep(s, e))
  {
    var c := s.actors[e.a];
    if e.Enter? && c.phase.Queued? && s.lock.None? && c.generation != s.generation {
      SetKeeps(s, Set(s, e.a, Rest(c)), e.a, Rest(c));
      SpawnHereKeeps(Set(s, e.a, Rest(c)), Watcher(false, Unread));
    } else {
      ConnectGoes(s, e);
      SetKeeps(s, ConnectStep(s, e), e.a, ConnectStep(s, e).actors[e.a]);
    }
  }

  /** A connect's step that is not a superseded one's way out changes itself, the lock and what goes with it. */
  lemma ConnectGoes(s: State, e: Event)
    requires Inv(s) && !Arrives(e) && e.a < |s.actors| && s.actors[e.a].Connector?
    requires Connects(s.actors[e.a]) || s.actors[e.a].phase.Queued?
    requires !(e.Enter? && s.actors[e.a].phase.Queued? && s.lock.None? && s.actors[e.a].generation != s.generation)
    ensures var t, c := ConnectStep(s, e), s.actors[e.a];
      && |t.actors| == |s.actors| && t.actors == s.actors[e.a := t.actors[e.a]] && t.generation == s.generation
      && t.actors[e.a].Connector? && t.actors[e.a].generation == c.generation
      && (t.lock == s.lock || s.lock == (if Holding(c) then Some(e.a) else None))
      && (Holding(t.actors[e.a]) ==> t.lock == Some(e.a))
      && (t.remembered ==> s.remembered || (Connects(t.actors[e.a]) && s.lock == Some(e.a)))
      && (Connects(t.actors[e.a]) ==> c.generation == s.generation || Connects(c))
  {
  }

  lemma DisconnectorKeeps(s: State, e: Event)
    requires Inv(s) && !Arrives(e) && e.a < |s.actors| && s.actors[e.a].Disconnector?
    ensures Inv(DisconnectorStep(s, e))
  {
    var t := DisconnectorStep(s, e);
    assert t.actors == s.actors[e.a := t.actors[e.a]];
    SetKeeps(s, t, e.a, t.actors[e.a]);
  }

  lemma WatcherKeeps(s: State, e: Event)
    requires Inv(s) && !Arrives(e) && e.a < |s.actors| && s.actors[e.a].Watcher?
    ensures Inv(WatcherStep(s, e))
  {
    var t := WatcherStep(s, e);
    assert t.actors == s.actors[e.a := t.actors[e.a]];
    SetKeeps(s, t, e.a, t.actors[e.a]);
  }

  lemma ApplierKeeps(s: State, e: Event)
    requires Inv(s) && !Arrives(e) && e.a < |s.actors| && s.actors[e.a].Applier?
    ensures Inv(ApplierStep(s, e))
  {
    var t := ApplierStep(s, e);
    assert t.actors == s.actors[e.a := t.actors[e.a]];
    SetKeeps(s, t, e.a, t.actors[e.a]);
  }

  lemma ArriveKeeps(s: State, e: Event)
    requires Inv(s) && Arrives(e)
    ensures Inv(Arrive(s, e))
  {
    match e
    case Connect => SpawnKeeps(s, s.generation + 1, Connector(s.generation + 1, false, Queued));
    case Disconnect => SpawnKeeps(s, s.generation + 1, Disconnector(s.generation + 1, Waiting));
    case Drop => SpawnHereKeeps(s, Handler(Fresh));
    case Rise => SpawnHereKeeps(s, Watcher(true, Unread));
    case Look => SpawnHereKeeps(s, Watcher(false, Unread));
    case Apply => SpawnHereKeeps(s, Applier(Asked));
    case Revoke =>
  }

  lemma StepKeeps(s: State, e: Event)
    requires Inv(s)
    ensures Inv(Step(s, e))
  {
    if Arrives(e) {
      ArriveKeeps(s, e);
    } else if e.a < |s.actors| {
      match s.actors[e.a]
      case Handler(_) => HandlerKeeps(s, e);
      case Connector(_, _, phase) =>
        if phase.Queued? || Connects(s.actors[e.a]) { ConnectKeeps(s, e); } else { ReconnectKeeps(s, e); }
      case Disconnector(_, _) => DisconnectorKeeps(s, e);
      case Watcher(_, _) => WatcherKeeps(s, e);
      case Applier(_) => ApplierKeeps(s, e);
    }
  }

  lemma RunKeeps(s: State, events: seq<Event>)
    requires Inv(s)
    ensures Inv(Run(s, events))
  {
    forall t, e | Inv(t)
      ensures Inv(Step(t, e))
    {
      StepKeeps(t, e);
    }
    RunInvariant(Step, e => true, t => Inv(t), s, events);
  }

  /** A step that starts a server is a connect's, or a restart's on new routing. */
  predicate StartsServer(s: State, e: Event) {
    !Arrives(e) && e.a < |s.actors|
    && ((e.Launch? && !e.how.Refused? && s.actors[e.a].Connector? && s.actors[e.a].phase.Starting?)
        || (e.Restart? && !e.how.Refused? && s.actors[e.a].Applier? && s.actors[e.a].apply.Restarting?))
  }

  /** What it starts, for whom. */
  function Started(s: State, e: Event): Start
    requires StartsServer(s, e)
  {
    Start(if e.Launch? then Some(s.actors[e.a].generation) else None, ServerConfig)
  }

  /** What one step can do: actors stay who they are, and a server is started by those who may. */
  ghost predicate Orderly(s: State, e: Event, t: State) {
    && |s.actors| <= |t.actors|
    && (forall i: nat :: i < |s.actors| && Entered(s.actors[i]) ==>
          Entered(t.actors[i]) && t.actors[i].generation == s.actors[i].generation)
    && (if StartsServer(s, e) then t.starts == s.starts + [Started(s, e)]
        else t.starts == s.starts || t.starts == s.starts + [Start(None, LockdownConfig)])
  }

  lemma HandlerOrderly(s: State, e: Event)
    requires !Arrives(e) && e.a < |s.actors| && s.actors[e.a].Handler?
    ensures Orderly(s, e, HandlerStep(s, e))
  {
  }

  lemma ReconnectOrderly(s: State, e: Event)
    requires !Arrives(e) && e.a < |s.actors| && s.actors[e.a].Connector? && !Connects(s.actors[e.a])
    ensures Orderly(s, e, ReconnectStep(s, e))
  {
  }

  lemma ConnectOrderly(s: State, e: Event)
    requires !Arrives(e) && e.a < |s.actors| && s.actors[e.a].Connector?
    requires Connects(s.actors[e.a]) || s.actors[e.a].phase.Queued?
    ensures Orderly(s, e, ConnectStep(s, e))
  {
  }

  lemma DisconnectorOrderly(s: State, e: Event)
    requires !Arrives(e) && e.a < |s.actors| && s.actors[e.a].Disconnector?
    ensures Orderly(s, e, DisconnectorStep(s, e))
  {
  }

  lemma WatcherOrderly(s: State, e: Event)
    requires !Arrives(e) && e.a < |s.actors| && s.actors[e.a].Watcher?
    ensures Orderly(s, e, WatcherStep(s, e))
  {
  }

  lemma ApplierOrderly(s: State, e: Event)
    requires !Arrives(e) && e.a < |s.actors| && s.actors[e.a].Applier?
    ensures Orderly(s, e, ApplierStep(s, e))
  {
  }

  /** Nobody starts a server but a connect and a restart on new routing, each of which holds the lock. */
  lemma StepOrderly(s: State, e: Event)
    ensures Orderly(s, e, Step(s, e))
    ensures StartsServer(s, e) ==> Holding(s.actors[e.a])
  {
    if !Arrives(e) && e.a < |s.actors| {
      match s.actors[e.a]
      case Handler(_) => HandlerOrderly(s, e);
      case Connector(_, _, phase) =>
        if phase.Queued? || Connects(s.actors[e.a]) { ConnectOrderly(s, e); } else { ReconnectOrderly(s, e); }
      case Disconnector(_, _) => DisconnectorOrderly(s, e);
      case Watcher(_, _) => WatcherOrderly(s, e);
      case Applier(_) => ApplierOrderly(s, e);
    }
  }

  // ------------------------------------------------------------- supersession

  /** Every server a connect started from a moment on has at least a generation. */
  ghost predicate StartedFrom(starts: seq<Start>, from: nat, generation: nat) {
    forall k :: from <= k < |starts| && starts[k].config.ServerConfig? && starts[k].generation.Some? ==>
      generation <= starts[k].generation.value
  }

  /** After a disconnect got its lock in s. */
  ghost predicate Since(s: State, d: nat, t: State)
    requires d < |s.actors| && Entered(s.actors[d])
  {
    && Inv(t) && s.starts <= t.starts && d < |t.actors|
    && Entered(t.actors[d]) && t.actors[d].generation == s.actors[d].generation
    && StartedFrom(t.starts, |s.starts|, s.actors[d].generation)
  }

  lemma SinceKeeps(s: State, d: nat, t: State, e: Event, u: State)
    requires d < |s.actors| && Entered(s.actors[d]) && Since(s, d, t) && Inv(u) && Orderly(t, e, u)
    requires StartsServer(t, e) ==> Holding(t.actors[e.a])
    ensures Since(s, d, u)
  {
    if StartsServer(t, e) && e.Launch? {
      assert Connects(t.actors[e.a]);
    }
  }

  /**
   * Supersession: in every interleaving, once a disconnect has its lock, no
   * connect or reconnect of an older generation starts a server again.
   */
  lemma DisconnectSupersedes(events: seq<Event>, more: seq<Event>, d: nat)
    requires d < |Run(START, events).actors| && Entered(Run(START, events).actors[d])
    ensures var s, t := Run(START, events), Run(Run(START, events), more);
      s.starts <= t.starts && StartedFrom(t.starts, |s.starts|, s.actors[d].generation)
  {
    RunKeeps(START, events);
    var s := Run(START, events);
    forall t, e | Since(s, d, t)
      ensures Since(s, d, Step(t, e))
    {
      StepKeeps(t, e);
      StepOrderly(t, e);
      SinceKeeps(s, d, t, e, Step(t, e));
    }
    RunInvariant(Step, e => true, t => Since(s, d, t), s, more);
  }
}
