// Every interleaving of the control client's lock-held regions and channel
// operations (internal/core/client.go).

module ControlMachine {
  import opened Wrappers
  import opened ControlShared

  /** id is the request a channel was made for; closes counts how often it has been closed. */
  datatype Channel = Channel(id: nat, buffer: Option<Reply>, closes: nat)

  datatype Outcome = Answered(reply: Reply) | ConnectionClosed | SendFailed | NoAnswer

  datatype Phase = Sending | Waiting | GivingUp(why: Outcome) | Done(outcome: Outcome)

  /** A goroutine inside request, past registration. */
  datatype Call = Call(id: nat, channel: nat, phase: Phase)

  /** A goroutine in readLoop, or one closing what disconnect took. */
  datatype Agent =
    | Reading(conn: nat)
    | Holding(conn: nat, channel: nat, reply: Reply)
    | Sent(conn: nat, channel: nat)
    | Leaving(conn: nat)
    | Gone
    | Closing(channels: set<nat>)

  datatype State = State(
    shared: Shared<nat>, channels: seq<Channel>, calls: seq<Call>, agents: seq<Agent>, dials: nat)

  const START := State(Shared(None, None, 0, map[]), [], [], [], 0)

  datatype Event =
    | Begin
    | Encoded(call: nat) | EncodeFailed(call: nat) | TimedOut(call: nat) | GiveUp(call: nat) | Receive(call: nat)
    | Connect
    | Got(agent: nat, reply: Reply) | Send(agent: nat) | CloseSent(agent: nat)
    | ReadFailed(agent: nat) | Leave(agent: nat)
    | Disconnect | CloseTaken(agent: nat, channel: nat)

  function SetPhase(s: State, call: nat, phase: Phase): State
    requires call < |s.calls|
  {
    s.(calls := s.calls[call := s.calls[call].(phase := phase)])
  }

  function SetAgent(s: State, agent: nat, to: Agent): State
    requires agent < |s.agents|
  {
    s.(agents := s.agents[agent := to])
  }

  function SetChannel(s: State, channel: nat, to: Channel): State
    requires channel < |s.channels|
  {
    s.(channels := s.channels[channel := to])
  }

  function BeginCall(s: State): State {
    if s.shared.encoder.None? then s
    else
      var id, channel := NextId(s.shared), |s.channels|;
      s.(shared := Registered(s.shared, channel),
         channels := s.channels + [Channel(id, None, 0)],
         calls := s.calls + [Call(id, channel, Sending)])
  }

  function CallStep(s: State, e: Event): State
    requires (e.Encoded? || e.EncodeFailed? || e.TimedOut? || e.GiveUp? || e.Receive?) && e.call < |s.calls|
  {
    var call := s.calls[e.call];
    match e
    case Encoded(i) => if call.phase.Sending? then SetPhase(s, i, Waiting) else s
    case EncodeFailed(i) => if call.phase.Sending? then SetPhase(s, i, GivingUp(SendFailed)) else s
    case TimedOut(i) => if call.phase.Waiting? then SetPhase(s, i, GivingUp(NoAnswer)) else s
    case GiveUp(i) =>
      if call.phase.GivingUp? then SetPhase(s.(shared := Forgotten(s.shared, call.id)), i, Done(call.phase.why)) else s
    case Receive(i) =>
      // A buffered reply is received even from a closed channel.
      if !call.phase.Waiting? || call.channel >= |s.channels| then s
      else
        var channel := s.channels[call.channel];
        if channel.buffer.Some? then
          SetPhase(SetChannel(s, call.channel, channel.(buffer := None)), i, Done(Answered(channel.buffer.value)))
        else if channel.closes > 0 then SetPhase(s, i, Done(ConnectionClosed))
        else s
  }

  function TakeReply(s: State, agent: nat, reply: Reply): State
    requires agent < |s.agents| && s.agents[agent].Reading?
  {
    var next := s.(shared := Forgotten(s.shared, reply.id));
    if reply.id in s.shared.pending
    then SetAgent(next, agent, Holding(s.agents[agent].conn, s.shared.pending[reply.id], reply))
    else next
  }

  function DropAll(s: State): State {
    s.(shared := Dropped(s.shared), agents := s.agents + [Closing(s.shared.pending.Values)])
  }

  function CloseOf(s: State, channel: nat): State {
    if channel < |s.channels|
    then SetChannel(s, channel, s.channels[channel].(closes := s.channels[channel].closes + 1)) else s
  }

  function AgentStep(s: State, e: Event): State
    requires (e.Got? || e.Send? || e.CloseSent? || e.ReadFailed? || e.Leave? || e.CloseTaken?) && e.agent < |s.agents|
  {
    var agent := s.agents[e.agent];
    match e
    case Got(i, reply) => if agent.Reading? then TakeReply(s, i, reply) else s
    case Send(i) =>
      // A send on a full channel waits; on a closed one it would panic.
      if !agent.Holding? || agent.channel >= |s.channels| || s.channels[agent.channel].buffer.Some? then s
      else
        SetAgent(SetChannel(s, agent.channel, s.channels[agent.channel].(buffer := Some(agent.reply))), i,
          Sent(agent.conn, agent.channel))
    case CloseSent(i) =>
      if agent.Sent? then SetAgent(CloseOf(s, agent.channel), i, Reading(agent.conn)) else s
    case ReadFailed(i) => if agent.Reading? then SetAgent(s, i, Leaving(agent.conn)) else s
    case Leave(i) =>
      // Only the reader of the current connection takes it down with it; that
      // disconnect is a Disconnect step of its own.
      if agent.Leaving? then SetAgent(s, i, Gone) else s
    case CloseTaken(i, channel) =>
      if agent.Closing? && channel in agent.channels
      then SetAgent(CloseOf(s, channel), i, Closing(agent.channels - {channel})) else s
  }

  function Step(s: State, e: Event): State {
    match e
    case Begin => BeginCall(s)
    case Connect =>
      s.(shared := Adopted(s.shared, s.dials), agents := s.agents + [Reading(s.dials)], dials := s.dials + 1)
    case Disconnect => DropAll(s)
    case Encoded(i) => if i < |s.calls| then CallStep(s, e) else s
    case EncodeFailed(i) => if i < |s.calls| then CallStep(s, e) else s
    case TimedOut(i) => if i < |s.calls| then CallStep(s, e) else s
    case GiveUp(i) => if i < |s.calls| then CallStep(s, e) else s
    case Receive(i) => if i < |s.calls| then CallStep(s, e) else s
    case Got(i, _) => if i < |s.agents| then AgentStep(s, e) else s
    case Send(i) => if i < |s.agents| then AgentStep(s, e) else s
    case CloseSent(i) => if i < |s.agents| then AgentStep(s, e) else s
    case ReadFailed(i) => if i < |s.agents| then AgentStep(s, e) else s
    case Leave(i) => if i < |s.agents| then AgentStep(s, e) else s
    case CloseTaken(i, _) => if i < |s.agents| then AgentStep(s, e) else s
  }

  /** The state any interleaving leads to; a step that cannot happen changes nothing. */
  function Run(events: seq<Event>): State {
    if events == [] then START else Step(Run(events[..|events| - 1]), events[|events| - 1])
  }

  // -------------------------------------------------------------- invariants

  predicate Has(agent: Agent, channel: nat) {
    match agent
    case Holding(_, held, _) => held == channel
    case Sent(_, held) => held == channel
    case Closing(channels) => channel in channels
    case _ => false
  }

  /** Whose hands a channel is in: the client's list, one goroutine's, or, once closed, nobody's. */
  datatype Owner = List | Hand(agent: nat) | Nobody

  predicate ChannelSound(channel: Channel, owner: Owner) {
    && (if owner.Nobody? then channel.closes == 1 else channel.closes == 0)
    && (owner.List? ==> channel.buffer.None?)
    && (channel.buffer.Some? ==> channel.buffer.value.id == channel.id)
  }

  predicate CallSound(call: Call, channel: Channel) {
    && channel.id == call.id
    && (call.phase.Done? && call.phase.outcome.Answered? ==> call.phase.outcome.reply.id == call.id)
    && (call.phase.GivingUp? ==> call.phase.why.SendFailed? || call.phase.why.NoAnswer?)
  }

  predicate AgentSound(agent: Agent, channels: seq<Channel>) {
    agent.Holding? ==>
      agent.channel < |channels| && channels[agent.channel].buffer.None? && channels[agent.channel].id == agent.reply.id
  }

  ghost predicate Inv(s: State, owners: seq<Owner>) {
    && |owners| == |s.channels| == |s.calls|
    && (forall id :: id in s.shared.pending ==>
          s.shared.pending[id] < |owners| && owners[s.shared.pending[id]] == List && s.channels[s.shared.pending[id]].id == id)
    && (forall i: nat, c: nat {:trigger Has(s.agents[i], c)} :: i < |s.agents| && Has(s.agents[i], c) ==> c < |owners| && owners[c] == Hand(i))
    && (forall c :: 0 <= c < |owners| ==> ChannelSound(s.channels[c], owners[c]))
    && (forall i :: 0 <= i < |s.agents| ==> AgentSound(s.agents[i], s.channels))
    && (forall i :: 0 <= i < |s.calls| ==> s.calls[i].channel == i && CallSound(s.calls[i], s.channels[i]))
    && (s.shared.encoder.None? ==> s.shared.pending == map[])
  }

  /** How ownership moves with a step. */
  function Moved(s: State, owners: seq<Owner>, e: Event): seq<Owner>
    requires |owners| == |s.channels|
  {
    match e
    case Begin => if s.shared.encoder.None? then owners else owners + [List]
    case Disconnect =>
      seq(|owners|, c requires 0 <= c < |owners| =>
        if owners[c].List? && c in s.shared.pending.Values then Hand(|s.agents|) else owners[c])
    case Got(i, reply) =>
      if i < |s.agents| && s.agents[i].Reading? && reply.id in s.shared.pending && s.shared.pending[reply.id] < |owners|
      then owners[s.shared.pending[reply.id] := Hand(i)] else owners
    case CloseSent(i) =>
      if i < |s.agents| && s.agents[i].Sent? && s.agents[i].channel < |owners|
      then owners[s.agents[i].channel := Nobody] else owners
    case CloseTaken(i, c) =>
      if i < |s.agents| && s.agents[i].Closing? && c in s.agents[i].channels && c < |owners|
      then owners[c := Nobody] else owners
    case _ => owners
  }

  lemma BeginKeeps(s: State, owners: seq<Owner>)
    requires Inv(s, owners)
    ensures Inv(BeginCall(s), Moved(s, owners, Begin))
  {
  }

  lemma CallKeeps(s: State, owners: seq<Owner>, e: Event)
    requires Inv(s, owners)
    requires (e.Encoded? || e.EncodeFailed? || e.TimedOut? || e.GiveUp? || e.Receive?) && e.call < |s.calls|
    ensures Inv(CallStep(s, e), owners)
  {
    assert s.calls[e.call].channel == e.call && ChannelSound(s.channels[e.call], owners[e.call]);
  }

  lemma TakeKeeps(s: State, owners: seq<Owner>, agent: nat, reply: Reply)
    requires Inv(s, owners) && agent < |s.agents| && s.agents[agent].Reading?
    ensures Inv(TakeReply(s, agent, reply), Moved(s, owners, Got(agent, reply)))
  {
    if reply.id in s.shared.pending {
      assert ChannelSound(s.channels[s.shared.pending[reply.id]], List);
    }
  }

  lemma SendKeeps(s: State, owners: seq<Owner>, i: nat)
    requires Inv(s, owners) && i < |s.agents|
    ensures Inv(AgentStep(s, Send(i)), owners)
  {
    if s.agents[i].Holding? {
      var c := s.agents[i].channel;
      assert Has(s.agents[i], c) && ChannelSound(s.channels[c], owners[c]);
      forall j | 0 <= j < |s.agents| && j != i
        ensures s.agents[j].Holding? ==> s.agents[j].channel != c
      {
        assert !Has(s.agents[j], c);
      }
    }
  }

  lemma CloseKeeps(s: State, owners: seq<Owner>, i: nat, channel: nat, to: Agent)
    requires Inv(s, owners) && i < |s.agents| && Has(s.agents[i], channel)
    requires !to.Holding? && forall c {:trigger Has(to, c)} :: Has(to, c) ==> Has(s.agents[i], c) && c != channel
    ensures channel < |owners| && Inv(SetAgent(CloseOf(s, channel), i, to), owners[channel := Nobody])
  {
    assert ChannelSound(s.channels[channel], owners[channel]);
    assert forall j :: 0 <= j < |s.agents| && j != i ==> !Has(s.agents[j], channel);
  }

  lemma CloseSentKeeps(s: State, owners: seq<Owner>, i: nat)
    requires Inv(s, owners) && i < |s.agents|
    ensures Inv(AgentStep(s, CloseSent(i)), Moved(s, owners, CloseSent(i)))
  {
    if s.agents[i].Sent? {
      CloseKeeps(s, owners, i, s.agents[i].channel, Reading(s.agents[i].conn));
    }
  }

  lemma CloseTakenKeeps(s: State, owners: seq<Owner>, i: nat, c: nat)
    requires Inv(s, owners) && i < |s.agents|
    ensures Inv(AgentStep(s, CloseTaken(i, c)), Moved(s, owners, CloseTaken(i, c)))
  {
    if s.agents[i].Closing? && c in s.agents[i].channels {
      CloseKeeps(s, owners, i, c, Closing(s.agents[i].channels - {c}));
    }
  }

  lemma QuietKeeps(s: State, owners: seq<Owner>, i: nat, to: Agent)
    requires Inv(s, owners) && i < |s.agents| && (to.Leaving? || to.Gone?)
    ensures Inv(SetAgent(s, i, to), owners)
  {
  }

  lemma AgentKeeps(s: State, owners: seq<Owner>, e: Event)
    requires Inv(s, owners)
    requires (e.Got? || e.Send? || e.CloseSent? || e.ReadFailed? || e.Leave? || e.CloseTaken?) && e.agent < |s.agents|
    ensures Inv(AgentStep(s, e), Moved(s, owners, e))
  {
    match e
    case Got(i, reply) => if s.agents[i].Reading? { TakeKeeps(s, owners, i, reply); }
    case Send(i) => SendKeeps(s, owners, i);
    case CloseSent(i) => CloseSentKeeps(s, owners, i);
    case CloseTaken(i, c) => CloseTakenKeeps(s, owners, i, c);
    case ReadFailed(i) => if s.agents[i].Reading? { QuietKeeps(s, owners, i, Leaving(s.agents[i].conn)); }
    case Leave(i) => QuietKeeps(s, owners, i, Gone);
  }

  lemma DropKeeps(s: State, owners: seq<Owner>)
    requires Inv(s, owners)
    ensures Inv(DropAll(s), Moved(s, owners, Disconnect))
  {
  }

  lemma StepKeeps(s: State, owners: seq<Owner>, e: Event)
    requires Inv(s, owners)
    ensures Inv(Step(s, e), Moved(s, owners, e))
  {
    match e
    case Begin => BeginKeeps(s, owners);
    case Disconnect => DropKeeps(s, owners);
    case Connect =>
    case Encoded(i) => if i < |s.calls| { CallKeeps(s, owners, e); }
    case EncodeFailed(i) => if i < |s.calls| { CallKeeps(s, owners, e); }
    case TimedOut(i) => if i < |s.calls| { CallKeeps(s, owners, e); }
    case GiveUp(i) => if i < |s.calls| { CallKeeps(s, owners, e); }
    case Receive(i) => if i < |s.calls| { CallKeeps(s, owners, e); }
    case _ => if e.agent < |s.agents| { AgentKeeps(s, owners, e); }
  }

  // -------------------------------------------------------- nobody forgotten

  predicate Live(call: Call) { call.phase.Sending? || call.phase.Waiting? }

  /** Until ids wrap, each request has its own, and a live request's channel can always be found. */
  ghost predicate Traced(s: State, owners: seq<Owner>) {
    && |owners| == |s.channels| == |s.calls| == s.shared.nextId
    && (forall i :: 0 <= i < |s.calls| ==> s.calls[i].id == i + 1)
    && (forall i :: 0 <= i < |s.calls| && Live(s.calls[i]) && owners[i].List? ==>
          i + 1 in s.shared.pending && s.shared.pending[i + 1] == i)
    && (forall c :: 0 <= c < |owners| && owners[c].Hand? ==>
          owners[c].agent < |s.agents| && Has(s.agents[owners[c].agent], c))
  }

  lemma CallTraces(s: State, owners: seq<Owner>, e: Event)
    requires Inv(s, owners) && Traced(s, owners)
    requires (e.Encoded? || e.EncodeFailed? || e.TimedOut? || e.GiveUp? || e.Receive?) && e.call < |s.calls|
    ensures Traced(CallStep(s, e), owners)
  {
  }

  lemma TakeTraces(s: State, owners: seq<Owner>, i: nat, reply: Reply)
    requires Inv(s, owners) && Traced(s, owners) && i < |s.agents| && s.agents[i].Reading?
    ensures Traced(TakeReply(s, i, reply), Moved(s, owners, Got(i, reply)))
  {
  }

  /** An agent that lets go of one channel, or of none, leaves the rest where they can be found. */
  lemma LetGoTraces(s: State, owners: seq<Owner>, i: nat, channel: nat, to: Agent)
    requires Traced(s, owners) && i < |s.agents| && channel < |owners|
    requires forall c {:trigger Has(to, c)} :: Has(s.agents[i], c) && c != channel ==> Has(to, c)
    ensures Traced(SetAgent(CloseOf(s, channel), i, to), owners[channel := Nobody])
  {
  }

  lemma KeepTraces(s: State, owners: seq<Owner>, i: nat, to: Agent, channels: seq<Channel>)
    requires Traced(s, owners) && i < |s.agents| && |channels| == |s.channels|
    requires forall c {:trigger Has(to, c)} :: Has(s.agents[i], c) ==> Has(to, c)
    ensures Traced(SetAgent(s.(channels := channels), i, to), owners)
  {
  }

  lemma AgentTraces(s: State, owners: seq<Owner>, e: Event)
    requires Inv(s, owners) && Traced(s, owners)
    requires (e.Got? || e.Send? || e.CloseSent? || e.ReadFailed? || e.Leave? || e.CloseTaken?) && e.agent < |s.agents|
    ensures Traced(AgentStep(s, e), Moved(s, owners, e))
  {
    var agent := s.agents[e.agent];
    match e
    case Got(i, reply) => if agent.Reading? { TakeTraces(s, owners, i, reply); }
    case Send(i) => KeepTraces(s, owners, i, AgentStep(s, e).agents[i], AgentStep(s, e).channels);
    case ReadFailed(i) => KeepTraces(s, owners, i, AgentStep(s, e).agents[i], s.channels);
    case Leave(i) => KeepTraces(s, owners, i, AgentStep(s, e).agents[i], s.channels);
    case _ => CloserTraces(s, owners, e);
  }

  lemma CloserTraces(s: State, owners: seq<Owner>, e: Event)
    requires Inv(s, owners) && Traced(s, owners) && (e.CloseSent? || e.CloseTaken?) && e.agent < |s.agents|
    ensures Traced(AgentStep(s, e), Moved(s, owners, e))
  {
    var agent := s.agents[e.agent];
    match e
    case CloseSent(i) =>
      if agent.Sent? {
        assert Has(agent, agent.channel);
        LetGoTraces(s, owners, i, agent.channel, Reading(agent.conn));
      }
    case CloseTaken(i, c) =>
      if agent.Closing? && c in agent.channels {
        assert Has(agent, c);
        LetGoTraces(s, owners, i, c, Closing(agent.channels - {c}));
      }
  }

  lemma DropTraces(s: State, owners: seq<Owner>)
    requires Inv(s, owners) && Traced(s, owners)
    ensures Traced(DropAll(s), Moved(s, owners, Disconnect))
  {
  }

  lemma BeginTraces(s: State, owners: seq<Owner>)
    requires Inv(s, owners) && Traced(s, owners) && |BeginCall(s).calls| < ID_SPACE
    ensures Traced(BeginCall(s), Moved(s, owners, Begin))
  {
  }

  lemma StepTraces(s: State, owners: seq<Owner>, e: Event)
    requires Inv(s, owners) && Traced(s, owners) && |Step(s, e).calls| < ID_SPACE
    ensures Traced(Step(s, e), Moved(s, owners, e))
  {
    match e
    case Begin => BeginTraces(s, owners);
    case Disconnect => DropTraces(s, owners);
    case Connect =>
    case Encoded(i) => if i < |s.calls| { CallTraces(s, owners, e); }
    case EncodeFailed(i) => if i < |s.calls| { CallTraces(s, owners, e); }
    case TimedOut(i) => if i < |s.calls| { CallTraces(s, owners, e); }
    case GiveUp(i) => if i < |s.calls| { CallTraces(s, owners, e); }
    case Receive(i) => if i < |s.calls| { CallTraces(s, owners, e); }
    case _ => if e.agent < |s.agents| { AgentTraces(s, owners, e); }
  }

  lemma StepKeepsCalls(s: State, e: Event)
    ensures |s.calls| <= |Step(s, e).calls|
    ensures forall i :: 0 <= i < |s.calls| ==>
      s.calls[i].id == Step(s, e).calls[i].id && (s.calls[i].phase.Done? ==> Step(s, e).calls[i] == s.calls[i])
  {
  }

  // ------------------------------------------------------------ the theorems

  lemma {:induction false} RunKeeps(events: seq<Event>) returns (owners: seq<Owner>)
    ensures Inv(Run(events), owners)
    ensures |Run(events).calls| < ID_SPACE ==> Traced(Run(events), owners)
  {
    if events == [] {
      owners := [];
    } else {
      var init, last := events[..|events| - 1], events[|events| - 1];
      var before := RunKeeps(init);
      owners := Moved(Run(init), before, last);
      StepKeeps(Run(init), before, last);
      StepKeepsCalls(Run(init), last);
      if |Run(events).calls| < ID_SPACE {
        StepTraces(Run(init), before, last);
      }
    }
  }

  /** A send never waits and never finds its channel closed. */
  ghost predicate SendsFreely(s: State) {
    forall i :: 0 <= i < |s.agents| && s.agents[i].Holding? ==> Untouched(s, s.agents[i].channel)
  }

  predicate Untouched(s: State, channel: nat) {
    channel < |s.channels| && s.channels[channel].buffer.None? && s.channels[channel].closes == 0
  }

  /** Whoever is about to close a channel is the first to. */
  ghost predicate ClosesOnce(s: State) {
    && (forall c :: 0 <= c < |s.channels| ==> s.channels[c].closes <= 1)
    && (forall i: nat, c: nat {:trigger Has(s.agents[i], c)} ::
          i < |s.agents| && Has(s.agents[i], c) ==> c < |s.channels| && s.channels[c].closes == 0)
  }

  /** What a request was told is the reply to that request. */
  ghost predicate OwnReplies(s: State) {
    forall i :: 0 <= i < |s.calls| && s.calls[i].phase.Done? && s.calls[i].phase.outcome.Answered? ==>
      s.calls[i].phase.outcome.reply.id == s.calls[i].id
  }

  /**
   * Whatever order requests, replies, timeouts, disconnects and reconnections
   * come in: sends never block, no channel is closed twice, replies reach only
   * the request they answer, and nobody waits on a list with no connection.
   */
  lemma EveryInterleavingIsSafe(events: seq<Event>)
    ensures var s := Run(events);
      SendsFreely(s) && ClosesOnce(s) && OwnReplies(s) && (s.shared.encoder.None? ==> s.shared.pending == map[])
  {
    var s := Run(events);
    var owners := RunKeeps(events);
    forall i | 0 <= i < |s.agents| && s.agents[i].Holding?
      ensures Untouched(s, s.agents[i].channel)
    {
      assert Has(s.agents[i], s.agents[i].channel);
      assert ChannelSound(s.channels[s.agents[i].channel], owners[s.agents[i].channel]);
    }
    forall c | 0 <= c < |s.channels|
      ensures s.channels[c].closes <= 1 && (owners[c].Hand? ==> s.channels[c].closes == 0)
    {
      assert ChannelSound(s.channels[c], owners[c]);
    }
  }

  /** A request has one outcome: once it has one, nothing that happens later changes it. */
  lemma {:induction false} OutcomesStand(events: seq<Event>, more: seq<Event>, i: nat)
    requires i < |Run(events).calls| && Run(events).calls[i].phase.Done?
    ensures i < |Run(events + more).calls| && Run(events + more).calls[i] == Run(events).calls[i]
  {
    if more == [] {
      assert events + more == events;
    } else {
      var init, last := more[..|more| - 1], more[|more| - 1];
      OutcomesStand(events, init, i);
      var before := Run(events + init);
      assert (events + more)[..|events + more| - 1] == events + init;
      assert Run(events + more) == Step(before, last);
      StepKeepsCalls(before, last);
    }
  }

  /** Nothing is connected, and no goroutine still holds a channel. */
  ghost predicate Settled(s: State) {
    && s.shared.encoder.None?
    && forall i: nat, c: nat {:trigger Has(s.agents[i], c)} :: i < |s.agents| ==> !Has(s.agents[i], c)
  }

  /**
   * No request is left to its timeout by a lost connection: once a disconnect
   * has settled, every request still waiting has its answer, or its close, at hand.
   */
  lemma NobodyIsForgotten(events: seq<Event>, i: nat)
    requires Settled(Run(events)) && |Run(events).calls| < ID_SPACE
    requires i < |Run(events).calls| && Run(events).calls[i].phase.Waiting?
    ensures Run(events + [Receive(i)]).calls[i].phase.Done?
  {
    var s := Run(events);
    var owners := RunKeeps(events);
    assert ChannelSound(s.channels[i], owners[i]) && s.calls[i].channel == i;
    assert Live(s.calls[i]);
    assert (events + [Receive(i)])[..|events|] == events;
  }
}
