/** What others send on channels towards the client, end to end: over every run, the client is sent exactly the
    items that reached the session on each channel, life by life and in order. */
module OutboundItems {
  import opened Basics
  import opened RouterEvents
  import opened Serials
  import opened Delivery
  import opened DeliveryProtocol
  import opened Channels
  import opened ChannelIds
  import opened Sessions
  import opened SessionInvariant
  import opened SessionSteps
  import opened SessionService
  import opened SessionHosting
  import opened SessionEffects
  import opened ChannelHistory
  import opened SessionRuns
  import opened SessionTheorems

  /** What matters here of a channel id: a channel is announced under it, or an item of that channel comes. */
  datatype Outgoing = Opens | Sends(item: EventData)

  function OutgoingOf(event: RouterEvent, id: nat): seq<Outgoing> {
    match event.data
    case Nothing => []
    case Status(change) => if change.status.StatusOpen? && change.about == id then [Opens] else []
    case _ => if event.channelId == id then [Sends(event.data)] else []
  }

  /** What a list of events says of the id. */
  function Projected(events: seq<RouterEvent>, id: nat): seq<Outgoing> {
    if events == [] then []
    else Projected(events[..|events| - 1], id) + OutgoingOf(events[|events| - 1], id)
  }

  /** Read off the steps: somebody sends an item on the channel the session works on under this id, while the channel
      is open and the session is its receiver. */
  predicate Reaches(f: Full, step: FullStep, id: nat) {
    && step.ChannelCalled? && step.op.OpSend?
    && id in f.w.s.active && f.w.s.active[id].ptr == step.ptr && step.ptr in f.w.chans
    && StatusOf(f.w.chans[step.ptr]) == FlowOpen && f.w.chans[step.ptr].recvCallback == f.w.s.self
  }

  /** The step gives the id to a channel. */
  ghost predicate Gives(f: Full, step: FullStep, maxWindow: nat, id: nat)
    requires Known(f.w) && FullEnabled(f, step, maxWindow)
  {
    id !in f.w.s.active && id in FullNext(f, step, maxWindow).w.s.active
  }

  ghost function AskedIn(f: Full, step: FullStep, maxWindow: nat, id: nat): seq<Outgoing>
    requires Known(f.w) && FullEnabled(f, step, maxWindow)
  {
    if Gives(f, step, maxWindow, id) then [Opens]
    else if Reaches(f, step, id) then [Sends(step.op.item)]
    else []
  }

  /** What a run asks the client to be told of the id. */
  ghost function Asked(f: Full, steps: seq<FullStep>, maxWindow: nat, id: nat): seq<Outgoing>
    requires FullLegal(f, steps, maxWindow)
    decreases steps
  {
    if steps == [] then []
    else AskedIn(f, steps[0], maxWindow, id) + Asked(FullNext(f, steps[0], maxWindow), steps[1..], maxWindow, id)
  }

  // ----- Projections -----

  lemma ProjectedAppend(events: seq<RouterEvent>, event: RouterEvent, id: nat)
    ensures Projected(events + [event], id) == Projected(events, id) + OutgoingOf(event, id)
  {
    assert (events + [event])[..|events|] == events;
  }

  lemma {:induction false} FlowIsNoItem(log: seq<RouterEvent>, next: seq<RouterEvent>, id: nat)
    requires TellsFlow(log, next)
    ensures Projected(next, id) == Projected(log, id)
    decreases |next|
  {
    if |log| < |next| {
      FlowIsNoItem(log, next[..|next| - 1], id);
      assert IsFlow(next[|next| - 1]);
    } else {
      assert next == log;
    }
  }

  lemma {:induction false} ProjectedPrefix(log: seq<RouterEvent>, next: seq<RouterEvent>, id: nat)
    requires log <= next
    ensures Projected(log, id) <= Projected(next, id)
    decreases |next|
  {
    if |log| < |next| {
      ProjectedPrefix(log, next[..|next| - 1], id);
    } else {
      assert next == log;
    }
  }

  /** Every status is told outside any channel, every item inside one, and there is no other kind of event. */
  predicate WellPlaced(event: RouterEvent) {
    Sendable(event) && (event.data.Status? <==> event.channelId == 0)
  }

  ghost predicate AllPlaced(log: seq<RouterEvent>) {
    forall i :: 0 <= i < |log| ==> WellPlaced(log[i])
  }

  lemma FlowIsPlaced(log: seq<RouterEvent>, next: seq<RouterEvent>)
    requires TellsFlow(log, next) && AllPlaced(log)
    ensures AllPlaced(next)
  {
  }

  // ----- Each step -----

  /** The step adds to the log what it asks for, in the right place. */
  ghost predicate Tells(f: Full, step: FullStep, maxWindow: nat, id: nat)
    requires Known(f.w) && FullEnabled(f, step, maxWindow)
  {
    var next := FullNext(f, step, maxWindow);
    && Projected(next.w.s.d.log, id) == Projected(f.w.s.d.log, id) + AskedIn(f, step, maxWindow, id)
    && (AllPlaced(f.w.s.d.log) ==> AllPlaced(next.w.s.d.log))
  }

  lemma FlowTells(f: Full, step: FullStep, maxWindow: nat, id: nat)
    requires Known(f.w) && FullEnabled(f, step, maxWindow)
    requires TellsFlow(f.w.s.d.log, FullNext(f, step, maxWindow).w.s.d.log) && AskedIn(f, step, maxWindow, id) == []
    ensures Tells(f, step, maxWindow, id)
  {
    hide FullNext, FullEnabled, Known, AskedIn, TellsFlow, AllPlaced;
    FlowIsNoItem(f.w.s.d.log, FullNext(f, step, maxWindow).w.s.d.log, id);
    if AllPlaced(f.w.s.d.log) { FlowIsPlaced(f.w.s.d.log, FullNext(f, step, maxWindow).w.s.d.log); }
  }

  lemma EnqueueLogsOne(d: State, channelId: nat, data: EventData)
    requires Ready(d)
    ensures Enqueue(d, channelId, data).log == d.log + [RouterEvent(NextSerial(d.modulus, d.lastSerial), channelId, data)]
    ensures Ready(Enqueue(d, channelId, data))
  {
  }

  lemma OneEventTells(d: State, next: State, channelId: nat, data: EventData, id: nat)
    requires Ready(d) && next.log == Enqueue(d, channelId, data).log
    ensures var event := RouterEvent(0, channelId, data);
      && Projected(next.log, id) == Projected(d.log, id) + OutgoingOf(event, id)
      && (AllPlaced(d.log) && WellPlaced(event) ==> AllPlaced(next.log))
  {
    hide Enqueue, Projected, NextSerial;
    EnqueueLogsOne(d, channelId, data);
    ProjectedAppend(d.log, RouterEvent(NextSerial(d.modulus, d.lastSerial), channelId, data), id);
  }

  lemma AnnouncingTells(d: State, about: nat, out: bool, blocked: bool, id: nat)
    requires Ready(d) && id != 0
    ensures var next := Announce(d, about, out, blocked);
      && Projected(next.log, id) == Projected(d.log, id) + (if about == id then [Opens] else [])
      && (AllPlaced(d.log) ==> AllPlaced(next.log))
  {
    hide Enqueue, Projected, AllPlaced;
    var opening := Status(StatusChange(StatusOpen, out, about));
    var flow := Status(StatusChange(if blocked then StatusBlock else StatusUnblock, out, about));
    EnqueueLogsOne(d, 0, opening);
    var announced := RequestUnlessBlocked(Enqueue(d, 0, opening));
    OneEventTells(d, announced, 0, opening, id);
    OneEventTells(announced, Enqueue(announced, 0, flow), 0, flow, id);
  }

  lemma AddingTells(f: Full, ptr: Ptr, out: bool, maxWindow: nat, id: nat)
    requires FullInv(f, maxWindow) && FullEnabled(f, ChannelAdded(ptr, out), maxWindow) && Known(f.w) && id != 0
    ensures Tells(f, ChannelAdded(ptr, out), maxWindow, id)
  {
    hide Inv, Good, AllConserved, OthersUnheld, AllLinked, Tables, Register, Held, Announce, Projected, AllPlaced, IdOf;
    AddShape(f.w, ptr, out);
    var given := AddChannel(f.w, ptr, out).s.lastChannelId;
    AnnouncingTells(f.w.s.d, given, out, !out && f.w.chans[ptr].blocked, id);
  }

  /** Where an item arrives, and what of the channel decides that it does. */
  lemma ArrivesOn(w: World, ptr: Ptr, op: ChannelOp, id: nat)
    requires Agreed(w) && ptr in w.chans && op.OpSend? && id in w.s.active && w.s.active[id].ptr == ptr
    ensures id != 0 && IdOf(w.s, ptr) == id
    ensures Arrives(w, ptr, op) <==> StatusOf(w.chans[ptr]) == FlowOpen && w.chans[ptr].recvCallback == w.s.self
  {
    hide Tables, LifeGood, AllConserved;
    IdOfIs(w, id, {}, 0);
    CoreAt(w, id, {}, 0);
  }

  lemma ArrivalTells(f: Full, ptr: Ptr, op: ChannelOp, maxWindow: nat, id: nat)
    requires FullInv(f, maxWindow) && FullEnabled(f, ChannelCalled(ptr, op), maxWindow) && Known(f.w) && id != 0
    requires Arrives(f.w, ptr, op)
    ensures Tells(f, ChannelCalled(ptr, op), maxWindow, id)
  {
    hide Inv, Core, AllConserved, Enqueue, Projected, SendItem, Accepts, AllPlaced, IdOf;
    ArrivesOnActive(f.w, ptr, op);
    var at := IdOf(f.w.s, ptr);
    ArrivesOn(f.w, ptr, op, at);
    if id in f.w.s.active && f.w.s.active[id].ptr == ptr { ArrivesOn(f.w, ptr, op, id); }
    OneEventTells(f.w.s.d, ChannelData(f.w.s, ptr, op.item).d, at, op.item, id);
  }

  lemma CallTells(f: Full, ptr: Ptr, op: ChannelOp, maxWindow: nat, id: nat)
    requires FullInv(f, maxWindow) && FullEnabled(f, ChannelCalled(ptr, op), maxWindow) && Known(f.w) && id != 0
    requires !Arrives(f.w, ptr, op)
    ensures Tells(f, ChannelCalled(ptr, op), maxWindow, id)
  {
    hide Inv, Core, AllConserved, Projected, ChannelStep, Apply, AllPlaced, TellsFlow, Tells, Arrives;
    KnownIsReady(f.w);
    StepSteady(f.w, ptr, Apply(f.w.chans[ptr], op));
    if op.OpSend? && id in f.w.s.active && f.w.s.active[id].ptr == ptr { ArrivesOn(f.w, ptr, op, id); }
    FlowTells(f, ChannelCalled(ptr, op), maxWindow, id);
  }

  lemma MessageTells(f: Full, step: FullStep, maxWindow: nat, id: nat)
    requires FullInv(f, maxWindow) && FullEnabled(f, step, maxWindow) && Known(f.w) && step.MessageArrived?
    ensures Tells(f, step, maxWindow, id)
  {
    hide Inv, Core, AllConserved, Receive, Handle, AllPlaced, TellsFlow, Tells;
    MessageSteady(f.w, step.id, step.serial, step.item, step.reaction);
    FlowTells(f, step, maxWindow, id);
  }

  lemma NothingTold(log: seq<RouterEvent>)
    ensures TellsFlow(log, log)
  {
  }

  lemma MessageSteady(w: World, id: nat, serial: nat, item: EventData, reaction: Reaction)
    requires Agreed(w)
    ensures Known(w)
    ensures var next := ClientData(w, id, serial, item, reaction);
      TellsFlow(w.s.d.log, next.s.d.log) && next.s.active.Keys == w.s.active.Keys
  {
    hide Core, AllConserved, Receive, Handle, TellsFlow, Release;
    assert Known(w) by { CoreIsKnown(w, {}, 0); }
    NothingTold(w.s.d.log);
    if id in w.s.active && !w.s.active[id].out {
      ClientDataCalm(w, id, serial, item, reaction);
      ReceivingNotes(w, id, serial, item);
      ReceivingKeepsEntries(w, id, serial, item);
    }
  }

  lemma ReceivingKeepsEntries(w: World, id: nat, serial: nat, item: EventData)
    requires id in w.s.active && w.s.active[id].ptr in w.chans
    ensures Receive(w, id, serial, item).s.active == w.s.active
  {
  }

  lemma CloseTells(f: Full, closed: nat, maxWindow: nat, id: nat)
    requires FullInv(f, maxWindow) && FullEnabled(f, CloseRequested(closed), maxWindow) && Known(f.w)
    ensures Tells(f, CloseRequested(closed), maxWindow, id)
  {
    hide Inv, Core, AllConserved, Projected, ChannelStep, AllPlaced, TellsFlow, Tells;
    KnownIsReady(f.w);
    NothingTold(f.w.s.d.log);
    if closed in f.w.s.active {
      KnownAt(f.w, closed);
      StepSteady(f.w, f.w.s.active[closed].ptr, Close(f.w.chans[f.w.s.active[closed].ptr]));
    }
    FlowTells(f, CloseRequested(closed), maxWindow, id);
  }

  lemma ServiceTells(f: Full, step: FullStep, maxWindow: nat, id: nat)
    requires FullInv(f, maxWindow) && FullEnabled(f, step, maxWindow) && Known(f.w) && step.Serviced?
    ensures Tells(f, step, maxWindow, id)
  {
    hide Inv, Core, AllConserved, ProcessUnblocked, ProcessDeletes, SendPhase, TellsFlow, Tells;
    NothingTold(f.w.s.d.log);
    if !f.w.s.d.needDisconnect {
      var worked := ServiceRemains(f.w, step.reactions, step.codes);
    }
    FlowTells(f, step, maxWindow, id);
  }

  lemma DeliveryTells(f: Full, step: FullStep, maxWindow: nat, id: nat)
    requires FullInv(f, maxWindow) && FullEnabled(f, step, maxWindow) && Known(f.w) && step.Delivered?
    ensures Tells(f, step, maxWindow, id)
  {
    hide FullInv, TellsFlow, Tells, Next, Enabled;
    NothingTold(f.w.s.d.log);
    OtherStepsLeaveLog(SystemOf(f), step.step, maxWindow);
    FlowTells(f, step, maxWindow, id);
  }

  lemma CreationTells(f: Full, step: FullStep, maxWindow: nat, id: nat)
    requires FullInv(f, maxWindow) && FullEnabled(f, step, maxWindow) && Known(f.w) && step.ChannelCreated?
    ensures Tells(f, step, maxWindow, id)
  {
    hide FullInv, TellsFlow, Tells;
    NothingTold(f.w.s.d.log);
    FlowTells(f, step, maxWindow, id);
  }

  lemma StepTells(f: Full, step: FullStep, maxWindow: nat, id: nat)
    requires FullInv(f, maxWindow) && FullEnabled(f, step, maxWindow) && Known(f.w) && id != 0
    ensures Tells(f, step, maxWindow, id)
  {
    hide FullInv, Tells, Known, Arrives;
    match step
    case ChannelCreated(ptr, kind) => CreationTells(f, step, maxWindow, id);
    case ChannelAdded(ptr, out) => AddingTells(f, ptr, out, maxWindow, id);
    case ChannelCalled(ptr, op) =>
      if Arrives(f.w, ptr, op) {
        ArrivalTells(f, ptr, op, maxWindow, id);
      } else {
        CallTells(f, ptr, op, maxWindow, id);
      }
    case MessageArrived(_, _, _, _) => MessageTells(f, step, maxWindow, id);
    case CloseRequested(closed) => CloseTells(f, closed, maxWindow, id);
    case Serviced(_, _) => ServiceTells(f, step, maxWindow, id);
    case Delivered(_) => DeliveryTells(f, step, maxWindow, id);
  }

  // ----- Runs -----

  lemma {:induction false} RunTells(f: Full, steps: seq<FullStep>, maxWindow: nat, id: nat)
    requires FullInv(f, maxWindow) && FullLegal(f, steps, maxWindow) && id != 0
    ensures var log := FullRun(f, steps, maxWindow).w.s.d.log;
      && Projected(log, id) == Projected(f.w.s.d.log, id) + Asked(f, steps, maxWindow, id)
      && (AllPlaced(f.w.s.d.log) ==> AllPlaced(log))
    decreases steps
  {
    hide FullInv, FullNext, FullEnabled, Known, Projected, AskedIn, AllPlaced;
    if steps != [] {
      var next := FullNext(f, steps[0], maxWindow);
      FullStepKeeps(f, steps[0], maxWindow);
      StepTells(f, steps[0], maxWindow, id);
      RunTells(next, steps[1..], maxWindow, id);
      DeliveryProtocol.Associative(
        Projected(f.w.s.d.log, id), AskedIn(f, steps[0], maxWindow, id), Asked(next, steps[1..], maxWindow, id));
    }
  }

  /** End to end, over every run, any number of reconnects and any number of channels under one id, one after the
      other: what was queued of the channel is exactly each opening followed by the items that reached the session
      while it lasted, in the order they were sent; what the client has received of it is a beginning of that; and
      every event is of a kind that can be sent, with the channel it belongs to. */
  lemma OutboundInOrder(self: Ptr, modulus: nat, window: nat, maxChannels: nat, maxWindow: nat, steps: seq<FullStep>,
                        id: nat)
    requires IsRun(self, modulus, window, maxChannels, maxWindow, steps) && id != 0
    ensures var start := FullStart(self, modulus, window, maxChannels);
      var f, asked := FullRun(start, steps, maxWindow), Asked(start, steps, maxWindow, id);
      && Projected(f.w.s.d.log, id) == asked && Projected(f.client.received, id) <= asked
      && (f.client.received == f.w.s.d.log ==> Projected(f.client.received, id) == asked)
      && AllPlaced(f.w.s.d.log)
  {
    hide FullInv, FullLegal, FullRun, FullStart, Asked, AllPlaced;
    var start := FullStart(self, modulus, window, maxChannels);
    StartIsFull(self, modulus, window, maxChannels, maxWindow);
    RunTells(start, steps, maxWindow, id);
    DeliveredInOrder(self, modulus, window, maxChannels, maxWindow, steps);
    var f := FullRun(start, steps, maxWindow);
    ProjectedPrefix(f.client.received, f.w.s.d.log, id);
    StartIsEmpty(self, modulus, window, maxChannels);
    assert Projected([], id) + Asked(start, steps, maxWindow, id) == Asked(start, steps, maxWindow, id);
  }

  lemma StartIsEmpty(self: Ptr, modulus: nat, window: nat, maxChannels: nat)
    ensures FullStart(self, modulus, window, maxChannels).w.s.d.log == [] && AllPlaced([])
  {
  }

  // ----- Who the receiver is -----

  /** The session receives from the channel it works on under this id. */
  predicate Receives(w: World, id: nat) {
    id in w.s.active && w.s.active[id].ptr in w.chans && w.chans[w.s.active[id].ptr].recvCallback == w.s.self
  }

  predicate HasNoReceiver(c: Channel) {
    c.recvPid == 0 && c.recvCallback == 0
  }

  /** The channel leads to the client, and nobody receives from it yet. */
  predicate IsFreeFor(f: Full, step: FullStep) {
    step.ChannelAdded? && step.out && step.ptr in f.w.chans
    && HasNoReceiver(f.w.chans[step.ptr])
  }

  /** Read off the steps: whether the channel that got the id last had no receiver when it got it. */
  ghost function Chosen(f: Full, steps: seq<FullStep>, maxWindow: nat, id: nat, chosen: bool): bool
    requires FullLegal(f, steps, maxWindow)
    decreases steps
  {
    if steps == [] then chosen
    else Chosen(FullNext(f, steps[0], maxWindow), steps[1..], maxWindow, id,
                if Gives(f, steps[0], maxWindow, id) then IsFreeFor(f, steps[0]) else chosen)
  }

  lemma AddedReceiver(w: World, ptr: Ptr, out: bool)
    requires Core(w, {}, 0) && CanAdd(w, ptr)
    ensures AddChannel(w, ptr, out).chans[ptr].recvCallback == w.s.self <==> out && HasNoReceiver(w.chans[ptr])
  {
    hide Good, AllLinked, Tables, Register, Announce;
    assert Unheld(w.s.self, w.chans[ptr]);
    CoreHasTables(w);
    SelfIsSomebody(w.s);
    RegisterEffect(w.chans[ptr], w.s.self, out);
  }

  lemma AddedReceives(w: World, next: World, given: nat, ptr: Ptr, out: bool, id: nat)
    requires Tables(w.s) && ptr in w.chans && AddsOne(w, next, given, ptr, out)
    ensures Receives(next, id) <==> if id == given then next.chans[ptr].recvCallback == w.s.self else Receives(w, id)
  {
    hide Good, Held, NoRepeats;
    IdOfNone(w.s, ptr);
  }

  lemma AddingChooses(f: Full, ptr: Ptr, out: bool, maxWindow: nat, id: nat)
    requires FullInv(f, maxWindow) && FullEnabled(f, ChannelAdded(ptr, out), maxWindow) && Known(f.w)
    ensures var step, next := ChannelAdded(ptr, out), FullNext(f, ChannelAdded(ptr, out), maxWindow);
      Receives(next.w, id) <==> if Gives(f, step, maxWindow, id) then IsFreeFor(f, step) else Receives(f.w, id)
  {
    hide Inv, Core, AllConserved, AddChannel, Receives, AddsOne, IdOf;
    var next := AddChannel(f.w, ptr, out);
    CoreHasTables(f.w);
    AddShape(f.w, ptr, out);
    AddedReceiver(f.w, ptr, out);
    AddedReceives(f.w, next, next.s.lastChannelId, ptr, out, id);
    assert next.s.active.Keys == f.w.s.active.Keys + {next.s.lastChannelId} && next.s.lastChannelId !in f.w.s.active
      && ptr in f.w.chans by { AddedKeys(f.w, next, next.s.lastChannelId, ptr, out); }
  }

  lemma AddedKeys(w: World, next: World, given: nat, ptr: Ptr, out: bool)
    requires ptr in w.chans && AddsOne(w, next, given, ptr, out)
    ensures next.s.active.Keys == w.s.active.Keys + {given} && given !in w.s.active
  {
  }

  lemma SelfIsSomebody(s: Session)
    requires Tables(s)
    ensures s.self > 0 && 0 !in s.active
  {
  }

  lemma ArrivalKeepsReceiver(w: World, ptr: Ptr, op: ChannelOp, id: nat)
    requires Ready(w.s.d) && ptr in w.chans && Allowed(w.chans[ptr], op) && Arrives(w, ptr, op)
    ensures Receives(ForeignNext(w, ptr, op), id) <==> Receives(w, id)
  {
    hide SendItem, Enqueue, Apply, ChannelStep;
    SendingKeepsReceiver(w.chans[ptr], op.ptr, op.item, Quiet);
  }

  lemma CallKeepsReceiver(w: World, ptr: Ptr, op: ChannelOp, id: nat)
    requires Agreed(w) && ptr in w.chans && Allowed(w.chans[ptr], op) && ByOthers(op, w.s.self)
    ensures Ready(w.s.d) && (Receives(ForeignNext(w, ptr, op), id) <==> Receives(w, id))
  {
    hide Core, AllConserved, Apply, SendItem, ChannelData, ChannelStep, Good, Arrives, Allowed;
    CoreHasTables(w);
    SelfIsSomebody(w.s);
    var c := w.chans[ptr];
    if Arrives(w, ptr, op) {
      ArrivalKeepsReceiver(w, ptr, op, id);
    } else {
      ChannelsAreGood(w, ptr);
      OthersLeaveMeAlone(c, op, w.s.self);
      StepChanges(w, ptr, Apply(c, op));
      SameForKeepsReceiver(w, ChannelStep(w, ptr, Apply(c, op)), ptr, Apply(c, op), id);
    }
  }

  lemma SameForKeepsReceiver(w: World, next: World, ptr: Ptr, after: Channel, id: nat)
    requires ptr in w.chans && SameFor(w.s.self, w.chans[ptr], after)
    requires SameChannels(w.s, next.s) && next.chans == w.chans[ptr := after]
    ensures Receives(next, id) <==> Receives(w, id)
  {
    hide AcceptedFrom;
  }

  lemma ChannelsAreGood(w: World, ptr: Ptr)
    requires Core(w, {}, 0) && ptr in w.chans
    ensures Good(w.chans[ptr])
  {
  }

  lemma StepChanges(w: World, ptr: Ptr, after: Channel)
    requires Ready(w.s.d) && ptr in w.chans
    ensures var next := ChannelStep(w, ptr, after);
      SameChannels(w.s, next.s) && next.chans == w.chans[ptr := after] && next.s.self == w.s.self
  {
  }

  lemma CalmKeepsReceivers(w: World, next: World, id: nat)
    requires Calm(w, next)
    ensures Receives(next, id) <==> Receives(w, id)
  {
    hide TellsFlow, OnlyTold;
  }

  lemma MessageKeepsReceiver(w: World, to: nat, serial: nat, item: EventData, reaction: Reaction, id: nat)
    requires Agreed(w)
    ensures Known(w) && (Receives(ClientData(w, to, serial, item, reaction), id) <==> Receives(w, id))
  {
    hide Core, AllConserved, Calm, Handle, NoteIncoming, Release;
    assert Known(w) by { CoreIsKnown(w, {}, 0); }
    if to in w.s.active && !w.s.active[to].out {
      ClientDataCalm(w, to, serial, item, reaction);
      CalmKeepsReceivers(
        Receive(w, to, serial, item), Spared(ClientData(w, to, serial, item, reaction), w.s.d.needDisconnect), id);
    }
  }

  lemma CloseKeepsReceiver(w: World, closed: nat, id: nat)
    requires Agreed(w)
    ensures Known(w) && (Receives(RequestClose(w, closed), id) <==> Receives(w, id))
  {
    hide Core, AllConserved, ChannelStep, Calm;
    assert Known(w) by { CoreIsKnown(w, {}, 0); }
    if closed in w.s.active {
      StepCalm(w, w.s.active[closed].ptr, Close(w.chans[w.s.active[closed].ptr]));
      CalmKeepsReceivers(w, RequestClose(w, closed), id);
    }
  }

  /** A service may let the channel go; otherwise the receiver stays. */
  lemma ServiceKeepsReceiver(w: World, reactions: seq<seq<Reaction>>, codes: seq<SendCode>, id: nat)
    requires Agreed(w)
    ensures Known(w)
    ensures var next := ProcessPending(w, reactions, codes).0;
      id in next.s.active ==> id in w.s.active && (Receives(next, id) <==> Receives(w, id))
  {
    hide Core, AllConserved, ProcessUnblocked, ProcessDeletes, SendPhase, TellsFlow;
    assert Known(w) by { CoreIsKnown(w, {}, 0); }
    if !w.s.d.needDisconnect {
      var worked := ServiceRemains(w, reactions, codes);
    }
  }

  lemma StepChooses(f: Full, step: FullStep, maxWindow: nat, id: nat)
    requires FullInv(f, maxWindow) && FullEnabled(f, step, maxWindow) && Known(f.w)
    ensures var next := FullNext(f, step, maxWindow);
      id in next.w.s.active ==>
        (Receives(next.w, id) <==> if Gives(f, step, maxWindow, id) then IsFreeFor(f, step) else Receives(f.w, id))
  {
    hide Agreed, Inv, ProcessPending, ClientData, AddChannel, RequestClose, ForeignNext, Next, Receives;
    match step
    case ChannelCreated(ptr, kind) => CreationKeepsReceiver(f.w, ptr, kind, id);
    case ChannelAdded(ptr, out) => AddingChooses(f, ptr, out, maxWindow, id);
    case ChannelCalled(ptr, op) =>
      CallKeepsReceiver(f.w, ptr, op, id);
      CallKeepsIds(f.w, ptr, op);
    case MessageArrived(to, serial, item, reaction) =>
      MessageKeepsReceiver(f.w, to, serial, item, reaction, id);
      MessageSteady(f.w, to, serial, item, reaction);
    case CloseRequested(closed) =>
      CloseKeepsReceiver(f.w, closed, id);
      CloseKeepsIds(f.w, closed);
    case Serviced(reactions, codes) => ServiceKeepsReceiver(f.w, reactions, codes, id);
    case Delivered(inner) => DeliveryKeepsReceiver(f.w, Next(SystemOf(f), inner, maxWindow).d, id);
  }

  lemma CreationKeepsReceiver(w: World, ptr: Ptr, kind: Kind, id: nat)
    requires Known(w) && ptr !in w.chans
    ensures Receives(w.(chans := w.chans[ptr := NewChannel(kind)]), id) <==> Receives(w, id)
  {
  }

  lemma DeliveryKeepsReceiver(w: World, d: State, id: nat)
    ensures Receives(w.(s := w.s.(d := d)), id) <==> Receives(w, id)
  {
  }

  lemma CallKeepsIds(w: World, ptr: Ptr, op: ChannelOp)
    requires Ready(w.s.d) && ptr in w.chans && Allowed(w.chans[ptr], op)
    ensures ForeignNext(w, ptr, op).s.active.Keys == w.s.active.Keys
  {
    hide ChannelStep, ChannelData, Apply, SendItem;
  }

  lemma CloseKeepsIds(w: World, closed: nat)
    requires Known(w)
    ensures RequestClose(w, closed).s.active.Keys == w.s.active.Keys
  {
    hide ChannelStep, Close;
  }

  lemma {:induction false} RunChooses(f: Full, steps: seq<FullStep>, maxWindow: nat, id: nat, chosen: bool)
    requires FullInv(f, maxWindow) && FullLegal(f, steps, maxWindow)
    requires id in f.w.s.active ==> (Receives(f.w, id) <==> chosen)
    ensures var w := FullRun(f, steps, maxWindow).w;
      id in w.s.active ==> (Receives(w, id) <==> Chosen(f, steps, maxWindow, id, chosen))
    decreases steps
  {
    hide FullInv, FullNext, FullEnabled, Known, Receives, IsFreeFor;
    if steps != [] {
      var next := FullNext(f, steps[0], maxWindow);
      FullStepKeeps(f, steps[0], maxWindow);
      StepChooses(f, steps[0], maxWindow, id);
      RunChooses(next, steps[1..], maxWindow, id,
                 if Gives(f, steps[0], maxWindow, id) then IsFreeFor(f, steps[0]) else chosen);
    }
  }

  /** In every run the session receives from a channel it works on if and only if the channel leads to the client and
      had no receiver when it was added: nobody takes that from it, and it is not given later. */
  lemma ReceiverStays(self: Ptr, modulus: nat, window: nat, maxChannels: nat, maxWindow: nat, steps: seq<FullStep>,
                      id: nat)
    requires IsRun(self, modulus, window, maxChannels, maxWindow, steps)
    ensures var start := FullStart(self, modulus, window, maxChannels);
      var w := FullRun(start, steps, maxWindow).w;
      id in w.s.active ==> (Receives(w, id) <==> Chosen(start, steps, maxWindow, id, false))
  {
    hide FullInv, FullLegal, FullRun, Chosen, Receives;
    StartIsFull(self, modulus, window, maxChannels, maxWindow);
    RunChooses(FullStart(self, modulus, window, maxChannels), steps, maxWindow, id, false);
  }
}
