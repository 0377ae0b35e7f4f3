/** When a session cuts its client off, when it counts it as connected, and whether the service that does what was
    noted is on its way: over every run, from what the client, the connection and the caller did. */
module ClientStanding {
  import opened Basics
  import opened RouterEvents
  import opened Serials
  import opened Delivery
  import opened DeliveryProtocol
  import opened DeliveryTheorems
  import opened SendForms
  import opened Channels
  import opened Sessions
  import opened SessionInvariant
  import opened SessionSteps
  import opened SessionService
  import opened SessionHosting
  import opened SessionEffects
  import opened SessionRuns
  import opened SessionTheorems
  import opened Acknowledgements

  /** A message fills the window of a channel that the client was told is blocked. */
  predicate Overflows(s: Session, id: nat) {
    id in s.active && !s.active[id].out && s.active[id].blocked && |QueueOf(s, id)| + 1 >= s.d.window
  }

  /** The client breaks the rules: it sends on a channel that leads to itself, too much on a blocked channel, or
      items of the wrong kind on one it may use. */
  predicate BreaksRules(w: World, id: nat, item: EventData)
    requires Known(w)
  {
    id in w.s.active &&
    var info := w.s.active[id];
    || info.out
    || Overflows(w.s, id)
    || (!info.blocked && !info.closed && !Matches(w.chans[info.ptr].kind, item))
  }

  // ----- Messages from the client -----

  lemma QueueingCuts(s: Session, id: nat, event: RouterEvent)
    ensures var t := QueueMessage(s, id, event);
      && (t.d.needDisconnect <==> s.d.needDisconnect || |QueueOf(s, id)| + 1 >= s.d.window)
      && (t.d.requested <==> s.d.requested || (|QueueOf(s, id)| + 1 >= s.d.window && event.data.Text?))
  {
  }

  lemma TellingAsks(s: Session, id: nat, status: ChannelStatus)
    requires Ready(s.d) && id in s.active
    ensures var d := TellAndRequest(s, id, status).d;
      d.needDisconnect == s.d.needDisconnect && (s.d.blocked ==> d.requested == s.d.requested)
  {
    hide NextSerial;
  }

  /** While the client is blocked a callback asks for nothing, and it never cuts anybody off. */
  lemma CallbackAsks(s: Session, ptr: Ptr, status: Flow)
    requires Ready(s.d)
    ensures var t := FlowCall(s, ptr, status);
      t.d.needDisconnect == s.d.needDisconnect && (s.d.blocked ==> t.d.requested == s.d.requested)
  {
    hide TellAndRequest, RemoveFirst;
    var id := IdOf(s, ptr);
    if id != 0 {
      TellingAsks(s, id, StatusClose);
      var noted := s.(active := s.active[id := s.active[id].(blocked := true)],
                      pendingUnblock := RemoveFirst(s.pendingUnblock, id));
      TellingAsks(noted, id, StatusBlock);
    }
  }

  lemma StepAsks(w: World, ptr: Ptr, after: Channel)
    requires Ready(w.s.d) && ptr in w.chans
    ensures var d := ChannelStep(w, ptr, after).s.d;
      d.needDisconnect == w.s.d.needDisconnect && (w.s.d.blocked ==> d.requested == w.s.d.requested)
  {
    hide FlowCall;
    CallbackAsks(w.s, ptr, after.lastStatus);
  }

  lemma HandleCuts(w: World, id: nat, event: RouterEvent, reaction: Reaction)
    requires Known(w) && id in w.s.active && !w.s.active[id].out
    requires w.s.active[id].blocked || Accepts(w.chans[w.s.active[id].ptr]) || w.chans[w.s.active[id].ptr].closed
    ensures var d, cut := Handle(w, id, event, reaction).s.d, BreaksRules(w, id, event.data);
      && (d.needDisconnect <==> w.s.d.needDisconnect || cut)
      && (w.s.d.blocked ==>
            (d.requested <==> w.s.d.requested || (cut && !(w.s.active[id].blocked && !event.data.Text?))))
  {
    hide ChannelStep, SendItem, QueueMessage, Accepts;
    QueueingCuts(w.s, id, event);
    if !w.s.active[id].blocked && !w.s.active[id].closed && Matches(w.chans[w.s.active[id].ptr].kind, event.data) {
      OfferIsCall(w, id, event, reaction);
      StepAsks(w, w.s.active[id].ptr, SendItem(w.chans[w.s.active[id].ptr], w.s.self, event.data, reaction));
    }
  }

  /** Receiving a message changes nothing these rules look at. */
  lemma ReceivingBreaksNothing(w: World, id: nat, serial: nat, item: EventData)
    requires Known(w) && id in w.s.active && !w.s.active[id].out
    ensures var received := Receive(w, id, serial, item);
      && Known(received) && (BreaksRules(received, id, item) <==> BreaksRules(w, id, item))
      && received.s.active == w.s.active
  {
  }

  /** The client is cut off exactly for breaking the rules, and service has been asked for unless it is blocked and
      sent a message that is no text on a blocked channel. */
  lemma ArrivalCuts(w: World, id: nat, serial: nat, item: EventData, reaction: Reaction)
    requires Agreed(w)
    ensures Known(w)
    ensures var d, cut := ClientData(w, id, serial, item, reaction).s.d, BreaksRules(w, id, item);
      && (d.needDisconnect <==> w.s.d.needDisconnect || cut)
      && (w.s.d.requested || (IsTaken(w.s, id) && !w.s.d.blocked) ==> d.requested)
      && (w.s.d.blocked || !IsTaken(w.s, id) ==>
            (d.requested <==> w.s.d.requested || (cut && !(Overflows(w.s, id) && !item.Text?))))
  {
    hide Core, AllConserved, Good, Linked, Tables, Handle, Receive, TouchesOnly, Owed, BreaksRules;
    assert Known(w) by { CoreIsKnown(w, {}, 0); }
    if IsTaken(w.s, id) {
      CoreAt(w, id, {}, 0);
      ReceiveKeeps(w, id, serial, item);
      ReceivingNotes(w, id, serial, item);
      ReceivingBreaksNothing(w, id, serial, item);
      var received, event := Receive(w, id, serial, item), RouterEvent(serial, 0, item);
      CoreAt(received, id, {}, 0);
      if !received.s.active[id].blocked { OnlyClosedRefuses(received, id, {}, 0); }
      HandleCuts(received, id, event, reaction);
      HandleIsHosted(received, id, event, reaction);
      OverflowIsBreaking(w, id, item);
    } else {
      NotTakenCuts(w, id, serial, item, reaction);
    }
  }

  lemma OverflowIsBreaking(w: World, id: nat, item: EventData)
    requires Known(w) && IsTaken(w.s, id)
    ensures w.s.active[id].blocked && BreaksRules(w, id, item) <==> Overflows(w.s, id)
  {
  }

  lemma NotTakenCuts(w: World, id: nat, serial: nat, item: EventData, reaction: Reaction)
    requires Known(w) && !IsTaken(w.s, id)
    ensures var d, cut := ClientData(w, id, serial, item, reaction).s.d, BreaksRules(w, id, item);
      && (d.needDisconnect <==> w.s.d.needDisconnect || cut)
      && (d.requested <==> w.s.d.requested || cut) && !Overflows(w.s, id)
  {
  }

  // ----- The session's standing -----

  /** Read off the steps of a run: whether the client is to be cut off, and whether it counts as connected. */
  datatype Standing = Standing(cut: bool, connected: bool)

  /** The connection answered something other than SendOk, which blocked the client. */
  ghost predicate GetsBlocked(f: Full, step: FullStep, maxWindow: nat)
    requires Known(f.w) && FullEnabled(f, step, maxWindow)
  {
    step.Serviced? && !f.w.s.d.blocked && FullNext(f, step, maxWindow).w.s.d.blocked
  }

  /** A client is cut off for breaking the rules, on request, or because the connection does not support what it is
      sent; only a new connection mends that. It counts as connected from then on until the session is told
      otherwise or cuts it off. */
  ghost function StandingAfter(f: Full, step: FullStep, maxWindow: nat, st: Standing): Standing
    requires Known(f.w) && FullEnabled(f, step, maxWindow)
  {
    match step
    case MessageArrived(id, _, item, _) => st.(cut := st.cut || BreaksRules(f.w, id, item))
    case Serviced(_, codes) =>
      if st.cut then st.(connected := false)
      else if GetsBlocked(f, step, maxWindow) then
        Standing(CodeAt(codes, FirstOther(codes, 0)).SendNotSupported?,
                 st.connected && !CodeAt(codes, FirstOther(codes, 0)).SendDisconnected?)
      else st
    case Delivered(DisconnectRequested) => st.(cut := true)
    case Delivered(SessionToldOfLoss) => st.(connected := false)
    case Delivered(Reconnects(_)) => Standing(false, true)
    case _ => st
  }

  ghost function StandingOver(f: Full, steps: seq<FullStep>, maxWindow: nat, st: Standing): Standing
    requires FullLegal(f, steps, maxWindow)
    decreases steps
  {
    if steps == [] then st
    else StandingOver(FullNext(f, steps[0], maxWindow), steps[1..], maxWindow, StandingAfter(f, steps[0], maxWindow, st))
  }

  predicate Stands(d: State, st: Standing) {
    d.needDisconnect == st.cut && d.connected == st.connected
  }

  lemma TellingKeepsStanding(d: State, next: State, st: Standing)
    requires OnlyTold(d, next) && Stands(d, st)
    ensures Stands(next, st)
  {
  }

  lemma ChannelStepsStand(f: Full, step: FullStep, maxWindow: nat)
    requires FullInv(f, maxWindow) && FullEnabled(f, step, maxWindow) && Known(f.w)
    requires !step.Serviced? && !step.Delivered? && !step.MessageArrived?
    ensures OnlyTold(f.w.s.d, FullNext(f, step, maxWindow).w.s.d)
  {
    hide Agreed, Inv, ChannelStep, Announce, Apply, Known, ChannelData, Enqueue, Register, Steady, SendItem;
    KnownIsReady(f.w);
    match step
    case ChannelCreated(ptr, kind) =>
    case ChannelAdded(ptr, out) =>
      var id := AddChannel(f.w, ptr, out).s.lastChannelId;
      AnnounceTells(f.w.s.d, id, out, !out && f.w.chans[ptr].blocked);
    case ChannelCalled(ptr, op) =>
      if Arrives(f.w, ptr, op) {
        DataTells(f.w.s, ptr, op.item);
      } else {
        StepOnlyTells(f.w, ptr, Apply(f.w.chans[ptr], op));
      }
    case CloseRequested(id) =>
      if id in f.w.s.active {
        KnownAt(f.w, id);
        StepOnlyTells(f.w, f.w.s.active[id].ptr, Close(f.w.chans[f.w.s.active[id].ptr]));
      }
  }

  lemma StepOnlyTells(w: World, ptr: Ptr, after: Channel)
    requires Ready(w.s.d) && ptr in w.chans
    ensures OnlyTold(w.s.d, ChannelStep(w, ptr, after).s.d)
  {
    hide ChannelStep, TellsFlow;
    StepSteady(w, ptr, after);
  }

  /** The first answer other than SendOk that is looked at is the only one that counts. */
  lemma SendPhaseStands(d: State, codes: seq<SendCode>)
    requires !d.needDisconnect
    ensures var next, code := SendPhase(d, codes).0, CodeAt(codes, FirstOther(codes, 0));
      && (d.blocked ==> next.blocked)
      && (if !d.blocked && next.blocked then
            Stands(next, Standing(code.SendNotSupported?, d.connected && !code.SendDisconnected?))
          else Stands(next, Standing(d.needDisconnect, d.connected)))
  {
    hide FirstOther, SendLoop, CodeAt, Accepted;
    if !d.needHandleReconnect && !d.waitReconnect && !d.blocked {
      SendPhaseIs(d, codes);
    }
  }

  lemma ServiceStands(f: Full, reactions: seq<seq<Reaction>>, codes: seq<SendCode>, maxWindow: nat, st: Standing)
    requires FullInv(f, maxWindow) && Known(f.w) && Stands(f.w.s.d, st)
    requires FullEnabled(f, Serviced(reactions, codes), maxWindow)
    ensures Stands(ProcessPending(f.w, reactions, codes).0.s.d, StandingAfter(f, Serviced(reactions, codes), maxWindow, st))
  {
    hide Agreed, SendPhase, Remains, ProcessUnblocked, ProcessDeletes, FirstOther, CodeAt;
    if !f.w.s.d.needDisconnect {
      var worked := ServiceRemains(f.w, reactions, codes);
      SendPhaseStands(worked, codes);
    }
  }

  lemma ReplyStands(s: System, maxWindow: nat, st: Standing)
    requires Inv(s, maxWindow) && s.net.up != [] && Stands(s.d, st)
    ensures Stands(SessionTakes(s).d, st)
  {
    hide Inv, SessionTakes, FindSerial;
    ReplyIsExpected(s, maxWindow);
    ReplyLeavesConnected(s);
  }

  lemma DeliveryStands(f: Full, inner: Step, maxWindow: nat, st: Standing)
    requires FullInv(f, maxWindow) && FullEnabled(f, Delivered(inner), maxWindow) && Known(f.w) && Stands(f.w.s.d, st)
    ensures Stands(Next(SystemOf(f), inner, maxWindow).d, StandingAfter(f, Delivered(inner), maxWindow, st))
  {
    hide Agreed, SessionTakes, Inv, Known, GetsBlocked;
    if inner.SessionReceives? { ReplyStands(SystemOf(f), maxWindow, st); }
  }

  lemma AcknowledgingLeavesConnected(d: State, serial: nat)
    ensures Acknowledge(d, serial).connected == d.connected
  {
    hide FindSerial;
  }

  lemma ReplyLeavesConnected(s: System)
    requires s.net.up != []
    ensures SessionTakes(s).d.connected == s.d.connected && (s.d.requested ==> SessionTakes(s).d.requested)
  {
    hide FindSerial;
    AcknowledgingLeavesConnected(s.d, s.net.up[0].serial);
    AcknowledgingLeavesConnected(s.d.(waitReconnect := false), s.net.up[0].serial);
  }

  lemma ArrivalLeavesConnected(w: World, id: nat, serial: nat, item: EventData, reaction: Reaction)
    requires Agreed(w)
    ensures Known(w) && ClientData(w, id, serial, item, reaction).s.d.connected == w.s.d.connected
  {
    hide Core, AllConserved, Receive, Handle, Calm;
    assert Known(w) by { CoreIsKnown(w, {}, 0); }
    if IsTaken(w.s, id) {
      ClientDataCalm(w, id, serial, item, reaction);
      ReceivingNotes(w, id, serial, item);
      CalmOnlyTells(Receive(w, id, serial, item), Spared(ClientData(w, id, serial, item, reaction), w.s.d.needDisconnect));
    }
  }

  lemma StepStands(f: Full, step: FullStep, maxWindow: nat, st: Standing)
    requires FullInv(f, maxWindow) && FullEnabled(f, step, maxWindow) && Known(f.w) && Stands(f.w.s.d, st)
    ensures Stands(FullNext(f, step, maxWindow).w.s.d, StandingAfter(f, step, maxWindow, st))
  {
    hide Core, AllConserved, Inv, ProcessPending, ClientData, Known, FullNext, BreaksRules, FirstOther, CodeAt;
    StepIs(f, step, maxWindow);
    match step
    case MessageArrived(id, serial, item, reaction) =>
      ArrivalCuts(f.w, id, serial, item, reaction);
      ArrivalLeavesConnected(f.w, id, serial, item, reaction);
    case Serviced(reactions, codes) => ServiceStands(f, reactions, codes, maxWindow, st);
    case Delivered(inner) => DeliveryStands(f, inner, maxWindow, st);
    case _ => ChannelStepsStand(f, step, maxWindow);
  }

  lemma {:induction false} RunStands(f: Full, steps: seq<FullStep>, maxWindow: nat, st: Standing)
    requires FullInv(f, maxWindow) && FullLegal(f, steps, maxWindow) && Stands(f.w.s.d, st)
    ensures Stands(FullRun(f, steps, maxWindow).w.s.d, StandingOver(f, steps, maxWindow, st))
    decreases steps
  {
    hide FullInv, FullNext, FullEnabled, Known, Stands, StandingAfter;
    if steps != [] {
      FullStepKeeps(f, steps[0], maxWindow);
      StepStands(f, steps[0], maxWindow, st);
      RunStands(FullNext(f, steps[0], maxWindow), steps[1..], maxWindow, StandingAfter(f, steps[0], maxWindow, st));
    }
  }

  /** In every run the session means to cut its client off, and counts it as connected, exactly as the steps say. */
  lemma StandingIsEarned(self: Ptr, modulus: nat, window: nat, maxChannels: nat, maxWindow: nat, steps: seq<FullStep>)
    requires IsRun(self, modulus, window, maxChannels, maxWindow, steps)
    ensures var start := FullStart(self, modulus, window, maxChannels);
      var d, st := FullRun(start, steps, maxWindow).w.s.d, StandingOver(start, steps, maxWindow, Standing(false, true));
      d.needDisconnect == st.cut && d.connected == st.connected
  {
    hide FullInv, FullLegal, FullRun, StandingOver;
    StartIsFull(self, modulus, window, maxChannels, maxWindow);
    RunStands(FullStart(self, modulus, window, maxChannels), steps, maxWindow, Standing(false, true));
  }
}
