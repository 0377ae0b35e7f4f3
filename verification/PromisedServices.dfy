/** A session that owes its client a greeting, an acknowledgement or a disconnect has asked for the service that
    settles it: what holds in every run, and the exact steps that lose an acknowledgement or a disconnect. */
module PromisedServices {
  import opened Basics
  import opened RouterEvents
  import opened Serials
  import opened Delivery
  import opened DeliveryProtocol
  import opened DeliveryTheorems
  import opened SendForms
  import opened Channels
  import opened Sessions
  import opened SessionInvariant
  import opened SessionSteps
  import opened SessionService
  import opened SessionHosting
  import opened SessionEffects
  import opened SessionRuns
  import opened SessionTheorems
  import opened Acknowledgements
  import opened ClientStanding

  /** A new connection is going to be greeted. */
  predicate GreetsAwake(d: State) {
    d.needHandleReconnect && !d.needDisconnect ==> d.requested
  }

  /** What came from the client is going to be acknowledged, when nothing stands in the way. */
  predicate ConfirmsAwake(d: State) {
    d.needsIncomingAck && !d.blocked && !d.waitReconnect && !d.needDisconnect ==> d.requested
  }

  /** A client that broke the rules is going to be disconnected. */
  predicate CutsAwake(d: State) {
    d.needDisconnect && d.connected ==> d.requested
  }

  /** `client_unblocked` asks for service only for the sake of queued events: an acknowledgement that came due while
      the client was blocked is forgotten. */
  predicate ForgetsAck(d: State, step: FullStep) {
    && step == Delivered(ConnectionUnblocks)
    && d.needsIncomingAck && d.outgoing == [] && !d.requested && !d.waitReconnect && !d.needDisconnect
  }

  /** Of the two kinds of messages only text asks for the service that disconnects, and others do not ask while the
      client is blocked. */
  predicate ForgetsCut(s: Session, step: FullStep) {
    && step.MessageArrived? && Overflows(s, step.id) && !step.item.Text?
    && s.d.blocked && !s.d.requested && !s.d.needDisconnect && s.d.connected
  }

  /** The greeting is kept in mind; the others are unless the step forgets them. */
  predicate Promises(s: Session, d: State, step: FullStep) {
    && GreetsAwake(d)
    && (ConfirmsAwake(s.d) ==> (ConfirmsAwake(d) <==> !ForgetsAck(s.d, step)))
    && (CutsAwake(s.d) ==> (CutsAwake(d) <==> !ForgetsCut(s, step)))
  }

  // ----- Each step -----

  lemma TellingPromises(s: Session, d: State, step: FullStep)
    requires OnlyTold(s.d, d) && (s.d.requested ==> d.requested) && GreetsAwake(s.d)
    requires !step.MessageArrived? && !step.Delivered?
    ensures Promises(s, d, step)
  {
  }

  lemma ArrivalPromises(w: World, step: FullStep)
    requires Agreed(w) && step.MessageArrived? && GreetsAwake(w.s.d)
    ensures Known(w)
    ensures Promises(w.s, ClientData(w, step.id, step.serial, step.item, step.reaction).s.d, step)
  {
    hide Core, AllConserved, ClientData, BreaksRules, Overflows, Hosted;
    assert Known(w) by { CoreIsKnown(w, {}, 0); }
    var d := w.s.d;
    ArrivalCuts(w, step.id, step.serial, step.item, step.reaction);
    ArrivalLeavesConnected(w, step.id, step.serial, step.item, step.reaction);
    ArrivalNotes(w, step.id, step.serial, step.item, step.reaction,
                 Notes(d.incomingSerAck, d.needsIncomingAck, d.needHandleReconnect, d.waitReconnect));
    ClientDataIsHosted(w, step.id, step.serial, step.item, step.reaction);
    assert Overflows(w.s, step.id) ==> IsTaken(w.s, step.id) && BreaksRules(w, step.id, step.item) by {
      OverflowIsTaken(w, step.id, step.item);
    }
  }

  lemma OverflowIsTaken(w: World, id: nat, item: EventData)
    requires Known(w)
    ensures Overflows(w.s, id) ==> IsTaken(w.s, id) && BreaksRules(w, id, item)
  {
  }

  lemma SendPhasePromises(d: State, codes: seq<SendCode>)
    requires !d.needDisconnect && (d.needHandleReconnect ==> d.waitReconnect)
    ensures var next := SendPhase(d, codes).0; GreetsAwake(next) && ConfirmsAwake(next) && CutsAwake(next)
  {
    hide FirstOther, SendLoop, CodeAt, Accepted;
    SendPhaseNotes(d, codes, Notes(d.incomingSerAck, d.needsIncomingAck, d.needHandleReconnect, d.waitReconnect));
    if !d.needHandleReconnect && !d.waitReconnect && !d.blocked {
      SendPhaseIs(d, codes);
    }
  }

  lemma ServicePromises(f: Full, step: FullStep, maxWindow: nat)
    requires FullInv(f, maxWindow) && Known(f.w) && step.Serviced?
    ensures Promises(f.w.s, ProcessPending(f.w, step.reactions, step.codes).0.s.d, step)
  {
    hide Agreed, SendPhase, Remains, ProcessUnblocked, ProcessDeletes, AcksInFlight, TwoCursor;
    if !f.w.s.d.needDisconnect {
      var worked := ServiceRemains(f.w, step.reactions, step.codes);
      SendPhasePromises(worked, step.codes);
    }
  }

  lemma ReplyPromises(f: Full, step: FullStep, maxWindow: nat)
    requires FullInv(f, maxWindow) && f.net.up != [] && GreetsAwake(f.w.s.d) && step == Delivered(SessionReceives)
    ensures Promises(f.w.s, SessionTakes(SystemOf(f)).d, step)
  {
    hide Agreed, Inv, Acknowledge, AcknowledgeReconnect, SessionTakes;
    ReplyIsExpected(SystemOf(f), maxWindow);
    ReplyLeavesConnected(SystemOf(f));
    ReplyAsks(SystemOf(f));
  }

  lemma AcknowledgingLeavesFlags(d: State, serial: nat)
    ensures var next := Acknowledge(d, serial);
      && next.needsIncomingAck == d.needsIncomingAck && next.needHandleReconnect == d.needHandleReconnect
      && next.waitReconnect == d.waitReconnect && next.blocked == d.blocked
  {
    hide FindSerial;
  }

  lemma ReplyAsks(s: System)
    requires s.net.up != []
    ensures var d := SessionTakes(s).d;
      && d.needsIncomingAck == s.d.needsIncomingAck && d.needHandleReconnect == s.d.needHandleReconnect
      && d.blocked == s.d.blocked && (d.requested || d.waitReconnect == s.d.waitReconnect)
  {
    hide Acknowledge;
    AcknowledgingLeavesFlags(s.d, s.net.up[0].serial);
    AcknowledgingLeavesFlags(s.d.(waitReconnect := false), s.net.up[0].serial);
  }

  /** The delivery half is the same. */
  lemma SilencePromises(s: Session, step: FullStep)
    requires GreetsAwake(s.d) && step.Delivered? && step != Delivered(ConnectionUnblocks)
    ensures Promises(s, s.d, step)
  {
  }

  lemma UnblockingPromises(s: Session)
    requires GreetsAwake(s.d)
    ensures Promises(s, Unblocked(s.d), Delivered(ConnectionUnblocks))
  {
  }

  lemma FlagPromises(s: Session, step: FullStep, window: nat)
    requires GreetsAwake(s.d) && step.Delivered? && step != Delivered(ConnectionUnblocks)
    ensures Promises(s, Disconnected(s.d), step) && Promises(s, MarkDisconnect(s.d), step)
    ensures Promises(s, SetConnection(s.d, window), step)
  {
  }

  lemma DeliveryPromises(f: Full, step: FullStep, maxWindow: nat)
    requires FullInv(f, maxWindow) && FullEnabled(f, step, maxWindow) && Known(f.w) && step.Delivered?
    requires GreetsAwake(f.w.s.d)
    ensures Promises(f.w.s, Next(SystemOf(f), step.step, maxWindow).d, step)
  {
    hide FullInv, SessionTakes, Known, Promises, GreetsAwake, Unblocked, Disconnected, MarkDisconnect, SetConnection;
    match step.step
    case SessionReceives => ReplyPromises(f, step, maxWindow);
    case ConnectionUnblocks => UnblockingPromises(f.w.s);
    case SessionToldOfLoss => FlagPromises(f.w.s, step, 0);
    case DisconnectRequested => FlagPromises(f.w.s, step, 0);
    case Reconnects(window) => FlagPromises(f.w.s, step, window);
    case _ => SilencePromises(f.w.s, step);
  }

  lemma StepPromises(f: Full, step: FullStep, maxWindow: nat)
    requires FullInv(f, maxWindow) && FullEnabled(f, step, maxWindow) && Known(f.w) && GreetsAwake(f.w.s.d)
    ensures Promises(f.w.s, FullNext(f, step, maxWindow).w.s.d, step)
  {
    hide Core, AllConserved, Inv, ProcessPending, ClientData, Known, FullNext, Promises, Hosted, OnlyTold;
    StepIs(f, step, maxWindow);
    match step
    case MessageArrived(id, serial, item, reaction) => ArrivalPromises(f.w, step);
    case Serviced(reactions, codes) => ServicePromises(f, step, maxWindow);
    case Delivered(inner) => DeliveryPromises(f, step, maxWindow);
    case _ =>
      ChannelStepsStand(f, step, maxWindow);
      ChannelStepsAreHosted(f, step, maxWindow);
      TellingPromises(f.w.s, FullNext(f, step, maxWindow).w.s.d, step);
  }

  // ----- Runs -----

  /** In every state of the run what is owed has been asked for. */
  ghost predicate AlwaysPromised(f: Full, steps: seq<FullStep>, maxWindow: nat)
    requires FullLegal(f, steps, maxWindow)
    decreases steps
  {
    && ConfirmsAwake(f.w.s.d) && CutsAwake(f.w.s.d)
    && (steps == [] || AlwaysPromised(FullNext(f, steps[0], maxWindow), steps[1..], maxWindow))
  }

  ghost predicate NothingForgotten(f: Full, steps: seq<FullStep>, maxWindow: nat)
    requires FullLegal(f, steps, maxWindow)
    decreases steps
  {
    steps == [] ||
    (!ForgetsAck(f.w.s.d, steps[0]) && !ForgetsCut(f.w.s, steps[0])
     && NothingForgotten(FullNext(f, steps[0], maxWindow), steps[1..], maxWindow))
  }

  lemma NotAlwaysPromised(f: Full, steps: seq<FullStep>, maxWindow: nat)
    requires FullLegal(f, steps, maxWindow) && !(ConfirmsAwake(f.w.s.d) && CutsAwake(f.w.s.d))
    ensures !AlwaysPromised(f, steps, maxWindow)
  {
    hide FullNext, FullEnabled, Known, FullLegal;
  }

  lemma {:induction false} RunPromises(f: Full, steps: seq<FullStep>, maxWindow: nat)
    requires FullInv(f, maxWindow) && FullLegal(f, steps, maxWindow) && GreetsAwake(f.w.s.d)
    ensures GreetsAwake(FullRun(f, steps, maxWindow).w.s.d)
    ensures ConfirmsAwake(f.w.s.d) && CutsAwake(f.w.s.d) ==>
      (AlwaysPromised(f, steps, maxWindow) <==> NothingForgotten(f, steps, maxWindow))
    decreases steps
  {
    hide FullInv, FullNext, FullEnabled, Known, GreetsAwake, ConfirmsAwake, CutsAwake, ForgetsAck, ForgetsCut;
    if steps != [] {
      var next := FullNext(f, steps[0], maxWindow);
      FullStepKeeps(f, steps[0], maxWindow);
      StepPromises(f, steps[0], maxWindow);
      RunPromises(next, steps[1..], maxWindow);
      if !(ConfirmsAwake(next.w.s.d) && CutsAwake(next.w.s.d)) { NotAlwaysPromised(next, steps[1..], maxWindow); }
    }
  }

  /** In every state of every run a connection that is to be greeted is going to be; and acknowledgements that can go
      out and disconnects that are due are, in every state of the run, exactly if no step of it forgets one. */
  lemma NothingOwedIsForgotten(self: Ptr, modulus: nat, window: nat, maxChannels: nat, maxWindow: nat,
                               steps: seq<FullStep>)
    requires IsRun(self, modulus, window, maxChannels, maxWindow, steps)
    ensures GreetsAwake(FullRun(FullStart(self, modulus, window, maxChannels), steps, maxWindow).w.s.d)
    ensures AlwaysPromised(FullStart(self, modulus, window, maxChannels), steps, maxWindow)
      <==> NothingForgotten(FullStart(self, modulus, window, maxChannels), steps, maxWindow)
  {
    hide FullInv, FullLegal, FullRun, AlwaysPromised, NothingForgotten;
    StartIsFull(self, modulus, window, maxChannels, maxWindow);
    RunPromises(FullStart(self, modulus, window, maxChannels), steps, maxWindow);
  }
}
