/** What the session tells the client about the client's own messages: over every run, exactly when an
    acknowledgement goes out and which serial it carries. */
module Acknowledgements {
  import opened Basics
  import opened RouterEvents
  import opened Serials
  import opened Delivery
  import opened DeliveryProtocol
  import opened DeliveryTheorems
  import opened SendForms
  import opened Channels
  import opened Sessions
  import opened SessionInvariant
  import opened SessionSteps
  import opened SessionService
  import opened SessionHosting
  import opened SessionEffects
  import opened SessionRuns
  import opened SessionTheorems

  /** Read off the steps of a run: the serial of the last message the session took from the client, 0 before the
      first; whether one came that no service has confirmed on the present connection; whether the present
      connection has been greeted; and whether the client has answered. */
  datatype Notes = Notes(serial: nat, owing: bool, greeting: bool, awaiting: bool)

  const NOTHING_YET := Notes(0, false, false, false)

  /** A message is taken on a channel the session works on that does not lead to the client. */
  predicate IsTaken(s: Session, id: nat) {
    id in s.active && !s.active[id].out
  }

  /** The next thing the session hears is the answer to its greeting. */
  predicate Answers(f: Full) {
    f.net.up != [] && f.net.up[0].ReplyReconnect?
  }

  /** A service confirms what came unless it disconnects, the client has not answered the greeting, or the client
      is blocked; the greeting confirms too. */
  function NotesAfter(f: Full, step: FullStep, n: Notes): Notes {
    match step
    case MessageArrived(id, serial, _, _) =>
      if IsTaken(f.w.s, id) then n.(serial := serial, owing := true) else n
    case Serviced(_, _) =>
      if f.w.s.d.needDisconnect then n
      else if n.greeting then n.(owing := false, greeting := false)
      else if n.awaiting || f.w.s.d.blocked then n
      else n.(owing := false)
    case Delivered(Reconnects(_)) => Notes(n.serial, false, true, true)
    case Delivered(SessionReceives) => if Answers(f) then n.(awaiting := false) else n
    case _ => n
  }

  ghost function NotesOver(f: Full, steps: seq<FullStep>, maxWindow: nat, n: Notes): Notes
    requires FullLegal(f, steps, maxWindow)
    decreases steps
  {
    if steps == [] then n
    else NotesOver(FullNext(f, steps[0], maxWindow), steps[1..], maxWindow, NotesAfter(f, steps[0], n))
  }

  predicate Noted(d: State, n: Notes) {
    && d.incomingSerAck == n.serial && d.needsIncomingAck == n.owing
    && d.needHandleReconnect == n.greeting && d.waitReconnect == n.awaiting
  }

  // ----- Each step -----

  lemma TellingKeepsNotes(d: State, next: State, n: Notes)
    requires OnlyTold(d, next) && Noted(d, n)
    ensures Noted(next, n)
  {
  }

  lemma CalmKeepsNotes(s: Session, t: Session, n: Notes)
    requires Steady(s, t) && Noted(s.d, n)
    ensures Noted(t.d, n)
  {
  }

  lemma EnqueueTells(d: State, channelId: nat, data: EventData)
    requires Ready(d)
    ensures var next := Enqueue(d, channelId, data); OnlyTold(d, next) && OnlyTold(d, RequestUnlessBlocked(next)) && Ready(next)
  {
    hide NextSerial;
  }

  lemma AnnounceTells(d: State, id: nat, out: bool, blocked: bool)
    requires Ready(d)
    ensures OnlyTold(d, Announce(d, id, out, blocked))
  {
    hide Enqueue, OnlyTold;
    var opening := Status(StatusChange(StatusOpen, out, id));
    EnqueueTells(d, 0, opening);
    var announced := RequestUnlessBlocked(Enqueue(d, 0, opening));
    EnqueueTells(announced, 0, Status(StatusChange(if blocked then StatusBlock else StatusUnblock, out, id)));
    ToldTwice(d, announced, Announce(d, id, out, blocked));
  }

  lemma DataTells(s: Session, ptr: Ptr, item: EventData)
    requires Ready(s.d)
    ensures OnlyTold(s.d, ChannelData(s, ptr, item).d)
  {
    hide Enqueue, IdOf;
    EnqueueTells(s.d, IdOf(s, ptr), item);
  }

  lemma ChannelStepsNote(f: Full, step: FullStep, maxWindow: nat, n: Notes)
    requires FullInv(f, maxWindow) && FullEnabled(f, step, maxWindow) && Known(f.w) && Noted(f.w.s.d, n)
    requires !step.Serviced? && !step.Delivered? && !step.MessageArrived?
    ensures Noted(FullNext(f, step, maxWindow).w.s.d, n)
  {
    hide Agreed, Inv, ChannelStep, Announce, Apply, Known, ChannelData, Enqueue, Register, OnlyTold, Steady, Noted, SendItem;
    KnownIsReady(f.w);
    match step
    case ChannelCreated(ptr, kind) =>
    case ChannelAdded(ptr, out) =>
      var id, next := AddChannel(f.w, ptr, out).s.lastChannelId, AddChannel(f.w, ptr, out);
      AnnounceTells(f.w.s.d, id, out, !out && f.w.chans[ptr].blocked);
      TellingKeepsNotes(f.w.s.d, next.s.d, n);
    case ChannelCalled(ptr, op) =>
      if Arrives(f.w, ptr, op) {
        DataTells(f.w.s, ptr, op.item);
        TellingKeepsNotes(f.w.s.d, ChannelData(f.w.s, ptr, op.item).d, n);
      } else {
        StepSteady(f.w, ptr, Apply(f.w.chans[ptr], op));
        CalmKeepsNotes(f.w.s, FullNext(f, step, maxWindow).w.s, n);
      }
    case CloseRequested(id) =>
      if id in f.w.s.active {
        KnownAt(f.w, id);
        StepSteady(f.w, f.w.s.active[id].ptr, Close(f.w.chans[f.w.s.active[id].ptr]));
        CalmKeepsNotes(f.w.s, FullNext(f, step, maxWindow).w.s, n);
      }
  }

  lemma ReceivedNotes(w: World, id: nat, serial: nat, item: EventData, n: Notes)
    requires id in w.s.active && w.s.active[id].ptr in w.chans && Noted(w.s.d, n)
    ensures Noted(Receive(w, id, serial, item).s.d, n.(serial := serial, owing := true))
  {
    hide Receive;
    ReceivingNotes(w, id, serial, item);
  }

  lemma SparedNotes(w: World, flag: bool, n: Notes)
    requires Noted(Spared(w, flag).s.d, n)
    ensures Noted(w.s.d, n)
  {
  }

  lemma CalmWorldKeepsNotes(w: World, next: World, n: Notes)
    requires Calm(w, next) && Noted(w.s.d, n)
    ensures Noted(next.s.d, n)
  {
    hide Steady, Noted;
    CalmKeepsNotes(w.s, next.s, n);
  }

  lemma ArrivalNotes(w: World, id: nat, serial: nat, item: EventData, reaction: Reaction, n: Notes)
    requires Agreed(w) && Noted(w.s.d, n)
    ensures Known(w)
    ensures Noted(ClientData(w, id, serial, item, reaction).s.d,
                  if IsTaken(w.s, id) then n.(serial := serial, owing := true) else n)
  {
    hide Core, AllConserved, Receive, Noted, ClientData, Calm, Spared;
    assert Known(w) by { CoreIsKnown(w, {}, 0); }
    if IsTaken(w.s, id) {
      var next, flag, m := ClientData(w, id, serial, item, reaction), w.s.d.needDisconnect, n.(serial := serial, owing := true);
      ClientDataCalm(w, id, serial, item, reaction);
      ReceivedNotes(w, id, serial, item, n);
      CalmWorldKeepsNotes(Receive(w, id, serial, item), Spared(next, flag), m);
      SparedNotes(next, flag, m);
    } else {
      NotTaken(w, id, serial, item, reaction, n);
    }
  }

  lemma NotTaken(w: World, id: nat, serial: nat, item: EventData, reaction: Reaction, n: Notes)
    requires Known(w) && Noted(w.s.d, n) && !IsTaken(w.s, id)
    ensures Noted(ClientData(w, id, serial, item, reaction).s.d, n)
  {
  }

  lemma SendPhaseNotes(d: State, codes: seq<SendCode>, n: Notes)
    requires Noted(d, n)
    ensures Noted(SendPhase(d, codes).0,
                  if n.greeting then n.(owing := false, greeting := false, awaiting := true)
                  else if n.awaiting || d.blocked then n
                  else n.(owing := false))
  {
    hide SendLoop;
    var t := AfterSend(d.(needsIncomingAck := false), CodeAt(codes, 0));
    SendLoopLeavesPhases(t, codes, 1);
    SendLoopLeavesPhases(d, codes, 0);
    SendLoopLeavesNotes(t, codes, 1);
    SendLoopLeavesNotes(d, codes, 0);
  }

  lemma {:induction false} SendLoopLeavesPhases(d: State, codes: seq<SendCode>, k: nat)
    ensures var next := SendLoop(d, codes, k).0;
      next.waitReconnect == d.waitReconnect && next.needHandleReconnect == d.needHandleReconnect
    decreases |d.outgoing|, !d.blocked
  {
    if KeepsSending(d) { SendLoopLeavesPhases(SendOne(d, CodeAt(codes, k)).0, codes, k + 1); }
  }

  lemma ServiceNotes(f: Full, reactions: seq<seq<Reaction>>, codes: seq<SendCode>, maxWindow: nat, n: Notes)
    requires FullInv(f, maxWindow) && Known(f.w) && Noted(f.w.s.d, n)
    ensures Noted(ProcessPending(f.w, reactions, codes).0.s.d, NotesAfter(f, Serviced(reactions, codes), n))
  {
    hide Agreed, SendPhase, Remains, ProcessUnblocked, ProcessDeletes;
    if !f.w.s.d.needDisconnect {
      assert n.greeting ==> n.awaiting;
      var worked := ServiceRemains(f.w, reactions, codes);
      TellingKeepsNotes(f.w.s.d, worked, n);
      SendPhaseNotes(worked, codes, n);
    }
  }

  lemma AcknowledgingNotes(d: State, serial: nat, n: Notes)
    requires Noted(d, n)
    ensures Noted(Acknowledge(d, serial), n)
  {
    hide FindSerial;
  }

  lemma AnsweringNotes(d: State, serial: nat, n: Notes)
    requires Noted(d, n) && d.waitReconnect
    ensures Noted(AcknowledgeReconnect(d, serial), n.(awaiting := false))
  {
    hide Acknowledge;
    AcknowledgingNotes(d.(waitReconnect := false), serial, n.(awaiting := false));
  }

  lemma DeliveryNotes(f: Full, inner: Step, maxWindow: nat, n: Notes)
    requires FullInv(f, maxWindow) && FullEnabled(f, Delivered(inner), maxWindow) && Known(f.w) && Noted(f.w.s.d, n)
    ensures Noted(Next(SystemOf(f), inner, maxWindow).d, NotesAfter(f, Delivered(inner), n))
  {
    hide Agreed, Acknowledge, AcknowledgeReconnect, TwoCursor, AcksInFlight;
    if inner.SessionReceives? {
      if f.net.up[0].ReplyAck? {
        AcknowledgingNotes(f.w.s.d, f.net.up[0].serial, n);
      } else {
        ReconnectIsExpected(SystemOf(f), maxWindow);
        AnsweringNotes(f.w.s.d, f.net.up[0].serial, n);
      }
    }
  }

  lemma StepNotes(f: Full, step: FullStep, maxWindow: nat, n: Notes)
    requires FullInv(f, maxWindow) && FullEnabled(f, step, maxWindow) && Known(f.w) && Noted(f.w.s.d, n)
    ensures Noted(FullNext(f, step, maxWindow).w.s.d, NotesAfter(f, step, n))
  {
    hide Core, AllConserved, Inv, ProcessPending, ClientData, Noted, Known, FullNext;
    match step
    case MessageArrived(id, serial, item, reaction) => ArrivalNotes(f.w, id, serial, item, reaction, n);
      StepIs(f, step, maxWindow);
    case Serviced(reactions, codes) => ServiceNotes(f, reactions, codes, maxWindow, n);
      StepIs(f, step, maxWindow);
    case Delivered(inner) => DeliveryNotes(f, inner, maxWindow, n);
      StepIs(f, step, maxWindow);
    case _ => ChannelStepsNote(f, step, maxWindow, n);
  }

  lemma StepIs(f: Full, step: FullStep, maxWindow: nat)
    requires FullEnabled(f, step, maxWindow) && Known(f.w)
    ensures match step
      case MessageArrived(id, serial, item, reaction) =>
        FullNext(f, step, maxWindow).w == ClientData(f.w, id, serial, item, reaction)
      case Serviced(reactions, codes) =>
        FullNext(f, step, maxWindow).w == ProcessPending(f.w, reactions, codes).0
      case Delivered(inner) =>
        FullNext(f, step, maxWindow).w.s == f.w.s.(d := Next(SystemOf(f), inner, maxWindow).d)
        && FullNext(f, step, maxWindow).w.chans == f.w.chans
      case _ => true
  {
  }

  lemma {:induction false} RunNotes(f: Full, steps: seq<FullStep>, maxWindow: nat, n: Notes)
    requires FullInv(f, maxWindow) && FullLegal(f, steps, maxWindow) && Noted(f.w.s.d, n)
    ensures Noted(FullRun(f, steps, maxWindow).w.s.d, NotesOver(f, steps, maxWindow, n))
    ensures FullInv(FullRun(f, steps, maxWindow), maxWindow)
    decreases steps
  {
    hide FullInv, FullNext, FullEnabled, Known, Noted, NotesAfter;
    if steps != [] {
      FullStepKeeps(f, steps[0], maxWindow);
      StepNotes(f, steps[0], maxWindow, n);
      RunNotes(FullNext(f, steps[0], maxWindow), steps[1..], maxWindow, NotesAfter(f, steps[0], n));
    }
  }

  // ----- What a service confirms -----

  /** What is to be told of the client's messages, by what happened so far; nothing when the connection refuses. */
  function Confirmation(d: State, n: Notes, codes: seq<SendCode>): seq<Wire> {
    if d.needDisconnect || !Accepted(CodeAt(codes, 0)) then []
    else if n.greeting then [WireReconnect(n.serial)]
    else if n.owing && !n.awaiting && !d.blocked then [WireAck(n.serial)]
    else []
  }

  predicate OnlyData(wire: seq<Wire>) {
    forall i :: 0 <= i < |wire| ==> wire[i].WireData?
  }

  lemma SendPhaseConfirms(d: State, codes: seq<SendCode>, n: Notes)
    requires Noted(d, n) && !d.needDisconnect && (n.greeting ==> n.awaiting)
    ensures var wire, told := SendPhase(d, codes).1, Confirmation(d, n, codes);
      told <= wire && OnlyData(wire[|told|..])
  {
    hide SendLoop, FirstOther;
    if !d.needHandleReconnect && !d.waitReconnect && !d.blocked {
      SendPhaseIs(d, codes);
    }
  }

  /** Over every run, whatever the channels and the connection did: a service first puts on the wire what is owed to
      the client about its own messages, exactly then and with the serial of the last one that was taken, and after
      that nothing but events. */
  lemma ServiceConfirms(self: Ptr, modulus: nat, window: nat, maxChannels: nat, maxWindow: nat, steps: seq<FullStep>,
                        reactions: seq<seq<Reaction>>, codes: seq<SendCode>)
    requires IsRun(self, modulus, window, maxChannels, maxWindow, steps)
    ensures var start := FullStart(self, modulus, window, maxChannels);
      var f, n := FullRun(start, steps, maxWindow), NotesOver(start, steps, maxWindow, NOTHING_YET);
      && Known(f.w)
      && var wire, told := ProcessPending(f.w, reactions, codes).1, Confirmation(f.w.s.d, n, codes);
      && told <= wire && OnlyData(wire[|told|..])
  {
    hide FullInv, FullLegal, FullRun, FullStart, Known, NotesOver, Confirmation, ProcessPending;
    var start := FullStart(self, modulus, window, maxChannels);
    StartIsFull(self, modulus, window, maxChannels, maxWindow);
    assert Noted(start.w.s.d, NOTHING_YET) by { NothingNoted(self, modulus, window, maxChannels); }
    RunNotes(start, steps, maxWindow, NOTHING_YET);
    var f := FullRun(start, steps, maxWindow);
    InvIsKnown(f, maxWindow);
    NotedServiceConfirms(f, reactions, codes, maxWindow, NotesOver(start, steps, maxWindow, NOTHING_YET));
  }

  lemma NothingNoted(self: Ptr, modulus: nat, window: nat, maxChannels: nat)
    ensures Noted(FullStart(self, modulus, window, maxChannels).w.s.d, NOTHING_YET)
  {
  }

  lemma NotedServiceConfirms(f: Full, reactions: seq<seq<Reaction>>, codes: seq<SendCode>, maxWindow: nat, n: Notes)
    requires FullInv(f, maxWindow) && Known(f.w) && Noted(f.w.s.d, n)
    ensures var wire, told := ProcessPending(f.w, reactions, codes).1, Confirmation(f.w.s.d, n, codes);
      told <= wire && OnlyData(wire[|told|..])
  {
    hide Agreed, SendPhase, Remains, ProcessUnblocked, ProcessDeletes, AcksInFlight, TwoCursor;
    if !f.w.s.d.needDisconnect {
      assert n.greeting ==> n.awaiting;
      var worked := ServiceRemains(f.w, reactions, codes);
      TellingKeepsNotes(f.w.s.d, worked, n);
      SendPhaseConfirms(worked, codes, n);
    }
  }

  // ----- Once only -----

  /** No message is taken and no connection made. */
  ghost predicate NothingComes(f: Full, steps: seq<FullStep>, maxWindow: nat)
    requires FullLegal(f, steps, maxWindow)
    decreases steps
  {
    steps == [] ||
    (!(steps[0].MessageArrived? && IsTaken(f.w.s, steps[0].id)) && !(steps[0].Delivered? && steps[0].step.Reconnects?)
     && NothingComes(FullNext(f, steps[0], maxWindow), steps[1..], maxWindow))
  }

  lemma {:induction false} NothingNewIsOwed(f: Full, steps: seq<FullStep>, maxWindow: nat, n: Notes)
    requires FullLegal(f, steps, maxWindow) && NothingComes(f, steps, maxWindow) && !n.owing && !n.greeting
    ensures var m := NotesOver(f, steps, maxWindow, n); !m.owing && !m.greeting
    decreases steps
  {
    hide FullNext, FullEnabled, Known;
    if steps != [] {
      NothingNewIsOwed(FullNext(f, steps[0], maxWindow), steps[1..], maxWindow, NotesAfter(f, steps[0], n));
    }
  }

  /** A service that may confirm settles what was owed, whatever the connection answers: until another message comes
      or a connection is made, no service confirms anything. So an acknowledgement that is refused is lost. */
  lemma ConfirmedOnce(f: Full, service: FullStep, served: Full, steps: seq<FullStep>, last: Full,
                      reactions: seq<seq<Reaction>>, codes: seq<SendCode>, maxWindow: nat, n: Notes)
    requires FullInv(f, maxWindow) && Known(f.w) && Noted(f.w.s.d, n) && FullEnabled(f, service, maxWindow)
    requires service.Serviced? && !f.w.s.d.needDisconnect && (n.greeting || (!n.awaiting && !f.w.s.d.blocked))
    requires served == FullNext(f, service, maxWindow)
    requires FullLegal(served, steps, maxWindow) && NothingComes(served, steps, maxWindow)
    requires last == FullRun(served, steps, maxWindow)
    ensures Known(last.w) && OnlyData(ProcessPending(last.w, reactions, codes).1)
  {
    hide FullInv, FullNext, FullEnabled, Known, FullLegal, FullRun, NothingComes, NotesOver, Noted, ProcessPending;
    var m := NotesAfter(f, service, n);
    FullStepKeeps(f, service, maxWindow);
    StepNotes(f, service, maxWindow, n);
    RunNotes(served, steps, maxWindow, m);
    NothingNewIsOwed(served, steps, maxWindow, m);
    InvIsKnown(last, maxWindow);
    NotedServiceConfirms(last, reactions, codes, maxWindow, NotesOver(served, steps, maxWindow, m));
    var wire := ProcessPending(last.w, reactions, codes).1;
    assert wire[0..] == wire;
  }
}
