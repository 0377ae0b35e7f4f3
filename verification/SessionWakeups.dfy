/** A session with work to do has asked for service. What holds in every run, and the one case in which
    a wake-up is lost. */
module SessionWakeups {
  import opened Basics
  import opened RouterEvents
  import opened Delivery
  import opened DeliveryProtocol
  import opened Channels
  import opened Sessions
  import opened SessionInvariant
  import opened SessionSteps
  import opened SessionService
  import opened SessionHosting
  import opened SessionRuns

  /** Events that could be sent are going to be. */
  predicate SendsAwake(d: State) {
    KeepsSending(d) && !d.waitReconnect && !d.needHandleReconnect && !d.needDisconnect ==> d.requested
  }

  /** Closed channels are going to be let go; while the client is blocked, the closing that is queued for
      it makes sure of that. */
  predicate DeletesAwake(s: Session) {
    s.pendingDelete != [] && !s.d.needDisconnect ==> s.d.requested || (s.d.blocked && s.d.outgoing != [])
  }

  /** Backlogs that could be handed over are going to be. */
  predicate UnblocksAwake(s: Session) {
    s.pendingUnblock != [] && !s.d.needDisconnect && !s.d.blocked ==> s.d.requested
  }

  // ----- Steps on the channels -----

  /** New work was announced. */
  ghost predicate Stirred(s: Session, t: Session) {
    && Prompt(s.d, t.d) && (s.d.outgoing != [] ==> t.d.outgoing != [])
    && (t.pendingUnblock != [] ==> s.pendingUnblock != [] || t.d.requested || t.d.blocked)
    && (t.pendingDelete != [] ==> s.pendingDelete != [] || t.d.requested || (t.d.blocked && t.d.outgoing != []))
  }

  lemma StirredTwice(s: Session, t: Session, u: Session)
    requires Stirred(s, t) && Stirred(t, u)
    ensures Stirred(s, u)
  {
  }

  lemma StirredStaysAwake(s: Session, t: Session)
    requires Stirred(s, t) && SendsAwake(s.d) && DeletesAwake(s)
    ensures SendsAwake(t.d) && DeletesAwake(t) && (UnblocksAwake(s) ==> UnblocksAwake(t))
  {
  }

  lemma CallStirs(s: Session, ptr: Ptr, status: Flow)
    requires Ready(s.d)
    ensures Stirred(s, FlowCall(s, ptr, status))
  {
    hide IdOf;
    CallIsHosted(s, ptr, status);
    match status
    case FlowBlocked => BlockedStirs(s, ptr);
    case FlowOpen =>
    case FlowClosed =>
  }

  lemma BlockedStirs(s: Session, ptr: Ptr)
    requires Ready(s.d)
    ensures FlowBlockedCall(s, ptr).pendingUnblock != [] ==> s.pendingUnblock != []
    ensures FlowBlockedCall(s, ptr).pendingDelete == s.pendingDelete
  {
  }

  lemma StepStirs(w: World, ptr: Ptr, after: Channel)
    requires Ready(w.s.d) && ptr in w.chans
    ensures Stirred(w.s, ChannelStep(w, ptr, after).s)
  {
    hide FlowCall;
    CallStirs(w.s, ptr, after.lastStatus);
  }

  /** Only the delivery half, and tables that announce no work, changed. */
  lemma PromptStirs(s: Session, t: Session)
    requires Hosted(s.d, t.d) && Prompt(s.d, t.d)
    requires t.pendingUnblock == s.pendingUnblock && t.pendingDelete == s.pendingDelete
    ensures Stirred(s, t)
  {
    HostedKeepsOutgoing(s.d, t.d);
  }

  lemma {:induction false} HostAllKeepsOutgoing(d: State, ops: seq<HostOp>)
    requires Ready(d)
    ensures d.outgoing != [] ==> HostAll(d, ops).outgoing != []
    decreases ops
  {
    hide Ready;
    if ops != [] {
      HostKeepsOutgoing(d, ops[0]);
      HostAllKeepsOutgoing(Host(d, ops[0]), ops[1..]);
    }
  }

  lemma HostKeepsOutgoing(d: State, op: HostOp)
    requires Ready(d)
    ensures d.outgoing != [] ==> Host(d, op).outgoing != []
  {
  }

  lemma HostedKeepsOutgoing(d: State, next: State)
    requires Hosted(d, next)
    ensures d.outgoing != [] ==> next.outgoing != []
  {
    var ops :| next == HostAll(d, ops);
    HostAllKeepsOutgoing(d, ops);
  }

  lemma HandleStirs(w: World, id: nat, event: RouterEvent, reaction: Reaction)
    requires Ready(w.s.d) && id in w.s.active && w.s.active[id].ptr in w.chans
    ensures Stirred(w.s, Handle(w, id, event, reaction).s)
  {
    hide Hosted, Prompt, Stirred, ChannelStep, SendItem;
    var ptr, next := w.s.active[id].ptr, Handle(w, id, event, reaction);
    var c1 := SendItem(w.chans[ptr], w.s.self, event.data, reaction);
    HandleIsHosted(w, id, event, reaction);
    StepStirs(w, ptr, c1);
    var offered := ChannelStep(w, ptr, c1);
    if next.s.pendingUnblock == w.s.pendingUnblock && next.s.pendingDelete == w.s.pendingDelete {
      PromptStirs(w.s, next.s);
    } else if next != offered {
      StepIsHosted(w, ptr, c1);
      LogGrows(w.s.d, offered.s.d);
      var flagged := offered.s.(active := offered.s.active[id := offered.s.active[id].(blocked := true)]);
      QueueMessageIsHosted(flagged, id, event);
      PromptStirs(offered.s, next.s);
      StirredTwice(w.s, offered.s, next.s);
    }
  }

  lemma ClientDataStirs(w: World, id: nat, serial: nat, item: EventData, reaction: Reaction)
    requires Known(w)
    ensures Stirred(w.s, ClientData(w, id, serial, item, reaction).s)
  {
    hide Hosted, Stirred, Handle, NoteIncoming, Prompt;
    ClientDataIsHosted(w, id, serial, item, reaction);
    if id in w.s.active && !w.s.active[id].out {
      NotingIsHosted(w.s.d, serial);
      LogGrows(w.s.d, NoteIncoming(w.s.d, serial));
      var received := Receive(w, id, serial, item);
      PromptStirs(w.s, received.s);
      HandleStirs(received, id, RouterEvent(serial, 0, item), reaction);
      StirredTwice(w.s, received.s, Handle(received, id, RouterEvent(serial, 0, item), reaction).s);
    } else {
      PromptStirs(w.s, ClientData(w, id, serial, item, reaction).s);
    }
  }

  lemma ChannelStepsStir(f: Full, step: FullStep, maxWindow: nat)
    requires FullInv(f, maxWindow) && FullEnabled(f, step, maxWindow) && Known(f.w)
    requires !step.Serviced? && !step.Delivered?
    ensures Stirred(f.w.s, FullNext(f, step, maxWindow).w.s)
  {
    hide Agreed, Inv, Hosted, Prompt, Stirred, ChannelStep, ClientData, Announce, Apply, IdOf, Known, Enqueue, Register;
    KnownIsReady(f.w);
    ChannelStepsAreHosted(f, step, maxWindow);
    match step
    case ChannelCreated(ptr, kind) => PromptStirs(f.w.s, f.w.s);
    case ChannelAdded(ptr, out) => PromptStirs(f.w.s, AddChannel(f.w, ptr, out).s);
    case ChannelCalled(ptr, op) =>
      if Arrives(f.w, ptr, op) {
        PromptStirs(f.w.s, ChannelData(f.w.s, ptr, op.item));
      } else {
        StepStirs(f.w, ptr, Apply(f.w.chans[ptr], op));
      }
    case MessageArrived(id, serial, item, reaction) => ClientDataStirs(f.w, id, serial, item, reaction);
    case CloseRequested(id) =>
      if id in f.w.s.active {
        KnownAt(f.w, id);
        StepStirs(f.w, f.w.s.active[id].ptr, Close(f.w.chans[f.w.s.active[id].ptr]));
      } else {
        PromptStirs(f.w.s, f.w.s);
      }
  }

  // ----- A service -----

  /** During a service only the closing of a channel is new work, and it is announced. */
  ghost predicate StirredInService(s: Session, t: Session) {
    && (s.d.requested ==> t.d.requested) && t.d.blocked == s.d.blocked
    && (s.d.outgoing != [] ==> t.d.outgoing != [])
    && (t.pendingDelete != [] ==> s.pendingDelete != [] || t.d.requested || (t.d.blocked && t.d.outgoing != []))
  }

  lemma InServiceTwice(s: Session, t: Session, u: Session)
    requires StirredInService(s, t) && StirredInService(t, u)
    ensures StirredInService(s, u)
  {
  }

  lemma {:induction false} DrainQueueStirs(w: World, id: nat, reactions: seq<Reaction>, k: nat)
    requires Ready(w.s.d) && id in w.s.active && w.s.active[id].ptr in w.chans
    ensures StirredInService(w.s, DrainQueue(w, id, reactions, k).s)
    decreases |QueueOf(w.s, id)|
  {
    hide ChannelStep, SendItem, Stirred, StirredInService;
    if QueueOf(w.s, id) == [] {
      InServiceSame(w.s, w.s);
    } else {
      var ptr, reaction := w.s.active[id].ptr, ReactionAt(reactions, k);
      var offered := OfferHead(w, id, reaction);
      StepStirs(w, ptr, SendItem(w.chans[ptr], w.s.self, QueueOf(w.s, id)[0].data, reaction));
      StirredIsInService(w.s, offered.s);
      if Accepts(w.chans[ptr]) {
        var popped := offered.(s := SetQueue(offered.s, id, QueueOf(offered.s, id)[1..]));
        InServiceSame(offered.s, popped.s);
        InServiceTwice(w.s, offered.s, popped.s);
        DrainQueueStirs(popped, id, reactions, k + 1);
        InServiceTwice(w.s, popped.s, DrainQueue(popped, id, reactions, k + 1).s);
      }
    }
  }

  lemma StirredIsInService(s: Session, t: Session)
    requires Stirred(s, t)
    ensures StirredInService(s, t)
  {
  }

  lemma InServiceSame(s: Session, t: Session)
    requires t.d == s.d && t.pendingDelete == s.pendingDelete
    ensures StirredInService(s, t)
  {
  }

  lemma FinishStirs(w: World, id: nat)
    requires Ready(w.s.d) && id in w.s.active && w.s.active[id].ptr in w.chans
    ensures StirredInService(w.s, FinishDrain(w, id).s)
  {
  }

  lemma DrainChannelStirs(w: World, id: nat, reactions: seq<Reaction>)
    requires Known(w)
    ensures StirredInService(w.s, DrainChannel(w, id, reactions).0.s)
  {
    hide FinishDrain, DrainQueue, StirredInService;
    InServiceSame(w.s, w.s);
    if id in w.s.active {
      var ptr := w.s.active[id].ptr;
      var locked := w.(chans := w.chans[ptr := Lock(w.chans[ptr])]);
      DrainQueueStirs(locked, id, reactions, 0);
      var drained := DrainQueue(locked, id, reactions, 0);
      FinishStirs(drained, id);
      InServiceTwice(w.s, drained.s, FinishDrain(drained, id).s);
    }
  }

  lemma {:induction false} DrainAllStirs(w: World, ids: seq<nat>, reactions: seq<seq<Reaction>>)
    requires Known(w)
    ensures StirredInService(w.s, DrainAll(w, ids, reactions).0.s)
    decreases ids
  {
    hide DrainChannel, Known, StirredInService;
    if ids == [] {
      InServiceSame(w.s, w.s);
    } else {
      var first := if reactions == [] then [] else reactions[0];
      var rest := if reactions == [] then [] else reactions[1..];
      DrainChannelStirs(w, ids[0], first);
      var next := DrainChannel(w, ids[0], first).0;
      DrainAllStirs(next, ids[1..], rest);
      InServiceTwice(w.s, next.s, DrainAll(next, ids[1..], rest).0.s);
    }
  }

  /** The send loop stops only for a reason; a blocked client is sent nothing. */
  lemma {:induction false} SendLoopStops(d: State, codes: seq<SendCode>, k: nat)
    ensures var done := SendLoop(d, codes, k).0; !KeepsSending(done) && (d.requested ==> done.requested)
    decreases |d.outgoing|, !d.blocked
  {
    if KeepsSending(d) { SendLoopStops(SendOne(d, CodeAt(codes, k)).0, codes, k + 1); }
  }

  lemma SendPhaseStops(d: State, codes: seq<SendCode>)
    ensures var done := SendPhase(d, codes).0;
      && SendsAwake(done) && (d.requested ==> done.requested)
      && (d.blocked ==> done.blocked && done.outgoing == d.outgoing)
  {
    SendLoopStops(AfterSend(d.(needsIncomingAck := false), CodeAt(codes, 0)), codes, 1);
    SendLoopStops(d, codes, 0);
  }

  lemma ServiceStaysAwake(w: World, reactions: seq<seq<Reaction>>, codes: seq<SendCode>)
    requires Agreed(w)
    ensures Known(w)
    ensures var next := ProcessPending(w, reactions, codes).0.s;
      SendsAwake(next.d) && DeletesAwake(next) && UnblocksAwake(next)
  {
    hide Core, AllConserved, ProcessDeletes, SendPhase, DrainAll, Enqueue;
    assert Known(w) by { CoreIsKnown(w, {}, 0); }
    if !w.s.d.needDisconnect {
      var begun := w.(s := w.s.(d := w.s.d.(requested := false)));
      DeliveryKeeps(w, begun.s.d, {}, 0);
      DeletesKeep(begun);
      var deleted := ProcessDeletes(begun);
      var scheduled := deleted.(s := deleted.s.(pendingUnblock := []));
      ScheduleIsDue(deleted);
      DrainAllKeeps(scheduled, deleted.s.pendingUnblock, reactions);
      DrainAllStirs(scheduled, deleted.s.pendingUnblock, reactions);
      SendPhaseStops(ProcessUnblocked(deleted, reactions).s.d, codes);
    }
  }

  // ----- Steps of the connection and the client -----

  /** `client_unblocked` asks for service only for the sake of queued events: work that waits in the list
      of unblocked channels is forgotten. */
  predicate LosesWakeup(s: Session, step: Step) {
    step.ConnectionUnblocks? && s.pendingUnblock != [] && s.d.outgoing == [] && !s.d.requested && !s.d.needDisconnect
  }

  lemma DeliveryStaysAwake(f: Full, step: Step, maxWindow: nat)
    requires Enabled(SystemOf(f), step, maxWindow) && !step.HostStep? && !step.ServiceStep?
    requires SendsAwake(f.w.s.d) && DeletesAwake(f.w.s)
    ensures var d := Next(SystemOf(f), step, maxWindow).d;
      && SendsAwake(d) && DeletesAwake(f.w.s.(d := d))
      && (UnblocksAwake(f.w.s) ==> (UnblocksAwake(f.w.s.(d := d)) <==> !LosesWakeup(f.w.s, step)))
  {
  }

  // ----- Runs -----

  ghost predicate Awake(f: Full) {
    SendsAwake(f.w.s.d) && DeletesAwake(f.w.s)
  }

  /** A step keeps the session awake for what it can send and for channels it has to let go; for backlogs
      it does so exactly when it is not the losing step. */
  lemma StepStaysAwake(f: Full, step: FullStep, maxWindow: nat)
    requires FullInv(f, maxWindow) && FullEnabled(f, step, maxWindow) && Known(f.w)
    requires Awake(f)
    ensures Awake(FullNext(f, step, maxWindow))
    ensures UnblocksAwake(f.w.s) ==>
      (UnblocksAwake(FullNext(f, step, maxWindow).w.s) <==> !(step.Delivered? && LosesWakeup(f.w.s, step.step)))
  {
    hide Core, AllConserved, Inv, ProcessPending, SendsAwake, DeletesAwake, UnblocksAwake, Stirred, Known, LosesWakeup;
    if step.Serviced? {
      ServiceStaysAwake(f.w, step.reactions, step.codes);
    } else if step.Delivered? {
      DeliveryStaysAwake(f, step.step, maxWindow);
    } else {
      ChannelStepsStir(f, step, maxWindow);
      StirredStaysAwake(f.w.s, FullNext(f, step, maxWindow).w.s);
    }
  }

  /** No lost wake-up: after every step of every run, if something is queued, the client is unblocked, the
      window has room and no reconnect or disconnect is pending, then service has been asked for; and
      whenever channels wait to be let go, it has been or the client will be told of them first. */
  lemma {:induction false} RunStaysAwake(f: Full, steps: seq<FullStep>, maxWindow: nat)
    requires FullInv(f, maxWindow) && FullLegal(f, steps, maxWindow) && Awake(f)
    ensures Awake(FullRun(f, steps, maxWindow))
    decreases steps
  {
    hide FullInv, FullNext, FullEnabled, Known, Awake;
    if steps != [] {
      FullStepKeeps(f, steps[0], maxWindow);
      StepStaysAwake(f, steps[0], maxWindow);
      RunStaysAwake(FullNext(f, steps[0], maxWindow), steps[1..], maxWindow);
    }
  }

  /** Backlogs that could be handed over are going to be, in every state of the run. */
  ghost predicate AlwaysUnblocksAwake(f: Full, steps: seq<FullStep>, maxWindow: nat)
    requires FullLegal(f, steps, maxWindow)
    decreases steps
  {
    && UnblocksAwake(f.w.s)
    && (steps == [] || AlwaysUnblocksAwake(FullNext(f, steps[0], maxWindow), steps[1..], maxWindow))
  }

  /** The client never becomes unblocked while backlogs are scheduled, nothing is queued for it, no service is
      requested and no disconnect is pending. */
  ghost predicate NoLosingStep(f: Full, steps: seq<FullStep>, maxWindow: nat)
    requires FullLegal(f, steps, maxWindow)
    decreases steps
  {
    steps == [] ||
    (!(steps[0].Delivered? && LosesWakeup(f.w.s, steps[0].step))
     && NoLosingStep(FullNext(f, steps[0], maxWindow), steps[1..], maxWindow))
  }

  /** Over whole runs scheduled backlogs are going to be handled in every state if and only if no step of the run
      is the losing one. */
  lemma {:induction false} BacklogsStayAwake(f: Full, steps: seq<FullStep>, maxWindow: nat)
    requires FullInv(f, maxWindow) && FullLegal(f, steps, maxWindow) && Awake(f) && UnblocksAwake(f.w.s)
    ensures AlwaysUnblocksAwake(f, steps, maxWindow) <==> NoLosingStep(f, steps, maxWindow)
    decreases steps
  {
    hide FullInv, FullNext, FullEnabled, Known, Awake, UnblocksAwake, LosesWakeup;
    if steps != [] {
      var next := FullNext(f, steps[0], maxWindow);
      FullStepKeeps(f, steps[0], maxWindow);
      StepStaysAwake(f, steps[0], maxWindow);
      if UnblocksAwake(next.w.s) {
        BacklogsStayAwake(next, steps[1..], maxWindow);
      } else {
        NotAlwaysAwake(next, steps[1..], maxWindow);
      }
    }
  }

  lemma NotAlwaysAwake(f: Full, steps: seq<FullStep>, maxWindow: nat)
    requires FullLegal(f, steps, maxWindow) && !UnblocksAwake(f.w.s)
    ensures !AlwaysUnblocksAwake(f, steps, maxWindow)
  {
    hide UnblocksAwake, FullNext, FullEnabled, Known, FullLegal;
  }

  lemma StartIsAwake(self: Ptr, modulus: nat, window: nat, maxChannels: nat)
    ensures Awake(FullStart(self, modulus, window, maxChannels))
    ensures UnblocksAwake(FullStart(self, modulus, window, maxChannels).w.s)
  {
  }

  /** The same from the start, for every run: what can be sent and what is to be let go is never forgotten, and
      scheduled backlogs are not exactly in runs without a losing step. */
  lemma NoWakeupIsLost(self: Ptr, modulus: nat, window: nat, maxChannels: nat, maxWindow: nat, steps: seq<FullStep>)
    requires self > 0 && 0 < maxChannels && window <= maxWindow && maxWindow + 1 < modulus
    requires FullLegal(FullStart(self, modulus, window, maxChannels), steps, maxWindow)
    ensures Awake(FullRun(FullStart(self, modulus, window, maxChannels), steps, maxWindow))
    ensures AlwaysUnblocksAwake(FullStart(self, modulus, window, maxChannels), steps, maxWindow)
      <==> NoLosingStep(FullStart(self, modulus, window, maxChannels), steps, maxWindow)
  {
    hide FullInv, FullStart, FullLegal, Awake, UnblocksAwake, AlwaysUnblocksAwake, NoLosingStep;
    StartIsFull(self, modulus, window, maxChannels, maxWindow);
    StartIsAwake(self, modulus, window, maxChannels);
    RunStaysAwake(FullStart(self, modulus, window, maxChannels), steps, maxWindow);
    BacklogsStayAwake(FullStart(self, modulus, window, maxChannels), steps, maxWindow);
  }
}
