/** What holds of a session and its channels in every run. */
module SessionTheorems {
  import opened Basics
  import opened RouterEvents
  import opened Serials
  import opened Delivery
  import opened DeliveryProtocol
  import opened Channels
  import opened ChannelRuns
  import opened ChannelIds
  import opened Sessions
  import opened SessionInvariant
  import opened SessionSteps
  import opened SessionService
  import opened SessionHosting
  import opened ChannelHistory
  import opened SessionRuns

  /** A run from the start; the parameters are within bounds. */
  ghost predicate IsRun(self: Ptr, modulus: nat, window: nat, maxChannels: nat, maxWindow: nat, steps: seq<FullStep>) {
    && self > 0 && 0 < maxChannels && window <= maxWindow && maxWindow + 1 < modulus
    && FullLegal(FullStart(self, modulus, window, maxChannels), steps, maxWindow)
  }

  lemma RunIsFull(self: Ptr, modulus: nat, window: nat, maxChannels: nat, maxWindow: nat, steps: seq<FullStep>)
    requires IsRun(self, modulus, window, maxChannels, maxWindow, steps)
    ensures FullInv(FullRun(FullStart(self, modulus, window, maxChannels), steps, maxWindow), maxWindow)
  {
    hide FullInv, FullNext, FullEnabled, Known, FullStart;
    StartIsFull(self, modulus, window, maxChannels, maxWindow);
    FullRunKeeps(FullStart(self, modulus, window, maxChannels), steps, maxWindow);
  }

  /** Conservation, flow agreement and ownership, for one channel the session works on. */
  ghost predicate Sound(s: Session, id: nat, c: Channel)
    requires id in s.active
  {
    var info, queue := s.active[id], QueueOf(s, id);
    && (!info.out && !c.closed ==>
          && TakenOn(s, info.ptr) == AcceptedFrom(c.accepted, s.self) + Items(queue)
          && (c.blocked ==> info.blocked)
          && (info.blocked && !c.blocked ==> id in s.pendingUnblock)
          && (!info.blocked ==> Accepts(c)))
    && (queue != [] ==> info.blocked)
    && c.destroyed == 0 && s.self in c.listeners
    && c.holders[s.self] == (if c.recvCallback == s.self then 3 else 2)
  }

  lemma LinkedIsSound(s: Session, id: nat, c: Channel)
    requires id in s.active && id != 0 && Linked(s, id, c, {}, 0) && ConservedOn(s, id, c) && StatusGood(c)
    ensures Sound(s, id, c)
  {
  }

  lemma ActiveChannelsAreSound(f: Full, maxWindow: nat, id: nat)
    requires FullInv(f, maxWindow) && id in f.w.s.active
    ensures f.w.s.active[id].ptr in f.w.chans && Sound(f.w.s, id, f.w.chans[f.w.s.active[id].ptr])
  {
    hide Core, Inv, AllConserved, RefsGood, LifeGood, StatusGood, Linked, ConservedOn, Sound;
    CoreAt(f.w, id, {}, 0);
    ConservedAt(f.w, id);
    IdOfIs(f.w, id, {}, 0);
    LinkedIsSound(f.w.s, id, f.w.chans[f.w.s.active[id].ptr]);
  }

  /** In every run, what the client sent on an open inbound channel is exactly what the channel accepted
      from it followed by what is held back for it, in order; held-back messages mean the session counts
      the channel as blocked, so nothing overtakes them; a channel that refuses would be one the session
      already counts as blocked; and the session holds exactly its two or three references. */
  lemma InboundInOrder(self: Ptr, modulus: nat, window: nat, maxChannels: nat, maxWindow: nat, steps: seq<FullStep>,
                       id: nat)
    requires IsRun(self, modulus, window, maxChannels, maxWindow, steps)
    requires id in FullRun(FullStart(self, modulus, window, maxChannels), steps, maxWindow).w.s.active
    ensures var w := FullRun(FullStart(self, modulus, window, maxChannels), steps, maxWindow).w;
      var info := w.s.active[id];
      info.ptr in w.chans && Sound(w.s, id, w.chans[info.ptr])
  {
    hide FullInv, FullLegal, FullRun, FullStart, Sound;
    RunIsFull(self, modulus, window, maxChannels, maxWindow, steps);
    ActiveChannelsAreSound(FullRun(FullStart(self, modulus, window, maxChannels), steps, maxWindow), maxWindow, id);
  }

  /** In every run, every channel has deleted itself at most once, and only once nobody held it, no process
      used it and nobody had it locked; what was broadcast about it never repeats and ends at closed; and
      the session knows a channel exactly while it works on it. */
  lemma ChannelLives(self: Ptr, modulus: nat, window: nat, maxChannels: nat, maxWindow: nat, steps: seq<FullStep>,
                     ptr: Ptr)
    requires IsRun(self, modulus, window, maxChannels, maxWindow, steps)
    requires ptr in FullRun(FullStart(self, modulus, window, maxChannels), steps, maxWindow).w.chans
    ensures var w := FullRun(FullStart(self, modulus, window, maxChannels), steps, maxWindow).w;
      var c := w.chans[ptr];
      && c.destroyed <= 1 && (c.destroyed == 1 ==> Unused(c))
      && c.lastStatus == StatusOf(c) && c.lastStatus == LastBroadcast(c.broadcasts) && Alternating(c.broadcasts)
      && !(c.recvPid > 0 && c.recvCallback > 0)
      && (c.holders[w.s.self] > 0 <==> exists id :: id in w.s.active && w.s.active[id].ptr == ptr)
  {
    hide FullLegal, FullRun, FullStart, Alternating, Unused, AllConserved, Inv, Tables;
    RunIsFull(self, modulus, window, maxChannels, maxWindow, steps);
    var w := FullRun(FullStart(self, modulus, window, maxChannels), steps, maxWindow).w;
    assert Good(w.chans[ptr]);
    if id :| id in w.s.active && w.s.active[id].ptr == ptr {
      HeldIn(w, id, {}, 0);
    } else {
      assert IdOf(w.s, ptr) == 0;
      assert Unheld(w.s.self, w.chans[ptr]);
    }
  }

  /** Exactly-once, in-order delivery for the whole session: in every run, what the client has received is
      a prefix of all events the session ever queued, with consecutive serials. */
  lemma DeliveredInOrder(self: Ptr, modulus: nat, window: nat, maxChannels: nat, maxWindow: nat,
                         steps: seq<FullStep>)
    requires IsRun(self, modulus, window, maxChannels, maxWindow, steps)
    ensures var f := FullRun(FullStart(self, modulus, window, maxChannels), steps, maxWindow);
      var received, log := f.client.received, f.w.s.d.log;
      && 2 <= f.w.s.d.modulus && 0 <= f.client.from <= Acked(f.w.s.d) <= |received| <= Handed(f.w.s.d) <= |log|
      && received <= log
      && (forall i :: 0 <= i < |log| ==> log[i].serial == SerialOf(f.w.s.d.modulus, i + 1))
      && f.w.s.d.sent + f.w.s.d.outgoing == log[Acked(f.w.s.d)..]
  {
    hide FullLegal, FullRun, FullStart, Agreed, InFlight;
    RunIsFull(self, modulus, window, maxChannels, maxWindow, steps);
  }

  /** The destructor: the session lets go of every channel it works on, each call is made on a live channel,
      nothing of it remains behind, and a channel goes with it exactly when nobody else refers to it. */
  lemma DestructorLetsGo(f: Full, maxWindow: nat, ptr: Ptr)
    requires FullInv(f, maxWindow) && ptr in f.w.chans
    ensures var c, next, id := f.w.chans[ptr], LetGo(f.w)[ptr], IdOf(f.w.s, ptr);
      && Good(next) && Unheld(f.w.s.self, next)
      && (if id == 0 then next == c
          else
            && AllAllowed(c, UnregisterCalls(f.w.s.self, f.w.s.active[id].out))
            && next == ApplyAll(c, UnregisterCalls(f.w.s.self, f.w.s.active[id].out))
            && (next.destroyed == 1 <==> Unused(next)))
  {
    hide Good, Held, AllConserved, Inv, FlowAgrees, Tables, Unused, Unregister;
    var id := IdOf(f.w.s, ptr);
    assert Good(f.w.chans[ptr]);
    if id == 0 {
      assert Unheld(f.w.s.self, f.w.chans[ptr]);
    } else {
      CoreAt(f.w, id, {}, 0);
      HeldAt(f.w, id);
      UnregisterLetsGo(f.w.chans[ptr], f.w.s.self, f.w.s.active[id].out);
    }
  }

  /** In every reachable state the scan for the next channel id ends if and only if fewer than
      maxChannels - 1 channels are active; the guard of the code passes in every one of them. */
  lemma IdScanEnds(f: Full, maxWindow: nat)
    requires FullInv(f, maxWindow) && 2 <= f.w.s.maxChannels
    ensures var s := f.w.s;
      && |s.active| < s.maxChannels
      && (ScanEnds(s.lastChannelId, s.active.Keys, s.maxChannels) <==> |s.active| + 1 < s.maxChannels)
  {
    hide Inv, AllConserved, AllLinked, OthersUnheld, AllGood, ScanEnds;
    assert |f.w.s.active.Keys| == |f.w.s.active|;
    ScanEndsUnlessFull(f.w.s.lastChannelId, f.w.s.active.Keys, f.w.s.maxChannels);
  }

  // ----- What the client is told -----

  /** No service of the run lets a receiver close its channel on the last message held back for it. */
  ghost predicate NoMisreport(f: Full, steps: seq<FullStep>, maxWindow: nat)
    requires FullLegal(f, steps, maxWindow)
    decreases steps
  {
    steps == [] ||
    (!(steps[0].Serviced? && ServiceMisreports(f.w, steps[0].reactions))
     && NoMisreport(FullNext(f, steps[0], maxWindow), steps[1..], maxWindow))
  }

  lemma StepWires(f: Full, step: FullStep, maxWindow: nat)
    requires FullInv(f, maxWindow) && FullEnabled(f, step, maxWindow) && Known(f.w) && WireGood(f.w.s)
    ensures var next, bad := FullNext(f, step, maxWindow), step.Serviced? && ServiceMisreports(f.w, step.reactions);
      && (!bad ==> WireGood(next.w.s)) && (bad ==> !AllWellFormed(next.w.s.d.log))
  {
    hide Core, AllConserved, Inv, WireGood, AllWellFormed, ServiceMisreports, ProcessPending, ClientData, AddChannel;
    hide ForeignNext, RequestClose, Known;
    match step
    case ChannelCreated(ptr, kind) => SilentWires(f.w.s, f.w.s);
    case ChannelAdded(ptr, out) => AddWires(f.w, ptr, out);
    case ChannelCalled(ptr, op) => ForeignWires(f.w, ptr, op);
    case MessageArrived(id, serial, item, reaction) => ClientDataWires(f.w, id, serial, item, reaction);
    case CloseRequested(id) => CloseWires(f.w, id);
    case Serviced(reactions, codes) => ServiceWires(f.w, reactions, codes);
    case Delivered(inner) =>
      OtherStepsLeaveLog(SystemOf(f), inner, maxWindow);
      SilentWires(f.w.s, FullNext(f, step, maxWindow).w.s);
  }

  /** The log only grows, so what went wrong stays wrong. */
  lemma StepKeepsBroken(f: Full, step: FullStep, maxWindow: nat)
    requires FullInv(f, maxWindow) && FullEnabled(f, step, maxWindow) && Known(f.w)
    requires !AllWellFormed(f.w.s.d.log)
    ensures !AllWellFormed(FullNext(f, step, maxWindow).w.s.d.log)
  {
    hide Agreed, Inv, FullNext, Known, WellFormed;
    var inner := StepSimulates(f, step, maxWindow);
    ProtocolGrowsLog(SystemOf(f), inner, maxWindow);
    var id :| id != 0 && !WellFormed(f.w.s.d.log, id);
    BrokenPrefix(f.w.s.d.log, FullNext(f, step, maxWindow).w.s.d.log, id);
  }

  lemma BrokenPrefix(log: seq<RouterEvent>, next: seq<RouterEvent>, id: nat)
    requires log <= next && !WellFormed(log, id)
    ensures !WellFormed(next, id)
  {
    hide WellFormed;
    assert next[..|log|] == log;
    if WellFormed(next, id) { PrefixIsWellFormed(next, |log|, id); }
  }

  lemma ProtocolGrowsLog(s: System, step: Step, maxWindow: nat)
    requires Inv(s, maxWindow) && Enabled(s, step, maxWindow)
    ensures s.d.log <= Next(s, step, maxWindow).d.log
  {
    if step.HostStep? {
      HostAllKeeps(s.d, step.ops);
    } else if step.ServiceStep? {
      var d := s.d.(requested := false);
      HostAllKeeps(d, step.ops);
      SendPhaseLogs(HostAll(d, step.ops), step.codes);
    } else {
      OtherStepsLeaveLog(s, step, maxWindow);
    }
  }

  lemma {:induction false} RunStaysBroken(f: Full, steps: seq<FullStep>, maxWindow: nat)
    requires FullInv(f, maxWindow) && FullLegal(f, steps, maxWindow) && !AllWellFormed(f.w.s.d.log)
    ensures !AllWellFormed(FullRun(f, steps, maxWindow).w.s.d.log)
    decreases steps
  {
    hide FullInv, FullNext, FullEnabled, Known, AllWellFormed;
    if steps != [] {
      FullStepKeeps(f, steps[0], maxWindow);
      StepKeepsBroken(f, steps[0], maxWindow);
      RunStaysBroken(FullNext(f, steps[0], maxWindow), steps[1..], maxWindow);
    }
  }

  /** Over a whole run every channel id has a well-formed history exactly when no service lets a receiver
      close its channel while it is handed the last message held back for it: then the client would be
      told that a closed channel is unblocked. */
  lemma {:induction false} RunWires(f: Full, steps: seq<FullStep>, maxWindow: nat)
    requires FullInv(f, maxWindow) && FullLegal(f, steps, maxWindow) && WireGood(f.w.s)
    ensures AllWellFormed(FullRun(f, steps, maxWindow).w.s.d.log) <==> NoMisreport(f, steps, maxWindow)
    ensures NoMisreport(f, steps, maxWindow) ==> WireGood(FullRun(f, steps, maxWindow).w.s)
    decreases steps
  {
    hide FullInv, FullNext, FullEnabled, Known, AllWellFormed, WireGood, ServiceMisreports;
    if steps == [] {
      WireGoodIsWellFormed(f.w.s);
    } else {
      var next := FullNext(f, steps[0], maxWindow);
      FullStepKeeps(f, steps[0], maxWindow);
      StepWires(f, steps[0], maxWindow);
      if steps[0].Serviced? && ServiceMisreports(f.w, steps[0].reactions) {
        RunStaysBroken(next, steps[1..], maxWindow);
      } else {
        RunWires(next, steps[1..], maxWindow);
      }
    }
  }

  lemma WireGoodIsWellFormed(s: Session)
    requires WireGood(s)
    ensures AllWellFormed(s.d.log)
  {
  }

  /** What the client has received, over any number of reconnects, is a well-formed history of every
      channel, and the session's own view of each channel is what the whole history ends with. */
  lemma ClientSeesChannelLives(self: Ptr, modulus: nat, window: nat, maxChannels: nat, maxWindow: nat,
                               steps: seq<FullStep>, id: nat)
    requires IsRun(self, modulus, window, maxChannels, maxWindow, steps) && id != 0
    requires NoMisreport(FullStart(self, modulus, window, maxChannels), steps, maxWindow)
    ensures var f := FullRun(FullStart(self, modulus, window, maxChannels), steps, maxWindow);
      WellFormed(f.client.received, id) && PhaseOf(f.w.s.d.log, id) == Expected(f.w.s, id)
  {
    hide FullInv, FullRun, FullLegal, FullStart, PhaseOf, Expected, WellFormed, NoMisreport;
    var start := FullStart(self, modulus, window, maxChannels);
    StartIsFull(self, modulus, window, maxChannels, maxWindow);
    StartWires(self, modulus, window, maxChannels);
    RunWires(start, steps, maxWindow);
    DeliveredInOrder(self, modulus, window, maxChannels, maxWindow, steps);
    var f := FullRun(start, steps, maxWindow);
    assert f.client.received == f.w.s.d.log[..|f.client.received|];
    PrefixIsWellFormed(f.w.s.d.log, |f.client.received|, id);
  }

  lemma StartWires(self: Ptr, modulus: nat, window: nat, maxChannels: nat)
    ensures WireGood(FullStart(self, modulus, window, maxChannels).w.s)
  {
  }
}
