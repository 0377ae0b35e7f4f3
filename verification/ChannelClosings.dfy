/** A client asks for a channel to be closed: what happens at once, and what the next service does. */
module ChannelClosings {
  import opened Basics
  import opened RouterEvents
  import opened Serials
  import opened Delivery
  import opened DeliveryProtocol
  import opened Channels
  import opened Sessions
  import opened SessionInvariant
  import opened SessionSteps
  import opened SessionService
  import opened SessionHosting
  import opened SessionEffects
  import opened ChannelHistory
  import opened SessionRuns
  import opened StepEffects

  /** The event is the closing of the channel under this id. */
  predicate TellsClosing(event: RouterEvent, id: nat, out: bool) {
    event.channelId == 0 && event.data == Status(StatusChange(StatusClose, out, id))
  }

  /** Closing an open channel calls its listeners; the channel stays while somebody refers to it. */
  lemma ClosingCalls(c: Channel, self: Ptr)
    requires Good(c) && !c.closed && self in c.listeners && c.holders[self] > 0
    ensures var c1 := Close(c);
      && Broadcasts(c, c1, self)
      && c1 == c.(closed := true, lastStatus := FlowClosed, broadcasts := c.broadcasts + [(FlowClosed, c.listeners)])
  {
    hide RefsGood;
    assert self in c.holders;
  }

  lemma ClosedStays(c: Channel, self: Ptr)
    requires Good(c) && c.closed && c.holders[self] > 0
    ensures Close(c) == c
  {
    hide RefsGood, Alternating, LastBroadcast;
    assert self in c.holders;
  }

  lemma ClosingCallTells(s: Session, id: nat)
    requires Tables(s) && Ready(s.d) && id in s.active
    ensures var t := FlowClosedCall(s, s.active[id].ptr);
      && |t.d.log| == |s.d.log| + 1 && s.d.log <= t.d.log && TellsClosing(t.d.log[|s.d.log|], id, s.active[id].out)
      && (t.d.requested || t.d.blocked)
  {
    hide NextSerial;
    IdOfActive(s, id);
  }

  /** The channel is closed and nothing but the session's own entry for it changes. If it was open, the session notes
      the closing, is going to let the channel go, tells the client of that and of nothing else, and asks for
      service unless the client is blocked. If it was closed already, nothing happens at all. */
  lemma ClosingTakesEffect(w: World, id: nat)
    requires Agreed(w) && id in w.s.active
    ensures Known(w)
    ensures var ptr, next := w.s.active[id].ptr, RequestClose(w, id);
      && var c := w.chans[ptr];
      && (if c.closed then next == w
          else
            && next.chans == w.chans[ptr := c.(closed := true, lastStatus := FlowClosed,
                                               broadcasts := c.broadcasts + [(FlowClosed, c.listeners)])]
            && next.s == w.s.(active := w.s.active[id := w.s.active[id].(closed := true)],
                              pendingDelete := w.s.pendingDelete + [id], d := next.s.d)
            && |next.s.d.log| == |w.s.d.log| + 1 && w.s.d.log <= next.s.d.log
            && TellsClosing(next.s.d.log[|w.s.d.log|], id, w.s.active[id].out)
            && (next.s.d.requested || next.s.d.blocked))
  {
    hide Core, AllConserved, Good, Tables, FlowClosedCall, Close, TellsClosing, FlowAgrees;
    assert Known(w) by { CoreIsKnown(w, {}, 0); }
    CoreAt(w, id, {}, 0);
    HeldAt(w, id);
    var ptr := w.s.active[id].ptr;
    var c := w.chans[ptr];
    if c.closed {
      ClosedStays(c, w.s.self);
      assert w.chans[ptr := c] == w.chans;
    } else {
      ClosingCalls(c, w.s.self);
      ClosedCallShape(w.s, id);
      ClosingCallTells(w.s, id);
    }
  }

  // ----- Until the next service -----

  /** The channel under this id is going to be let go. */
  ghost predicate IsDue(w: World, id: nat, ptr: Ptr) {
    id in w.s.active && w.s.active[id].ptr == ptr && w.s.active[id].closed && id in w.s.pendingDelete
  }


  /** No step of the run is a service that serves. */
  ghost predicate Unserved(f: Full, steps: seq<FullStep>, maxWindow: nat)
    requires FullLegal(f, steps, maxWindow)
    decreases steps
  {
    steps == [] || (!Serves(f, steps[0]) && Unserved(FullNext(f, steps[0], maxWindow), steps[1..], maxWindow))
  }

  lemma ClosedIsDue(f: Full, maxWindow: nat, id: nat)
    requires FullInv(f, maxWindow) && id in f.w.s.active && f.w.s.active[id].closed
    ensures IsDue(f.w, id, f.w.s.active[id].ptr)
  {
    hide Inv, AllConserved, AllLinked, OthersUnheld, AllGood;
  }

  lemma StepKeepsDue(f: Full, step: FullStep, maxWindow: nat, id: nat, ptr: Ptr)
    requires FullInv(f, maxWindow) && FullEnabled(f, step, maxWindow) && Known(f.w) && !Serves(f, step)
    requires IsDue(f.w, id, ptr)
    ensures IsDue(FullNext(f, step, maxWindow).w, id, ptr)
  {
    hide FullInv, FullNext, FullEnabled, Known;
    var next := FullNext(f, step, maxWindow);
    FullStepKeeps(f, step, maxWindow);
    if step.ChannelAdded? {
      AddingAdds(f, step.ptr, step.out, maxWindow);
    } else {
      StepStays(f, step, maxWindow);
    }
    ClosedIsDue(next, maxWindow, id);
  }

  lemma {:induction false} RunKeepsDue(f: Full, steps: seq<FullStep>, maxWindow: nat, id: nat, ptr: Ptr)
    requires FullInv(f, maxWindow) && FullLegal(f, steps, maxWindow) && Unserved(f, steps, maxWindow)
    requires IsDue(f.w, id, ptr)
    ensures IsDue(FullRun(f, steps, maxWindow).w, id, ptr) && FullInv(FullRun(f, steps, maxWindow), maxWindow)
    decreases steps
  {
    hide FullInv, FullNext, FullEnabled, Known, IsDue, Serves;
    if steps != [] {
      FullStepKeeps(f, steps[0], maxWindow);
      StepKeepsDue(f, steps[0], maxWindow, id, ptr);
      RunKeepsDue(FullNext(f, steps[0], maxWindow), steps[1..], maxWindow, id, ptr);
    }
  }

  /** The channel is no longer among those the session works on, and knows nothing of it. */
  ghost predicate IsLetGo(w: World, id: nat, ptr: Ptr) {
    id !in w.s.active && (forall other :: other in w.s.active ==> w.s.active[other].ptr != ptr)
    && ptr in w.chans && Unheld(w.s.self, w.chans[ptr])
  }

  lemma ServingLetsGo(f: Full, step: FullStep, maxWindow: nat, id: nat, ptr: Ptr)
    requires FullInv(f, maxWindow) && FullEnabled(f, step, maxWindow) && Known(f.w) && Serves(f, step)
    requires IsDue(f.w, id, ptr)
    ensures IsLetGo(FullNext(f, step, maxWindow).w, id, ptr)
  {
    hide Inv, FullNext, AllConserved, AllLinked, Good, Unheld, NoRepeats, TellsFlow;
    var next := FullNext(f, step, maxWindow);
    FullStepKeeps(f, step, maxWindow);
    ServingRemains(f, step, maxWindow);
    assert id in SetOf(f.w.s.pendingDelete);
    assert ptr in f.w.chans;
    forall other | other in next.w.s.active ensures next.w.s.active[other].ptr != ptr {
      assert SameEntry(f.w.s.active[other], next.w.s.active[other]);
    }
    assert IdOf(next.w.s, ptr) == 0;
  }

  /** After the client asked for an open channel to be closed, whatever others do until the session is next serviced
      for anything but a disconnect: then the session lets the channel go, and keeps no reference to it. */
  lemma RequestedClosingIsDone(f: Full, id: nat, asked: Full, steps: seq<FullStep>, last: Full, service: FullStep,
                               maxWindow: nat)
    requires FullInv(f, maxWindow) && Known(f.w) && FullEnabled(f, CloseRequested(id), maxWindow)
    requires id in f.w.s.active && !f.w.chans[f.w.s.active[id].ptr].closed
    requires asked == FullNext(f, CloseRequested(id), maxWindow)
    requires FullLegal(asked, steps, maxWindow) && Unserved(asked, steps, maxWindow)
    requires last == FullRun(asked, steps, maxWindow)
    requires Known(last.w) && FullEnabled(last, service, maxWindow) && Serves(last, service)
    ensures IsLetGo(FullNext(last, service, maxWindow).w, id, f.w.s.active[id].ptr)
  {
    hide FullInv, FullNext, FullEnabled, Known, IsDue, Serves, FullLegal, Unserved, FullRun, IsLetGo;
    var ptr := f.w.s.active[id].ptr;
    CloseMakesDue(f, id, maxWindow);
    FullStepKeeps(f, CloseRequested(id), maxWindow);
    RunKeepsDue(asked, steps, maxWindow, id, ptr);
    ServingLetsGo(last, service, maxWindow, id, ptr);
  }

  lemma CloseMakesDue(f: Full, id: nat, maxWindow: nat)
    requires FullInv(f, maxWindow) && id in f.w.s.active && Known(f.w)
    requires !f.w.chans[f.w.s.active[id].ptr].closed
    ensures FullEnabled(f, CloseRequested(id), maxWindow)
    ensures IsDue(FullNext(f, CloseRequested(id), maxWindow).w, id, f.w.s.active[id].ptr)
  {
    hide Inv, Core, AllConserved, RequestClose, Known;
    ClosingTakesEffect(f.w, id);
  }
}
