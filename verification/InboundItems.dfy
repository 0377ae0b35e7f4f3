/** What the client sends, end to end: over every run, what a channel accepted from the session is what the client
    sent on it, but for what is held back. */
module InboundItems {
  import opened Basics
  import opened RouterEvents
  import opened Delivery
  import opened DeliveryProtocol
  import opened Channels
  import opened Sessions
  import opened SessionInvariant
  import opened SessionSteps
  import opened SessionHosting
  import opened SessionEffects
  import opened SessionRuns
  import opened SessionTheorems
  import opened StepEffects

  /** Read off the steps: the client sends an item on a channel the session works on, from the client, while the
      channel is not closed, and of the channel's kind. */
  predicate IsSentOn(f: Full, step: FullStep, ptr: Ptr) {
    && step.MessageArrived? && step.id in f.w.s.active && !f.w.s.active[step.id].out
    && f.w.s.active[step.id].ptr == ptr && ptr in f.w.chans
    && !f.w.chans[ptr].closed && Matches(f.w.chans[ptr].kind, step.item)
  }

  function SentIn(f: Full, step: FullStep, ptr: Ptr): seq<EventData> {
    if IsSentOn(f, step, ptr) then [step.item] else []
  }

  ghost function SentOn(f: Full, steps: seq<FullStep>, maxWindow: nat, ptr: Ptr): seq<EventData>
    requires FullLegal(f, steps, maxWindow)
    decreases steps
  {
    if steps == [] then []
    else SentIn(f, steps[0], ptr) + SentOn(FullNext(f, steps[0], maxWindow), steps[1..], maxWindow, ptr)
  }

  lemma ReceivingTakes(w: World, id: nat, serial: nat, item: EventData, ptr: Ptr)
    requires id in w.s.active && w.s.active[id].ptr in w.chans
    ensures var c := w.chans[w.s.active[id].ptr];
      TakenOn(Receive(w, id, serial, item).s, ptr) == TakenOn(w.s, ptr)
        + if w.s.active[id].ptr == ptr && !c.closed && Matches(c.kind, item) then [item] else []
  {
  }

  lemma StepTakes(f: Full, step: FullStep, maxWindow: nat, ptr: Ptr)
    requires FullInv(f, maxWindow) && FullEnabled(f, step, maxWindow) && Known(f.w)
    ensures TakenOn(FullNext(f, step, maxWindow).w.s, ptr) == TakenOn(f.w.s, ptr) + SentIn(f, step, ptr)
  {
    hide Agreed, Inv, FullNext, FullEnabled, TellsFlow, Receive;
    if step.ChannelAdded? {
      AddingAdds(f, step.ptr, step.out, maxWindow);
    } else if Serves(f, step) {
      ServingRemains(f, step, maxWindow);
    } else if step.MessageArrived? {
      MessageStays(f.w, step.id, step.serial, step.item, step.reaction);
      MessageIs(f, step, maxWindow);
      if step.id in f.w.s.active { ReceivingTakes(f.w, step.id, step.serial, step.item, ptr); }
    } else {
      StepStays(f, step, maxWindow);
    }
  }

  lemma MessageIs(f: Full, step: FullStep, maxWindow: nat)
    requires FullEnabled(f, step, maxWindow) && Known(f.w) && step.MessageArrived?
    ensures FullNext(f, step, maxWindow).w == ClientData(f.w, step.id, step.serial, step.item, step.reaction)
  {
  }

  lemma {:induction false} RunTakes(f: Full, steps: seq<FullStep>, maxWindow: nat, ptr: Ptr)
    requires FullInv(f, maxWindow) && FullLegal(f, steps, maxWindow)
    ensures TakenOn(FullRun(f, steps, maxWindow).w.s, ptr) == TakenOn(f.w.s, ptr) + SentOn(f, steps, maxWindow, ptr)
    decreases steps
  {
    hide FullInv, FullNext, FullEnabled, Known, TakenOn, SentIn;
    if steps != [] {
      var next := FullNext(f, steps[0], maxWindow);
      FullStepKeeps(f, steps[0], maxWindow);
      StepTakes(f, steps[0], maxWindow, ptr);
      RunTakes(next, steps[1..], maxWindow, ptr);
      DeliveryProtocol.Associative(
        TakenOn(f.w.s, ptr), SentIn(f, steps[0], ptr), SentOn(next, steps[1..], maxWindow, ptr));
    }
  }

  /** In every run: what the client sent on an open channel, in order, is what the channel accepted from the session
      followed by what is held back; and while nothing is, it is exactly that. */
  lemma SentIsAcceptedOrHeld(self: Ptr, modulus: nat, window: nat, maxChannels: nat, maxWindow: nat,
                             steps: seq<FullStep>, id: nat)
    requires IsRun(self, modulus, window, maxChannels, maxWindow, steps)
    requires id in FullRun(FullStart(self, modulus, window, maxChannels), steps, maxWindow).w.s.active
    ensures var start := FullStart(self, modulus, window, maxChannels);
      var w := FullRun(start, steps, maxWindow).w;
      var info := w.s.active[id];
      && info.ptr in w.chans
      && (!info.out && !w.chans[info.ptr].closed ==>
            && SentOn(start, steps, maxWindow, info.ptr)
               == AcceptedFrom(w.chans[info.ptr].accepted, w.s.self) + Items(QueueOf(w.s, id))
            && (!info.blocked ==> QueueOf(w.s, id) == []))
  {
    hide FullInv, FullLegal, FullRun, FullStart, SentOn, AcceptedFrom, Items, FullNext;
    var start := FullStart(self, modulus, window, maxChannels);
    var w := FullRun(start, steps, maxWindow).w;
    StartIsFull(self, modulus, window, maxChannels, maxWindow);
    InboundInOrder(self, modulus, window, maxChannels, maxWindow, steps, id);
    RunTakes(start, steps, maxWindow, w.s.active[id].ptr);
    assert TakenOn(start.w.s, w.s.active[id].ptr) == [] by { NothingTaken(self, modulus, window, maxChannels); }
    assert [] + SentOn(start, steps, maxWindow, w.s.active[id].ptr) == SentOn(start, steps, maxWindow, w.s.active[id].ptr);
  }

  lemma NothingTaken(self: Ptr, modulus: nat, window: nat, maxChannels: nat)
    ensures forall ptr :: TakenOn(FullStart(self, modulus, window, maxChannels).w.s, ptr) == []
  {
  }
}
