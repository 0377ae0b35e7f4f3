/** What the steps of a whole run do to the session's tables: channels come when they are added and go in services;
    everything else leaves them in place. */
module StepEffects {
  import opened Basics
  import opened RouterEvents
  import opened Delivery
  import opened DeliveryProtocol
  import opened Channels
  import opened Sessions
  import opened SessionInvariant
  import opened SessionSteps
  import opened SessionService
  import opened SessionHosting
  import opened SessionEffects
  import opened SessionRuns

  /** The session works on the same channels, gave out no id, and takes back no closing. */
  ghost predicate Stays(s: Session, t: Session) {
    && t.self == s.self && t.lastChannelId == s.lastChannelId && t.maxChannels == s.maxChannels
    && t.active.Keys == s.active.Keys
    && (forall id :: id in s.active ==> SameEntry(s.active[id], t.active[id]))
  }

  lemma SteadyStays(s: Session, t: Session)
    requires Steady(s, t)
    ensures Stays(s, t) && t.taken == s.taken
  {
  }

  lemma SameStays(s: Session, t: Session)
    requires t == s.(d := t.d)
    ensures Stays(s, t) && t.taken == s.taken
  {
  }

  /** A service that serves. */
  predicate Serves(f: Full, step: FullStep) {
    step.Serviced? && !f.w.s.d.needDisconnect
  }

  lemma CallStays(w: World, ptr: Ptr, op: ChannelOp)
    requires Ready(w.s.d) && ptr in w.chans && Allowed(w.chans[ptr], op)
    ensures var t := ForeignNext(w, ptr, op).s; Stays(w.s, t) && t.taken == w.s.taken
  {
    hide ChannelStep, Apply, SendItem, Enqueue, Stays;
    if Arrives(w, ptr, op) {
      SameStays(w.s, ChannelData(w.s, ptr, op.item));
    } else {
      StepSteady(w, ptr, Apply(w.chans[ptr], op));
      SteadyStays(w.s, ForeignNext(w, ptr, op).s);
    }
  }

  lemma CloseStays(w: World, id: nat)
    requires Known(w)
    ensures var t := RequestClose(w, id).s; Stays(w.s, t) && t.taken == w.s.taken
  {
    hide ChannelStep, Close, Stays, Steady;
    SameStays(w.s, w.s);
    if id in w.s.active {
      StepSteady(w, w.s.active[id].ptr, Close(w.chans[w.s.active[id].ptr]));
      SteadyStays(w.s, RequestClose(w, id).s);
    }
  }

  lemma CalmStays(w: World, next: World)
    requires Calm(w, next)
    ensures Stays(w.s, next.s) && next.s.taken == w.s.taken
  {
    hide Steady, Stays;
    SteadyStays(w.s, next.s);
  }

  /** What was taken is what was noted on receipt. */
  lemma MessageStays(w: World, id: nat, serial: nat, item: EventData, reaction: Reaction)
    requires Agreed(w)
    ensures Known(w) && Stays(w.s, ClientData(w, id, serial, item, reaction).s)
    ensures ClientData(w, id, serial, item, reaction).s.taken ==
      if id in w.s.active && !w.s.active[id].out then Receive(w, id, serial, item).s.taken else w.s.taken
  {
    hide Core, AllConserved, Calm, Handle, NoteIncoming, Release;
    assert Known(w) by { CoreIsKnown(w, {}, 0); }
    if id in w.s.active && !w.s.active[id].out {
      ClientDataCalm(w, id, serial, item, reaction);
      CalmStays(Receive(w, id, serial, item), Spared(ClientData(w, id, serial, item, reaction), w.s.d.needDisconnect));
    } else {
      SameStays(w.s, ClientData(w, id, serial, item, reaction).s);
    }
  }

  /** Channels come and go in other steps only. */
  lemma StepStays(f: Full, step: FullStep, maxWindow: nat)
    requires FullInv(f, maxWindow) && FullEnabled(f, step, maxWindow) && Known(f.w)
    requires !step.ChannelAdded? && !Serves(f, step)
    ensures Stays(f.w.s, FullNext(f, step, maxWindow).w.s)
    ensures !step.MessageArrived? ==> FullNext(f, step, maxWindow).w.s.taken == f.w.s.taken
  {
    hide Agreed, Inv, ClientData, RequestClose, ForeignNext, Next, Stays;
    match step
    case ChannelCreated(ptr, kind) => SameStays(f.w.s, f.w.s);
    case ChannelCalled(ptr, op) => CallStays(f.w, ptr, op);
    case MessageArrived(id, serial, item, reaction) => MessageStays(f.w, id, serial, item, reaction);
    case CloseRequested(id) => CloseStays(f.w, id);
    case Serviced(_, _) => SameStays(f.w.s, FullNext(f, step, maxWindow).w.s);
    case Delivered(inner) => SameStays(f.w.s, FullNext(f, step, maxWindow).w.s);
  }

  /** A service that serves takes exactly the channels that are due. */
  lemma ServingRemains(f: Full, step: FullStep, maxWindow: nat)
    requires FullInv(f, maxWindow) && Known(f.w) && Serves(f, step) && FullEnabled(f, step, maxWindow)
    ensures Remains(f.w, FullNext(f, step, maxWindow).w)
  {
    hide Agreed, Inv, ProcessPending, Remains, OnlyTold;
    var worked := ServiceRemains(f.w, step.reactions, step.codes);
  }

  /** Adding a channel gives out one id, and nothing else changes in the tables. */
  lemma AddingAdds(f: Full, ptr: Ptr, out: bool, maxWindow: nat)
    requires FullInv(f, maxWindow) && FullEnabled(f, ChannelAdded(ptr, out), maxWindow) && Known(f.w)
    ensures var t := FullNext(f, ChannelAdded(ptr, out), maxWindow).w.s;
      && ptr in f.w.chans && t.lastChannelId !in f.w.s.active && 0 < t.lastChannelId < f.w.s.maxChannels
      && t.active == f.w.s.active[t.lastChannelId := t.active[t.lastChannelId]]
      && t.active[t.lastChannelId].ptr == ptr && t.active[t.lastChannelId].out == out
      && t.self == f.w.s.self && t.maxChannels == f.w.s.maxChannels && t.taken == f.w.s.taken
  {
    hide Inv, Good, AllConserved, AllLinked, Tables, Register, Announce, IdOf, OthersUnheld;
    AddShape(f.w, ptr, out);
  }
}
