/** The channel half of a session reaches the delivery half only through four operations: it queues
    events, asks for service, flags a disconnect and notes what came in. So everything proved in
    `DeliveryProtocol` holds of the whole session. */
module SessionHosting {
  import opened Basics
  import opened RouterEvents
  import opened Serials
  import opened Delivery
  import opened Channels
  import opened Sessions

  ghost predicate Hosted(d: State, next: State) {
    Ready(d) && exists ops :: next == HostAll(d, ops)
  }

  /** Whatever was queued meanwhile, service was asked for unless the client is blocked. */
  predicate Prompt(d: State, next: State) {
    && (next.outgoing != d.outgoing ==> next.requested || next.blocked)
    && (d.requested ==> next.requested) && (d.needDisconnect ==> next.needDisconnect)
    && next.blocked == d.blocked && next.sent == d.sent && next.window == d.window
    && next.waitReconnect == d.waitReconnect && next.needHandleReconnect == d.needHandleReconnect
  }

  lemma PromptTwice(d: State, mid: State, next: State)
    requires Prompt(d, mid) && Prompt(mid, next)
    ensures Prompt(d, next)
  {
  }

  lemma HostedSame(d: State)
    requires Ready(d)
    ensures Hosted(d, d)
  {
    assert HostAll(d, []) == d;
  }

  lemma HostedOne(d: State, op: HostOp)
    requires Ready(d)
    ensures Hosted(d, Host(d, op)) && Ready(Host(d, op))
  {
    assert [op][1..] == [];
    assert HostAll(d, [op]) == Host(d, op);
  }

  lemma {:induction false} HostAllAppend(d: State, first: seq<HostOp>, rest: seq<HostOp>)
    requires Ready(d)
    ensures HostAll(d, first + rest) == HostAll(HostAll(d, first), rest)
    decreases first
  {
    if first == [] {
      assert first + rest == rest;
    } else {
      assert (first + rest)[1..] == first[1..] + rest;
      HostAllAppend(Host(d, first[0]), first[1..], rest);
    }
  }

  lemma HostedTwice(d: State, mid: State, next: State)
    requires Hosted(d, mid) && Hosted(mid, next)
    ensures Hosted(d, next)
  {
    var first :| mid == HostAll(d, first);
    var rest :| next == HostAll(mid, rest);
    HostAllAppend(d, first, rest);
  }

  lemma EnqueueGrows(d: State, channelId: nat, data: EventData)
    requires Ready(d)
    ensures d.log <= Enqueue(d, channelId, data).log
  {
    hide NextSerial;
  }

  lemma HostGrows(d: State, op: HostOp)
    requires Ready(d)
    ensures d.log <= Host(d, op).log
  {
    hide Enqueue, NextSerial;
    if op.HostEnqueue? { EnqueueGrows(d, op.channelId, op.data); }
  }

  lemma {:induction false} HostedGrows(d: State, ops: seq<HostOp>)
    requires Ready(d)
    ensures d.log <= HostAll(d, ops).log && Ready(HostAll(d, ops))
    decreases ops
  {
    hide Host, Ready;
    if ops != [] {
      HostGrows(d, ops[0]);
      HostedGrows(Host(d, ops[0]), ops[1..]);
    }
  }

  lemma LogGrows(d: State, next: State)
    requires Hosted(d, next)
    ensures d.log <= next.log && Ready(next)
  {
    var ops :| next == HostAll(d, ops);
    HostedGrows(d, ops);
  }

  lemma RequestIsHosted(d: State)
    requires Ready(d)
    ensures Hosted(d, Request(d)) && Hosted(d, RequestUnlessBlocked(d)) && Hosted(d, MarkDisconnect(d))
    ensures Prompt(d, RequestUnlessBlocked(d)) && Prompt(d, MarkDisconnect(d))
  {
    hide Hosted;
    HostedSame(d);
    HostedOne(d, HostRequest);
    HostedOne(d, HostNeedDisconnect);
    HostedOne(Host(d, HostNeedDisconnect), HostRequest);
    HostedTwice(d, Host(d, HostNeedDisconnect), MarkDisconnect(d));
  }

  lemma EnqueueIsHosted(d: State, channelId: nat, data: EventData)
    requires Ready(d)
    ensures var queued := Enqueue(d, channelId, data);
      Hosted(d, queued) && Ready(queued) && Hosted(d, RequestUnlessBlocked(queued))
    ensures Prompt(d, RequestUnlessBlocked(Enqueue(d, channelId, data)))
    ensures d.requested || d.blocked ==> Prompt(d, Enqueue(d, channelId, data))
  {
    hide Hosted;
    HostedOne(d, HostEnqueue(channelId, data));
    RequestIsHosted(Enqueue(d, channelId, data));
    HostedTwice(d, Enqueue(d, channelId, data), RequestUnlessBlocked(Enqueue(d, channelId, data)));
  }

  lemma NotingIsHosted(d: State, serial: nat)
    requires Ready(d)
    ensures Hosted(d, NoteIncoming(d, serial))
    ensures Prompt(d, NoteIncoming(d, serial))
  {
    hide Hosted;
    var noted := Host(d, HostIncoming(serial));
    HostedOne(d, HostIncoming(serial));
    RequestIsHosted(noted);
    HostedTwice(d, noted, NoteIncoming(d, serial));
  }

  // ----- The session's operations -----

  lemma CallIsHosted(s: Session, ptr: Ptr, status: Flow)
    requires Ready(s.d)
    ensures Hosted(s.d, FlowCall(s, ptr, status).d)
    ensures Prompt(s.d, FlowCall(s, ptr, status).d)
  {
    hide Hosted, Enqueue, IdOf;
    HostedSame(s.d);
    var id := IdOf(s, ptr);
    RequestIsHosted(s.d);
    if id != 0 {
      IdOfIsActive(s, ptr);
      EnqueueIsHosted(s.d, 0, StatusData(s, id, StatusBlock));
      EnqueueIsHosted(s.d, 0, StatusData(s, id, StatusClose));
    }
  }

  lemma IdOfIsActive(s: Session, ptr: Ptr)
    ensures IdOf(s, ptr) != 0 ==> IdOf(s, ptr) in s.active
  {
  }

  lemma StepIsHosted(w: World, ptr: Ptr, after: Channel)
    requires Ready(w.s.d) && ptr in w.chans
    ensures Hosted(w.s.d, ChannelStep(w, ptr, after).s.d)
    ensures Prompt(w.s.d, ChannelStep(w, ptr, after).s.d)
  {
    hide Hosted;
    HostedSame(w.s.d);
    CallIsHosted(w.s, ptr, after.lastStatus);
  }

  lemma DataIsHosted(s: Session, ptr: Ptr, item: EventData)
    requires Ready(s.d)
    ensures Hosted(s.d, ChannelData(s, ptr, item).d)
    ensures Prompt(s.d, ChannelData(s, ptr, item).d)
  {
    hide Hosted, Enqueue;
    HostedSame(s.d);
    EnqueueIsHosted(s.d, IdOf(s, ptr), item);
  }

  lemma AnnounceIsHosted(d: State, id: nat, out: bool, blocked: bool)
    requires Ready(d)
    ensures Hosted(d, Announce(d, id, out, blocked))
    ensures Prompt(d, Announce(d, id, out, blocked))
  {
    hide Hosted, Enqueue;
    var opening := Status(StatusChange(StatusOpen, out, id));
    EnqueueIsHosted(d, 0, opening);
    var announced := RequestUnlessBlocked(Enqueue(d, 0, opening));
    EnqueueIsHosted(announced, 0, Status(StatusChange(if blocked then StatusBlock else StatusUnblock, out, id)));
    HostedTwice(d, announced, Announce(d, id, out, blocked));
    PromptTwice(d, announced, Announce(d, id, out, blocked));
  }

  lemma QueueMessageIsHosted(s: Session, id: nat, event: RouterEvent)
    requires Ready(s.d)
    ensures Hosted(s.d, QueueMessage(s, id, event).d)
    ensures Prompt(s.d, QueueMessage(s, id, event).d)
  {
    hide Hosted;
    HostedSame(s.d);
    RequestIsHosted(s.d);
    HostedOne(s.d, HostNeedDisconnect);
  }

  lemma HandleIsHosted(w: World, id: nat, event: RouterEvent, reaction: Reaction)
    requires Ready(w.s.d) && id in w.s.active && w.s.active[id].ptr in w.chans
    ensures Hosted(w.s.d, Handle(w, id, event, reaction).s.d)
    ensures Prompt(w.s.d, Handle(w, id, event, reaction).s.d)
  {
    hide Hosted, ChannelStep, SendItem;
    var ptr := w.s.active[id].ptr;
    HostedSame(w.s.d);
    RequestIsHosted(w.s.d);
    QueueMessageIsHosted(w.s, id, event);
    var offered := ChannelStep(w, ptr, SendItem(w.chans[ptr], w.s.self, event.data, reaction));
    StepIsHosted(w, ptr, SendItem(w.chans[ptr], w.s.self, event.data, reaction));
    LogGrows(w.s.d, offered.s.d);
    if id in offered.s.active {
      var flagged := offered.s.(active := offered.s.active[id := offered.s.active[id].(blocked := true)]);
      QueueMessageIsHosted(flagged, id, event);
      HostedTwice(w.s.d, flagged.d, QueueMessage(flagged, id, event).d);
    }
  }

  lemma ClientDataIsHosted(w: World, id: nat, serial: nat, item: EventData, reaction: Reaction)
    requires Known(w)
    ensures Hosted(w.s.d, ClientData(w, id, serial, item, reaction).s.d)
    ensures Prompt(w.s.d, ClientData(w, id, serial, item, reaction).s.d)
  {
    hide Hosted, Handle, NoteIncoming;
    HostedSame(w.s.d);
    RequestIsHosted(w.s.d);
    if id in w.s.active && !w.s.active[id].out {
      NotingIsHosted(w.s.d, serial);
      LogGrows(w.s.d, NoteIncoming(w.s.d, serial));
      var received := Receive(w, id, serial, item);
      HandleIsHosted(received, id, RouterEvent(serial, 0, item), reaction);
      HostedTwice(w.s.d, received.s.d, Handle(received, id, RouterEvent(serial, 0, item), reaction).s.d);
    }
  }

  // ----- Its service -----

  lemma {:induction false} DrainQueueIsHosted(w: World, id: nat, reactions: seq<Reaction>, k: nat)
    requires Ready(w.s.d) && id in w.s.active && w.s.active[id].ptr in w.chans
    ensures Hosted(w.s.d, DrainQueue(w, id, reactions, k).s.d)
    decreases |QueueOf(w.s, id)|
  {
    hide Hosted, ChannelStep, SendItem;
    HostedSame(w.s.d);
    if QueueOf(w.s, id) != [] {
      var ptr, reaction := w.s.active[id].ptr, ReactionAt(reactions, k);
      var offered := OfferHead(w, id, reaction);
      StepIsHosted(w, ptr, SendItem(w.chans[ptr], w.s.self, QueueOf(w.s, id)[0].data, reaction));
      if Accepts(w.chans[ptr]) {
        var popped := offered.(s := SetQueue(offered.s, id, QueueOf(offered.s, id)[1..]));
        DrainQueueIsHosted(popped, id, reactions, k + 1);
        HostedTwice(w.s.d, popped.s.d, DrainQueue(popped, id, reactions, k + 1).s.d);
      }
    }
  }

  lemma FinishIsHosted(w: World, id: nat)
    requires Ready(w.s.d) && id in w.s.active && w.s.active[id].ptr in w.chans
    ensures Hosted(w.s.d, FinishDrain(w, id).s.d)
  {
    hide Hosted, Enqueue;
    HostedSame(w.s.d);
    var updated := w.s.(active := w.s.active[id := w.s.active[id].(blocked := w.chans[w.s.active[id].ptr].blocked)]);
    EnqueueIsHosted(w.s.d, 0, StatusData(updated, id, StatusUnblock));
  }

  lemma DrainChannelIsHosted(w: World, id: nat, reactions: seq<Reaction>)
    requires Known(w)
    ensures Hosted(w.s.d, DrainChannel(w, id, reactions).0.s.d)
  {
    hide Hosted, FinishDrain, DrainQueue;
    HostedSame(w.s.d);
    if id in w.s.active {
      var ptr := w.s.active[id].ptr;
      var locked := w.(chans := w.chans[ptr := Lock(w.chans[ptr])]);
      DrainQueueIsHosted(locked, id, reactions, 0);
      var drained := DrainQueue(locked, id, reactions, 0);
      FinishIsHosted(drained, id);
      HostedTwice(w.s.d, drained.s.d, FinishDrain(drained, id).s.d);
    }
  }

  lemma {:induction false} DrainAllIsHosted(w: World, ids: seq<nat>, reactions: seq<seq<Reaction>>)
    requires Known(w)
    ensures Hosted(w.s.d, DrainAll(w, ids, reactions).0.s.d)
    decreases ids
  {
    hide Hosted, DrainChannel, Known;
    if ids == [] {
      HostedSame(w.s.d) by { KnownIsReady(w); }
    } else {
      var first := if reactions == [] then [] else reactions[0];
      var rest := if reactions == [] then [] else reactions[1..];
      DrainChannelIsHosted(w, ids[0], first);
      var next := DrainChannel(w, ids[0], first).0;
      DrainAllIsHosted(next, ids[1..], rest);
      HostedTwice(w.s.d, next.s.d, DrainAll(next, ids[1..], rest).0.s.d);
    }
  }

  lemma KnownIsReady(w: World)
    requires Known(w)
    ensures Ready(w.s.d)
  {
  }

  /** One service of the session is one service of its delivery half. */
  lemma ServiceIsHosted(w: World, reactions: seq<seq<Reaction>>, codes: seq<SendCode>) returns (ops: seq<HostOp>)
    requires Known(w)
    ensures var (next, wire) := ProcessPending(w, reactions, codes);
      (next.s.d, wire) == Service(w.s.d, ops, codes)
  {
    hide SendPhase, DrainAll, DeleteAll, UnregisterAll;
    ops := [];
    if !w.s.d.needDisconnect {
      var begun := w.(s := w.s.(d := w.s.d.(requested := false)));
      var deleted := ProcessDeletes(begun);
      var scheduled := deleted.(s := deleted.s.(pendingUnblock := []));
      DrainAllIsHosted(scheduled, deleted.s.pendingUnblock, reactions);
      ops :| DrainAll(scheduled, deleted.s.pendingUnblock, reactions).0.s.d == HostAll(deleted.s.d, ops);
    }
  }
}
