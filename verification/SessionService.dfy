/** One service of a session (`process_pending`): closed channels are let go, backlogs are handed over,
    and whatever the connection takes is sent. It keeps everything the session and its channels agree
    on, makes every call on a live channel, and never meets the states the code calls unknown. */
module SessionService {
  import opened Basics
  import opened RouterEvents
  import opened Delivery
  import opened Channels
  import opened ChannelRuns
  import opened Sessions
  import opened SessionInvariant
  import opened SessionSteps

  // ----- Letting a channel go -----

  /** The calls `unregister_channel` makes, in order. */
  function UnregisterCalls(self: Ptr, out: bool): seq<ChannelOp> {
    [OpUnregisterListener(self), OpClose] + (if out then [OpUnregisterReceiver(self)] else [])
    + [OpUnregisterHolder(self)]
  }

  /** Giving up the listening keeps the channel alive. */
  lemma FirstUnregister(c: Channel, self: Ptr, out: bool)
    requires Good(c) && Held(self, out, c) && self > 0
    ensures var mid := UnregisterListener(c, self);
      && mid == c.(listeners := RemoveFirst(c.listeners, self), holders := c.holders - multiset{self})
      && mid.holders[self] == c.holders[self] - 1 && self !in mid.listeners
  {
    hide StatusGood;
    RemoveFirstKeeps(c.listeners, self);
    assert (c.holders - multiset{self})[self] > 0;
  }

  /** Closing does not call back the one who just stopped listening, and deletes nothing it holds. */
  lemma ThenClose(c: Channel, self: Ptr)
    requires c.holders[self] > 0
    ensures Close(c) == InternalClose(c)
    ensures Close(c) == c.(closed := true, lastStatus := Close(c).lastStatus, inCallback := Close(c).inCallback,
                           broadcasts := Close(c).broadcasts)
    ensures Close(c).broadcasts == c.broadcasts || Close(c).broadcasts == c.broadcasts + [(FlowClosed, c.listeners)]
  {
  }

  lemma ThenReceiver(c: Channel, self: Ptr, out: bool)
    requires self > 0 && c.closed && c.lastStatus == FlowClosed
    requires c.holders[self] == 1 + (if c.recvCallback == self then 1 else 0) && (c.recvCallback == self ==> out)
    ensures var mid := if out then UnregisterReceiver(c, self) else c;
      && mid == c.(recvCallback := if c.recvCallback == self then 0 else c.recvCallback, holders := mid.holders)
      && mid.holders[self] == 1 && (forall p :: p != self ==> mid.holders[p] == c.holders[p])
  {
  }

  /** The last call, which deletes the channel when that was the last reference. */
  lemma ThenHolder(c: Channel, self: Ptr)
    requires self > 0 && c.holders[self] == 1 && !c.inCallback && c.destroyed == 0
    ensures var next := UnregisterHolder(c, self);
      && next == c.(holders := next.holders, destroyed := next.destroyed)
      && next.holders[self] == 0 && (forall p :: p != self ==> next.holders[p] == c.holders[p])
      && next.destroyed <= 1 && (next.destroyed == 1 <==> Unused(next))
  {
  }

  /** What remains of a channel that was let go. */
  ghost predicate Released(c: Channel, self: Ptr, next: Channel) {
    && Unheld(self, next) && next.closed
    && (next.destroyed == 1 <==> Unused(next))
    && (forall p :: p != self ==> next.holders[p] == c.holders[p])
    && (next.broadcasts == c.broadcasts
        || (|next.broadcasts| == |c.broadcasts| + 1 && self !in next.broadcasts[|c.broadcasts|].1))
    && next.kind == c.kind && next.accepted == c.accepted && next.locks == c.locks
  }

  lemma UnregisterReleases(c: Channel, self: Ptr, out: bool)
    requires Good(c) && Held(self, out, c) && self > 0
    ensures Released(c, self, Unregister(c, self, out))
    ensures var c1 := UnregisterListener(c, self);
      var c2 := Close(c1);
      var c3 := if out then UnregisterReceiver(c2, self) else c2;
      && c1.destroyed == 0 && c2.destroyed == 0 && c3.destroyed == 0
      && Roles(c3, self) < c3.holders[self]
  {
    hide RefsGood, UnregisterListener, Close, UnregisterReceiver, UnregisterHolder, Unused, InternalClose;
    var c1 := UnregisterListener(c, self);
    FirstUnregister(c, self, out);
    ThenClose(c1, self);
    ClosedStatus(c1);
    var c2 := Close(c1);
    ThenReceiver(c2, self, out);
    var c3 := if out then UnregisterReceiver(c2, self) else c2;
    ThenHolder(c3, self);
  }

  lemma ClosedStatus(c: Channel)
    ensures InternalClose(c).lastStatus == FlowClosed && (!c.inCallback ==> !InternalClose(c).inCallback)
  {
  }

  /** All of `unregister_channel`, on a channel the session works on: each call is made on a live
      channel, the session is not called back, its references are gone and nobody else's are, and the
      channel has deleted itself exactly when nobody refers to it any more. */
  lemma UnregisterLetsGo(c: Channel, self: Ptr, out: bool)
    requires Good(c) && Held(self, out, c) && self > 0
    ensures AllAllowed(c, UnregisterCalls(self, out))
    ensures Unregister(c, self, out) == ApplyAll(c, UnregisterCalls(self, out))
    ensures Released(c, self, Unregister(c, self, out)) && Good(Unregister(c, self, out))
  {
    hide Good, UnregisterListener, Close, UnregisterReceiver, UnregisterHolder, Held, Released, Roles;
    UnregisterReleases(c, self, out);
    var calls := UnregisterCalls(self, out);
    var c1 := UnregisterListener(c, self);
    var c2 := Close(c1);
    var c3 := if out then UnregisterReceiver(c2, self) else c2;
    var last := [OpUnregisterHolder(self)];
    assert last[1..] == [];
    assert c.destroyed == 0 by { HeldIsLive(c, self, out); }
    assert AllAllowed(c3, last) && ApplyAll(c3, last) == UnregisterHolder(c3, self);
    if out {
      Prepend(c2, OpUnregisterReceiver(self), last);
      Prepend(c1, OpClose, [OpUnregisterReceiver(self)] + last);
      Prepend(c, OpUnregisterListener(self), [OpClose] + ([OpUnregisterReceiver(self)] + last));
      assert calls == [OpUnregisterListener(self)] + ([OpClose] + ([OpUnregisterReceiver(self)] + last));
    } else {
      Prepend(c1, OpClose, last);
      Prepend(c, OpUnregisterListener(self), [OpClose] + last);
      assert calls == [OpUnregisterListener(self)] + ([OpClose] + last);
    }
    AllKeepGood(c, calls);
  }

  lemma HeldIsLive(c: Channel, self: Ptr, out: bool)
    requires Held(self, out, c)
    ensures c.destroyed == 0
  {
  }

  // ----- `process_pending_channel_deletes` -----

  /** One channel: dropped from the tables and let go. */
  function DeleteNext(w: World): World
    requires w.s.pendingDelete != []
    requires var id := w.s.pendingDelete[0]; id in w.s.active && w.s.active[id].ptr in w.chans
  {
    var id := w.s.pendingDelete[0];
    var info := w.s.active[id];
    World(DeleteChannel(w.s, id).(pendingDelete := w.s.pendingDelete[1..]),
          w.chans[info.ptr := Unregister(w.chans[info.ptr], w.s.self, info.out)])
  }

  /** One entry is gone; the channel it named knows nothing of the session any more. */
  ghost predicate DropsOne(w: World, next: World, id: nat)
    requires id in w.s.active
  {
    var ptr := w.s.active[id].ptr;
    && next.s == w.s.(active := w.s.active - {id}, queues := w.s.queues - {id},
                      pendingUnblock := RemoveFirst(w.s.pendingUnblock, id),
                      pendingDelete := RemoveFirst(w.s.pendingDelete, id))
    && ptr in next.chans && next.chans.Keys == w.chans.Keys
    && (forall other :: other in w.chans && other != ptr ==> next.chans[other] == w.chans[other])
    && Good(next.chans[ptr]) && Unheld(w.s.self, next.chans[ptr]) && next.chans[ptr].closed
  }

  lemma DropTables(w: World, next: World, id: nat)
    requires Tables(w.s) && id in w.s.active && DropsOne(w, next, id)
    ensures Tables(next.s)
    ensures forall p :: IdOf(next.s, p) == if p == w.s.active[id].ptr then 0 else IdOf(w.s, p)
  {
    hide Good, Unheld;
    RemoveFirstKeeps(w.s.pendingUnblock, id);
    RemoveFirstKeeps(w.s.pendingDelete, id);
    forall p ensures IdOf(next.s, p) == if p == w.s.active[id].ptr then 0 else IdOf(w.s, p) {
      assert forall i :: i in next.s.active ==> next.s.active[i] == w.s.active[i];
      assert IdOf(w.s, p) != 0 && p != w.s.active[id].ptr ==> IdOf(w.s, p) in next.s.active;
    }
  }

  lemma DropLinked(w: World, next: World, id: nat)
    requires Tables(w.s) && AllLinked(w, {}, 0) && id in w.s.active && DropsOne(w, next, id)
    ensures AllLinked(next, {}, 0)
  {
    hide Good, Held, Unheld;
    RemoveFirstKeeps(w.s.pendingUnblock, id);
    forall other | other in next.s.active
      ensures next.s.active[other].ptr in next.chans
      ensures Linked(next.s, other, next.chans[next.s.active[other].ptr], {}, 0)
    {
      assert Linked(w.s, other, w.chans[w.s.active[other].ptr], {}, 0);
      assert QueueOf(next.s, other) == QueueOf(w.s, other);
    }
  }

  lemma DropUnheld(w: World, next: World, id: nat)
    requires Tables(w.s) && OthersUnheld(w) && id in w.s.active && DropsOne(w, next, id)
    ensures OthersUnheld(next)
  {
    hide Good, Unheld;
    DropTables(w, next, id);
  }

  lemma DropConservedOn(w: World, next: World, id: nat, other: nat)
    requires Tables(w.s) && id in w.s.active && other in w.s.active && other != id && DropsOne(w, next, id)
    requires w.s.active[other].ptr in w.chans && ConservedOn(w.s, other, w.chans[w.s.active[other].ptr])
    ensures ConservedOn(next.s, other, next.chans[next.s.active[other].ptr])
  {
  }

  lemma DropConserved(w: World, next: World, id: nat)
    requires Tables(w.s) && AllConserved(w) && id in w.s.active && DropsOne(w, next, id)
    ensures AllConserved(next)
  {
    hide Good, Unheld, Conserved, ConservedOn, IdOf, Tables;
    DropTables(w, next, id);
    ClosedIsConserved(w.s.self, TakenOn(next.s, w.s.active[id].ptr), next.chans[w.s.active[id].ptr]);
    forall other | other in next.s.active
      ensures next.s.active[other].ptr in next.chans
      ensures ConservedOn(next.s, other, next.chans[next.s.active[other].ptr])
    {
      DropConservedOn(w, next, id, other);
    }
    forall p | p in next.chans && IdOf(next.s, p) == 0
      ensures Conserved(next.s.self, false, TakenOn(next.s, p), [], next.chans[p])
    {
      assert TakenOn(next.s, p) == TakenOn(w.s, p);
    }
  }

  /** A closed channel owes nothing. */
  lemma ClosedIsConserved(self: Ptr, taken: seq<EventData>, c: Channel)
    requires c.closed
    ensures Conserved(self, false, taken, [], c)
  {
  }

  lemma DropKeeps(w: World, next: World, id: nat)
    requires Agreed(w) && id in w.s.active && DropsOne(w, next, id)
    ensures Agreed(next)
  {
    hide Good, Held, Linked, AllConserved, IdOf;
    DropTables(w, next, id);
    DropLinked(w, next, id);
    DropUnheld(w, next, id);
    DropConserved(w, next, id);
  }

  lemma DeleteNextDrops(w: World)
    requires Core(w, {}, 0) && w.s.pendingDelete != []
    ensures var id := w.s.pendingDelete[0];
      id in w.s.active && w.s.active[id].ptr in w.chans && DropsOne(w, DeleteNext(w), id)
  {
    hide Core, Good, Unheld, Unregister, Linked, Released;
    var id := w.s.pendingDelete[0];
    PendingIsActive(w);
    CoreAt(w, id, {}, 0);
    HeldAt(w, id);
    UnregisterLetsGo(w.chans[w.s.active[id].ptr], w.s.self, w.s.active[id].out);
    ReleasedIs(w.chans[w.s.active[id].ptr], w.s.self, Unregister(w.chans[w.s.active[id].ptr], w.s.self, w.s.active[id].out));
  }

  lemma ReleasedIs(c: Channel, self: Ptr, next: Channel)
    requires Released(c, self, next)
    ensures Unheld(self, next) && next.closed
  {
  }

  lemma PendingIsActive(w: World)
    requires Core(w, {}, 0) && w.s.pendingDelete != []
    ensures w.s.pendingDelete[0] in w.s.active && w.s.pendingDelete[0] != 0
  {
  }

  lemma HeldAt(w: World, id: nat)
    requires Core(w, {}, 0) && id in w.s.active
    ensures w.s.active[id].ptr in w.chans && Held(w.s.self, w.s.active[id].out, w.chans[w.s.active[id].ptr])
  {
    hide Held, FlowAgrees, Good, OthersUnheld, Tables;
    assert Linked(w.s, id, w.chans[w.s.active[id].ptr], {}, 0);
  }

  lemma {:induction false} DeleteAllIgnoresPending(s: Session, ids: seq<nat>, pending: seq<nat>)
    ensures DeleteAll(s.(pendingDelete := pending), ids)
      == (DeleteAll(s, ids).0.(pendingDelete := pending), DeleteAll(s, ids).1)
    decreases ids
  {
    if ids != [] {
      assert DeleteChannel(s.(pendingDelete := pending), ids[0]) == DeleteChannel(s, ids[0]).(pendingDelete := pending);
      DeleteAllIgnoresPending(DeleteChannel(s, ids[0]), ids[1..], pending);
    }
  }

  /** The two loops, first over the tables and then over the channels, come to one channel at a time. */
  lemma DeletesOneByOne(w: World)
    requires w.s.pendingDelete != []
    requires var id := w.s.pendingDelete[0]; id in w.s.active && w.s.active[id].ptr in w.chans
    ensures ProcessDeletes(w) == ProcessDeletes(DeleteNext(w))
  {
    hide DeleteChannel, Unregister;
    var id := w.s.pendingDelete[0];
    var rest := w.s.pendingDelete[1..];
    DeleteAllIgnoresPending(DeleteChannel(w.s, id), rest, rest);
    var removed := DeleteAll(DeleteChannel(w.s, id), rest).1;
    assert ([w.s.active[id]] + removed)[1..] == removed;
  }

  /** Every channel due for deletion is let go; what remains is agreed on. */
  lemma {:induction false} DeletesKeep(w: World)
    requires Agreed(w)
    ensures Agreed(ProcessDeletes(w)) && ProcessDeletes(w).s.pendingDelete == []
    ensures ProcessDeletes(w).s.d == w.s.d
    decreases |w.s.pendingDelete|
  {
    hide Core, AllConserved, DeleteChannel, Unregister;
    if w.s.pendingDelete != [] {
      var id := w.s.pendingDelete[0];
      DeleteNextDrops(w);
      DropKeeps(w, DeleteNext(w), id);
      DeletesOneByOne(w);
      DropIsSmaller(w, id);
      DeletesKeep(DeleteNext(w));
    }
  }

  lemma DropIsSmaller(w: World, id: nat)
    requires w.s.pendingDelete != [] && id == w.s.pendingDelete[0]
    requires id in w.s.active && w.s.active[id].ptr in w.chans
    ensures |DeleteNext(w).s.pendingDelete| < |w.s.pendingDelete| && DeleteNext(w).s.d == w.s.d
  {
  }

  // ----- `process_pending_unblocked_channels` -----

  /** While channel `current` is being handled; `todo` is what this service still has to handle. */
  ghost predicate Draining(w: World, todo: set<nat>, current: nat) {
    Core(w, todo, current) && AllConserved(w) && w.s.pendingUnblock == []
  }

  /** The head of a backlog is of the kind its channel takes, so the code's casts by event type are
      right and its branch for unrecognized events is dead. */
  lemma BacklogFits(w: World, id: nat)
    requires AllConserved(w) && id in w.s.active && w.s.active[id].ptr in w.chans
    ensures forall i :: 0 <= i < |QueueOf(w.s, id)| ==>
      Matches(w.chans[w.s.active[id].ptr].kind, QueueOf(w.s, id)[i].data)
  {
  }

  /** Being handled means the session holds messages back, so the channel is an inbound one. */
  lemma CurrentIsInbound(w: World, todo: set<nat>, current: nat)
    requires Core(w, todo, current) && current in w.s.active
    ensures !w.s.active[current].out && w.s.active[current].blocked
  {
    hide Good, Held, OthersUnheld, Tables;
    assert Linked(w.s, current, w.chans[w.s.active[current].ptr], todo, current);
  }

  /** A channel that is handed an item never opens. */
  lemma SendingNeverOpens(c: Channel, self: Ptr, item: EventData, reaction: Reaction)
    requires Good(c)
    ensures var c1 := SendItem(c, self, item, reaction);
      c1.lastStatus != c.lastStatus ==> !c1.lastStatus.FlowOpen?
    ensures !Accepts(c) ==> SendItem(c, self, item, reaction) == c
  {
  }

  lemma StepSchedulesNothing(w: World, ptr: Ptr, c1: Channel)
    requires Ready(w.s.d) && ptr in w.chans && w.s.pendingUnblock == []
    requires Broadcasts(w.chans[ptr], c1, w.s.self) ==> !c1.lastStatus.FlowOpen?
    ensures ChannelStep(w, ptr, c1).s.pendingUnblock == []
  {
  }

  lemma SameForBroadcasts(self: Ptr, c: Channel, c1: Channel)
    requires SameFor(self, c, c1.(accepted := c.accepted))
    ensures Broadcasts(c, c1, self) ==> c1.lastStatus != c.lastStatus
  {
  }

  /** One turn of the drain loop that succeeds: the head is handed over and dropped. */
  ghost function DrainOne(w: World, id: nat, reaction: Reaction): World
    requires Ready(w.s.d) && id in w.s.active && w.s.active[id].ptr in w.chans && QueueOf(w.s, id) != []
  {
    var offered := OfferHead(w, id, reaction);
    offered.(s := SetQueue(offered.s, id, QueueOf(offered.s, id)[1..]))
  }

  lemma OfferHeadKeeps(w: World, id: nat, reaction: Reaction, todo: set<nat>)
    requires Draining(w, todo, id) && id in w.s.active && id !in todo && QueueOf(w.s, id) != []
    ensures w.s.active[id].ptr in w.chans && Ready(w.s.d)
    ensures var next, ptr := OfferHead(w, id, reaction), w.s.active[id].ptr;
      && Core(next, todo, id) && TouchesOnly(w, next, id) && next.s.pendingUnblock == []
      && QueueOf(next.s, id) == QueueOf(w.s, id) && next.s.self == w.s.self
      && TakenOn(next.s, ptr) == TakenOn(w.s, ptr)
      && (!Accepts(w.chans[ptr]) ==> next == w)
      && AcceptedFrom(next.chans[ptr].accepted, w.s.self)
         == AcceptedFrom(w.chans[ptr].accepted, w.s.self)
            + (if Accepts(w.chans[ptr]) then [QueueOf(w.s, id)[0].data] else [])
      && next.chans[ptr].kind == w.chans[ptr].kind && (w.chans[ptr].closed ==> next.chans[ptr].closed)
  {
    hide Core, Linked, TouchesOnly, Tables, AllConserved, SendItem, Good, SameFor, Accepts, AcceptedFrom, FlowCall,
      Broadcasts;
    CoreAt(w, id, todo, id);
    var ptr := w.s.active[id].ptr;
    var c, item := w.chans[ptr], QueueOf(w.s, id)[0].data;
    SendKeeps(w, id, item, reaction, todo, id);
    SentIsAccepted(c, w.s.self, item, reaction);
    SendChangesOnlyItems(c, w.s.self, item, reaction, w.s.self);
    SendingNeverOpens(c, w.s.self, item, reaction);
    SameForBroadcasts(w.s.self, c, SendItem(c, w.s.self, item, reaction));
    StepSchedulesNothing(w, ptr, SendItem(c, w.s.self, item, reaction));
    assert w.chans[ptr := c] == w.chans;
  }

  lemma PopEdits(s: Session, id: nat)
    requires Tables(s) && id in s.active && QueueOf(s, id) != []
    ensures var t := SetQueue(s, id, QueueOf(s, id)[1..]);
      Edits(s, t, id) && QueueOf(t, id) == QueueOf(s, id)[1..] && t == s.(queues := t.queues)
  {
  }

  /** What leaves the backlog is what the channel accepts next. */
  lemma PopConserves(self: Ptr, taken: seq<EventData>, queue: seq<RouterEvent>, c: Channel, c1: Channel)
    requires queue != [] && Conserved(self, false, taken, queue, c)
    requires AcceptedFrom(c1.accepted, self) == AcceptedFrom(c.accepted, self) + [queue[0].data]
    requires c1.kind == c.kind && (c.closed ==> c1.closed)
    ensures Conserved(self, false, taken, queue[1..], c1)
  {
  }

  lemma DrainOneKeeps(w: World, id: nat, reaction: Reaction, todo: set<nat>)
    requires Draining(w, todo, id) && id in w.s.active && id !in todo && QueueOf(w.s, id) != []
    requires w.s.active[id].ptr in w.chans && Accepts(w.chans[w.s.active[id].ptr]) && Ready(w.s.d)
    ensures var next := DrainOne(w, id, reaction);
      && Draining(next, todo, id) && TouchesOnly(w, next, id)
      && QueueOf(next.s, id) == QueueOf(w.s, id)[1..]
  {
    hide Core, Linked, TouchesOnly, Tables, AllConserved, Conserved, AcceptedFrom, Edits, OfferHead, Accepts, SetQueue;
    CoreAt(w, id, todo, id);
    OfferHeadKeeps(w, id, reaction, todo);
    var ptr, offered := w.s.active[id].ptr, OfferHead(w, id, reaction);
    TouchesKeepsEntry(w, offered, id);
    CoreAt(offered, id, todo, id);
    PopEdits(offered.s, id);
    var next := DrainOne(w, id, reaction);
    CurrentIsInbound(w, todo, id);
    CurrentIsInbound(offered, todo, id);
    EditKeeps(offered, next.s, id, todo, id);
    TouchesTwice(w, offered, next, id);
    ConservedAt(w, id);
    PopConserves(w.s.self, TakenOn(w.s, ptr), QueueOf(w.s, id), w.chans[ptr], offered.chans[ptr]);
    assert ConservedOn(next.s, id, next.chans[ptr]);
    LocalConserved(w, next, id);
  }

  /** The drain loop ends with an empty backlog or with a channel that is not open. */
  lemma {:induction false} DrainQueueKeeps(w: World, id: nat, reactions: seq<Reaction>, k: nat, todo: set<nat>)
    requires Draining(w, todo, id) && id in w.s.active && id !in todo
    ensures w.s.active[id].ptr in w.chans && Ready(w.s.d)
    ensures var next := DrainQueue(w, id, reactions, k);
      && Draining(next, todo, id) && TouchesOnly(w, next, id)
      && (QueueOf(next.s, id) == [] || !Accepts(next.chans[w.s.active[id].ptr]))
    decreases |QueueOf(w.s, id)|
  {
    hide Core, Linked, TouchesOnly, Tables, AllConserved, Accepts, AcceptedFrom, OfferHead;
    CoreAt(w, id, todo, id);
    if QueueOf(w.s, id) == [] {
      TouchesNothing(w, id);
    } else {
      var reaction := ReactionAt(reactions, k);
      OfferHeadKeeps(w, id, reaction, todo);
      if Accepts(w.chans[w.s.active[id].ptr]) {
        DrainOneKeeps(w, id, reaction, todo);
        var mid := DrainOne(w, id, reaction);
        TouchesKeepsEntry(w, mid, id);
        DrainQueueKeeps(mid, id, reactions, k + 1, todo);
        TouchesTwice(w, mid, DrainQueue(mid, id, reactions, k + 1), id);
      } else {
        TouchesNothing(w, id);
      }
    }
  }

  lemma TouchesNothing(w: World, id: nat)
    requires Tables(w.s) && id in w.s.active
    ensures TouchesOnly(w, w, id)
  {
  }

  /** After the drain the channel's part of the invariant holds without the exception made for it. */
  lemma DrainedLinks(w: World, id: nat, todo: set<nat>)
    requires Core(w, todo, id) && id in w.s.active && id !in todo && w.s.pendingUnblock == []
    requires QueueOf(w.s, id) == [] || !Accepts(w.chans[w.s.active[id].ptr])
    ensures Linked(FinishDrain(w, id).s, id, w.chans[w.s.active[id].ptr], todo, 0)
    ensures !InUnknownState(w, id)
  {
    hide RefsGood, LifeGood, Held, OthersUnheld;
    var c := w.chans[w.s.active[id].ptr];
    assert Linked(w.s, id, c, todo, id) && Good(c);
    assert QueueOf(FinishDrain(w, id).s, id) == QueueOf(w.s, id);
  }

  lemma FlaggingTouches(w: World, id: nat, flag: bool, d: State)
    requires Tables(w.s) && id in w.s.active && w.s.active[id].ptr in w.chans
    ensures var t := w.s.(active := w.s.active[id := w.s.active[id].(blocked := flag)], d := d);
      TouchesOnly(w, w.(s := t), id) && QueueOf(t, id) == QueueOf(w.s, id)
  {
  }

  lemma FinishTouches(w: World, id: nat)
    requires Tables(w.s) && Ready(w.s.d) && id in w.s.active && w.s.active[id].ptr in w.chans
    ensures var next := FinishDrain(w, id);
      && TouchesOnly(w, next, id) && QueueOf(next.s, id) == QueueOf(w.s, id)
      && next.s.taken == w.s.taken && next.s.pendingUnblock == w.s.pendingUnblock
  {
    hide Tables, TouchesOnly, QueueOf, Enqueue;
    var next := FinishDrain(w, id);
    FlaggingTouches(w, id, w.chans[w.s.active[id].ptr].blocked, next.s.d);
    FlaggingTouches(w, id, w.s.active[id].blocked, w.s.d);
    assert w.s.active[id := w.s.active[id]] == w.s.active;
  }

  /** Once the drain of a channel is over, the agreement is whole again for it. */
  lemma FinishKeeps(w: World, id: nat, todo: set<nat>)
    requires Draining(w, todo, id) && id in w.s.active && id !in todo && id != 0
    requires w.s.active[id].ptr in w.chans && Ready(w.s.d)
    requires QueueOf(w.s, id) == [] || !Accepts(w.chans[w.s.active[id].ptr])
    ensures var next := FinishDrain(w, id);
      && Draining(next, todo, 0) && TouchesOnly(w, next, id) && !InUnknownState(w, id)
  {
    hide Linked, TouchesOnly, AllConserved, Accepts, Conserved, OthersUnheld, AllLinked, Good, FinishDrain;
    CoreAt(w, id, todo, id);
    var next := FinishDrain(w, id);
    DrainedLinks(w, id, todo);
    FinishTouches(w, id);
    TouchesKeepsEntry(w, next, id);
    CurrentIsInbound(w, todo, id);
    LocalCore(w, next, id, todo, id, todo, 0);
    ConservedAt(w, id);
    assert ConservedOn(next.s, id, next.chans[w.s.active[id].ptr]);
    LocalConserved(w, next, id);
  }

  /** Only the lock changed; for a channel that is due, being handled takes the place of being due. */
  lemma BeginDrain(w: World, id: nat, todo: set<nat>)
    requires Draining(w, todo + {id}, 0) && id in w.s.active && id !in todo && id != 0
    requires w.s.active[id].ptr in w.chans
    ensures var ptr := w.s.active[id].ptr;
      var locked := w.(chans := w.chans[ptr := Lock(w.chans[ptr])]);
      Draining(locked, todo, id) && TouchesOnly(w, locked, id)
  {
    hide TouchesOnly, AllConserved, OthersUnheld, AllLinked, StatusGood, RefsGood, AcceptedFrom, Items;
    var ptr := w.s.active[id].ptr;
    CoreAt(w, id, todo + {id}, 0);
    var locked := w.(chans := w.chans[ptr := Lock(w.chans[ptr])]);
    SilentTouches(w, id, Lock(w.chans[ptr]));
    LockedIsGood(w.chans[ptr]);
    LocalCore(w, locked, id, todo + {id}, 0, todo, id);
    ConservedAt(w, id);
    LocalConserved(w, locked, id);
  }

  lemma LockedIsGood(c: Channel)
    requires Good(c) && c.destroyed == 0
    ensures Good(Lock(c))
  {
  }

  lemma LockThenUnlock(c: Channel, self: Ptr)
    requires c.holders[self] > 0
    ensures Unlock(Lock(c)) == c
  {
  }

  /** A channel that closed before its turn is passed over. */
  lemma ClosedNeedsNoDrain(w: World, id: nat, todo: set<nat>)
    requires Draining(w, todo + {id}, 0) && id in w.s.active && id !in todo
    requires w.s.active[id].ptr in w.chans && w.chans[w.s.active[id].ptr].closed
    ensures Draining(w, todo, 0)
  {
    hide TouchesOnly, AllConserved, OthersUnheld, AllLinked, Good;
    CoreAt(w, id, todo + {id}, 0);
    TouchesNothing(w, id);
    LocalCore(w, w, id, todo + {id}, 0, todo, 0);
  }

  lemma DrainChannelKeeps(w: World, id: nat, reactions: seq<Reaction>, todo: set<nat>)
    requires Draining(w, todo + {id}, 0) && id in w.s.active && id !in todo && id != 0
    ensures Known(w)
    ensures var (next, invalid) := DrainChannel(w, id, reactions);
      Draining(next, todo, 0) && !invalid && TouchesOnly(w, next, id) && next.s.active.Keys == w.s.active.Keys
  {
    hide Core, Linked, TouchesOnly, Tables, AllConserved, ConservedOn, Accepts, Good, FinishDrain, DrainQueue,
      InUnknownState;
    CoreIsKnown(w, todo + {id}, 0);
    CoreAt(w, id, todo + {id}, 0);
    HeldIn(w, id, todo + {id}, 0);
    var ptr := w.s.active[id].ptr;
    var locked := w.(chans := w.chans[ptr := Lock(w.chans[ptr])]);
    if w.chans[ptr].closed {
      LockThenUnlock(w.chans[ptr], w.s.self);
      assert Release(locked, ptr).chans == w.chans;
      assert Release(locked, ptr) == w;
      TouchesNothing(w, id);
      ClosedNeedsNoDrain(w, id, todo);
    } else {
      BeginDrain(w, id, todo);
      DrainQueueKeeps(locked, id, reactions, 0, todo);
      var drained := DrainQueue(locked, id, reactions, 0);
      TouchesKeepsEntry(locked, drained, id);
      CoreAt(drained, id, todo, id);
      FinishKeeps(drained, id, todo);
      var finished := FinishDrain(drained, id);
      TouchesKeepsEntry(drained, finished, id);
      TouchesTwice(w, locked, drained, id);
      TouchesTwice(w, drained, finished, id);
      CoreAt(finished, id, todo, 0);
      ConservedAt(finished, id);
      ReleaseKeeps(w, finished, id, todo, 0);
    }
  }

  lemma HeldIn(w: World, id: nat, todo: set<nat>, current: nat)
    requires Core(w, todo, current) && id in w.s.active
    ensures w.s.active[id].ptr in w.chans && w.chans[w.s.active[id].ptr].holders[w.s.self] > 0
  {
    hide FlowAgrees, Good, OthersUnheld, Tables;
    assert Linked(w.s, id, w.chans[w.s.active[id].ptr], todo, current);
  }

  lemma {:induction false} DrainAllKeeps(w: World, ids: seq<nat>, reactions: seq<seq<Reaction>>)
    requires Draining(w, SetOf(ids), 0)
    requires NoRepeats(ids) && forall id :: id in ids ==> id in w.s.active && id != 0
    ensures Known(w)
    ensures var (done, invalid) := DrainAll(w, ids, reactions); Draining(done, {}, 0) && invalid == {}
    decreases ids
  {
    hide Draining, DrainChannel;
    assert Known(w) by { DrainingIsKnown(w, SetOf(ids)); }
    if ids == [] {
      assert SetOf(ids) == {};
    } else {
      assert NoRepeats(ids[1..]) && forall id :: id in ids[1..] ==> id in ids;
      assert SetOf(ids) == SetOf(ids[1..]) + {ids[0]};
      var first := if reactions == [] then [] else reactions[0];
      DrainChannelKeeps(w, ids[0], first, SetOf(ids[1..]));
      var next := DrainChannel(w, ids[0], first).0;
      assert forall id :: id in ids[1..] ==> id in next.s.active;
      DrainAllKeeps(next, ids[1..], if reactions == [] then [] else reactions[1..]);
    }
  }

  lemma DrainingIsKnown(w: World, todo: set<nat>)
    requires Draining(w, todo, 0)
    ensures Known(w)
  {
  }

  lemma ScheduleLinks(w: World)
    requires AllLinked(w, {}, 0)
    ensures AllLinked(w.(s := w.s.(pendingUnblock := [])), SetOf(w.s.pendingUnblock), 0)
  {
  }

  lemma ScheduleConserves(w: World)
    requires Tables(w.s) && AllConserved(w)
    ensures AllConserved(w.(s := w.s.(pendingUnblock := [])))
  {
    hide Conserved;
    var begun := w.(s := w.s.(pendingUnblock := []));
    SameIds(w.s, begun.s);
    forall id | id in begun.s.active
      ensures begun.s.active[id].ptr in begun.chans
      ensures ConservedOn(begun.s, id, begun.chans[begun.s.active[id].ptr])
    {
      assert ConservedOn(w.s, id, w.chans[w.s.active[id].ptr]);
      assert QueueOf(begun.s, id) == QueueOf(w.s, id);
    }
    assert forall ptr :: TakenOn(begun.s, ptr) == TakenOn(w.s, ptr);
  }

  /** Scheduled becomes due. */
  lemma ScheduleIsDue(w: World)
    requires Agreed(w)
    ensures Draining(w.(s := w.s.(pendingUnblock := [])), SetOf(w.s.pendingUnblock), 0)
    ensures NoRepeats(w.s.pendingUnblock) && forall id :: id in w.s.pendingUnblock ==> id in w.s.active && id != 0
  {
    hide Good, Unheld, AllConserved, AllLinked, IdOf;
    SameIds(w.s, w.s.(pendingUnblock := []));
    ScheduleLinks(w);
    ScheduleConserves(w);
  }

  lemma UnblockedKeeps(w: World, reactions: seq<seq<Reaction>>)
    requires Agreed(w)
    ensures Known(w) && Agreed(ProcessUnblocked(w, reactions))
  {
    hide Core, AllConserved, DrainAll;
    assert Known(w) by { CoreIsKnown(w, {}, 0); }
    var begun := w.(s := w.s.(pendingUnblock := []));
    ScheduleIsDue(w);
    DrainAllKeeps(begun, w.s.pendingUnblock, reactions);
    var (done, invalid) := DrainAll(begun, w.s.pendingUnblock, reactions);
    assert done.s.queues - {} == done.s.queues;
    assert done == done.(s := done.s.(queues := done.s.queues - invalid));
  }

  /** A whole service keeps what the session and its channels agree on. */
  lemma ServiceKeepsAgreement(w: World, reactions: seq<seq<Reaction>>, codes: seq<SendCode>)
    requires Agreed(w)
    ensures Known(w) && Agreed(ProcessPending(w, reactions, codes).0)
  {
    hide Core, AllConserved, ProcessUnblocked, ProcessDeletes, SendPhase;
    assert Known(w) by { CoreIsKnown(w, {}, 0); }
    var begun := w.(s := w.s.(d := w.s.d.(requested := false)));
    DeliveryKeeps(w, begun.s.d, {}, 0);
    if w.s.d.needDisconnect {
      DeliveryKeeps(begun, begun.s.d.(connected := false), {}, 0);
    } else {
      DeletesKeep(begun);
      UnblockedKeeps(ProcessDeletes(begun), reactions);
      var unblocked := ProcessUnblocked(ProcessDeletes(begun), reactions);
      assert Ready(unblocked.s.d) by { CoreIsKnown(unblocked, {}, 0); }
      SendPhaseStaysReady(unblocked.s.d, codes);
      DeliveryKeeps(unblocked, SendPhase(unblocked.s.d, codes).0, {}, 0);
    }
  }

  lemma {:induction false} SendLoopStaysReady(d: State, codes: seq<SendCode>, k: nat)
    requires Ready(d)
    ensures Ready(SendLoop(d, codes, k).0)
    decreases |d.outgoing|, !d.blocked
  {
    if KeepsSending(d) { SendLoopStaysReady(SendOne(d, CodeAt(codes, k)).0, codes, k + 1); }
  }

  lemma SendPhaseStaysReady(d: State, codes: seq<SendCode>)
    requires Ready(d)
    ensures Ready(SendPhase(d, codes).0)
  {
    SendLoopStaysReady(AfterSend(d.(needsIncomingAck := false), CodeAt(codes, 0)), codes, 1);
    SendLoopStaysReady(d, codes, 0);
  }
}
