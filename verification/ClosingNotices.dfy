/** Whether a session notices that a channel it works on has closed. It is told by the broadcast of the closing,
    and by nothing else: a channel that closed before the session became a listener stays with it for good. */
module ClosingNotices {
  import opened Basics
  import opened RouterEvents
  import opened Delivery
  import opened DeliveryProtocol
  import opened Channels
  import opened ChannelIds
  import opened Sessions
  import opened SessionInvariant
  import opened SessionSteps
  import opened SessionService
  import opened SessionHosting
  import opened ChannelHistory
  import opened SessionRuns

  /** The session works on the channel under this id, and the channel is closed without the session knowing. */
  ghost predicate Missed(w: World, id: nat, ptr: Ptr) {
    && id in w.s.active && w.s.active[id].ptr == ptr && !w.s.active[id].closed
    && ptr in w.chans && w.chans[ptr].closed
  }

  predicate IsClosing(data: EventData, id: nat) {
    data.Status? && data.change.status.StatusClose? && data.change.about == id
  }

  /** How often the client was told that the channel with this id closed. */
  function Closings(log: seq<RouterEvent>, id: nat): nat {
    if log == [] then 0
    else Closings(log[..|log| - 1], id) + (if IsClosing(log[|log| - 1].data, id) then 1 else 0)
  }

  /** What was missed stays missed, with nothing told; and nothing else is missed. */
  ghost predicate Alike(w: World, next: World, id: nat, ptr: Ptr) {
    && (Missed(next, id, ptr) <==> Missed(w, id, ptr))
    && (Missed(w, id, ptr) ==> Closings(next.s.d.log, id) == Closings(w.s.d.log, id))
  }

  lemma AlikeTwice(w: World, mid: World, next: World, id: nat, ptr: Ptr)
    requires Alike(w, mid, id, ptr) && Alike(mid, next, id, ptr)
    ensures Alike(w, next, id, ptr)
  {
  }

  lemma EnqueueTells(d: State, about: nat, data: EventData, id: nat)
    requires Ready(d)
    ensures Closings(Enqueue(d, about, data).log, id) == Closings(d.log, id) + (if IsClosing(data, id) then 1 else 0)
    ensures Ready(Enqueue(d, about, data))
  {
  }

  /** No channel was closed, and none was noted as closed. */
  ghost predicate NoneCloses(w: World, next: World) {
    && next.s.active.Keys == w.s.active.Keys && next.chans.Keys == w.chans.Keys
    && (forall id :: id in w.s.active ==>
          next.s.active[id].ptr == w.s.active[id].ptr && next.s.active[id].closed == w.s.active[id].closed)
    && (forall ptr :: ptr in w.chans ==> next.chans[ptr].closed == w.chans[ptr].closed)
  }

  lemma NoneClosesAlike(w: World, next: World, id: nat, ptr: Ptr)
    requires NoneCloses(w, next) && Closings(next.s.d.log, id) == Closings(w.s.d.log, id)
    ensures Alike(w, next, id, ptr)
  {
  }

  // ----- A call on a channel -----

  /** A callback tells of no closing but that of its own channel. */
  lemma CallbackTells(s: Session, id: nat, status: Flow, other: nat)
    requires Tables(s) && Ready(s.d) && id in s.active && other != id
    ensures Closings(FlowCall(s, s.active[id].ptr, status).d.log, other) == Closings(s.d.log, other)
  {
    hide Closings, Enqueue;
    IdOfActive(s, id);
    EnqueueTells(s.d, 0, StatusData(s, id, StatusBlock), other);
    EnqueueTells(s.d, 0, StatusData(s, id, StatusClose), other);
  }

  /** A channel that is closed calls nobody back. */
  lemma ClosedCallsNobody(w: World, id: nat, c1: Channel)
    requires Ready(w.s.d) && id in w.s.active && w.s.active[id].ptr in w.chans && OneCall(w, id, c1)
    requires Good(w.chans[w.s.active[id].ptr]) && w.chans[w.s.active[id].ptr].closed
    ensures c1.closed && ChannelStep(w, w.s.active[id].ptr, c1).s == w.s
  {
    hide RefsGood, LifeGood, Alternating;
  }

  lemma CallAlike(w: World, id: nat, c1: Channel, todo: set<nat>, current: nat, other: nat, ptr: Ptr)
    requires Core(w, todo, current) && id in w.s.active && OneCall(w, id, c1) && Ready(w.s.d)
    requires w.s.active[id].ptr in w.chans
    ensures Alike(w, ChannelStep(w, w.s.active[id].ptr, c1), other, ptr)
  {
    hide Core, Good, OneCall, ChannelStep, Linked, Closings, TouchesOnly, Tables;
    CoreAt(w, id, todo, current);
    StepTouches(w, id, c1, todo, current);
    var p := w.s.active[id].ptr;
    var next := ChannelStep(w, p, c1);
    TouchesKeepsEntry(w, next, id);
    if other == id {
      if w.chans[p].closed {
        ClosedCallsNobody(w, id, c1);
      } else if c1.closed {
        ClosingIsNoticed(w, id, c1, todo, current);
      }
    } else {
      OthersUntouched(w, next, id, other);
      StepTells(w, id, c1, other);
    }
  }

  lemma OthersUntouched(w: World, next: World, id: nat, other: nat)
    requires Tables(w.s) && id in w.s.active && TouchesOnly(w, next, id) && other != id
    ensures other in next.s.active <==> other in w.s.active
    ensures other in w.s.active ==>
      var p := w.s.active[other].ptr;
      && next.s.active[other] == w.s.active[other] && (p in next.chans <==> p in w.chans)
      && (p in w.chans ==> next.chans[p] == w.chans[p])
  {
  }

  lemma StepTells(w: World, id: nat, c1: Channel, other: nat)
    requires Tables(w.s) && Ready(w.s.d) && id in w.s.active && w.s.active[id].ptr in w.chans && other != id
    ensures Closings(ChannelStep(w, w.s.active[id].ptr, c1).s.d.log, other) == Closings(w.s.d.log, other)
  {
    hide Tables, Closings, FlowCall;
    CallbackTells(w.s, id, c1.lastStatus, other);
  }

  lemma SendAlike(w: World, id: nat, item: EventData, reaction: Reaction, todo: set<nat>, current: nat, other: nat, ptr: Ptr)
    requires Core(w, todo, current) && id in w.s.active && Ready(w.s.d) && w.s.active[id].ptr in w.chans
    ensures var p := w.s.active[id].ptr;
      Alike(w, ChannelStep(w, p, SendItem(w.chans[p], w.s.self, item, reaction)), other, ptr)
  {
    hide Core, SendItem, ChannelStep, OneCall, Alike;
    SendIsOneCall(w, id, item, reaction, todo, current);
    CallAlike(w, id, SendItem(w.chans[w.s.active[id].ptr], w.s.self, item, reaction), todo, current, other, ptr);
  }

  // ----- Steps on the channels -----

  lemma DropAlike(w: World, next: World, id: nat, other: nat, ptr: Ptr)
    requires Tables(w.s) && id in w.s.active && w.s.active[id].closed && DropsOne(w, next, id)
    ensures Alike(w, next, other, ptr)
  {
    hide Good, Unheld, Closings, RemoveFirst;
  }

  lemma {:induction false} DeletesAlike(w: World, id: nat, ptr: Ptr)
    requires Agreed(w)
    ensures Alike(w, ProcessDeletes(w), id, ptr)
    decreases |w.s.pendingDelete|
  {
    hide Core, AllConserved, DeleteChannel, Unregister, Alike, DropsOne;
    if w.s.pendingDelete == [] {
      NoneClosesAlike(w, ProcessDeletes(w), id, ptr);
    } else {
      var due := w.s.pendingDelete[0];
      DeleteNextDrops(w);
      PendingIsClosed(w);
      DropKeeps(w, DeleteNext(w), due);
      CoreAt(w, due, {}, 0);
      DropAlike(w, DeleteNext(w), due, id, ptr);
      DeletesOneByOne(w);
      DropIsSmaller(w, due);
      DeletesAlike(DeleteNext(w), id, ptr);
      AlikeTwice(w, DeleteNext(w), ProcessDeletes(w), id, ptr);
    }
  }

  lemma CloseAlike(w: World, closed: nat, id: nat, ptr: Ptr)
    requires Agreed(w)
    ensures Known(w) && Alike(w, RequestClose(w, closed), id, ptr)
  {
    hide Core, AllConserved, Good, Linked, Tables, Apply, ChannelStep, Alike;
    assert Known(w) by { CoreIsKnown(w, {}, 0); }
    if closed in w.s.active {
      CoreAt(w, closed, {}, 0);
      var c := w.chans[w.s.active[closed].ptr];
      CloseIsApply(c);
      OpIsOneCall(w, closed, OpClose, {}, 0);
      CallAlike(w, closed, Close(c), {}, 0, id, ptr);
    } else {
      NoneClosesAlike(w, w, id, ptr);
    }
  }

  lemma HandleAlike(w: World, to: nat, event: RouterEvent, reaction: Reaction, id: nat, ptr: Ptr)
    requires Core(w, {}, 0) && to in w.s.active && !w.s.active[to].out && Ready(w.s.d) && w.s.active[to].ptr in w.chans
    ensures Alike(w, Handle(w, to, event, reaction), id, ptr)
  {
    hide Core, Good, Linked, Tables, SendItem, ChannelStep, Accepts, Alike;
    CoreAt(w, to, {}, 0);
    var c := w.chans[w.s.active[to].ptr];
    if !w.s.active[to].blocked && !w.s.active[to].closed && Matches(c.kind, event.data) {
      OnlyClosedRefuses(w, to, {}, 0);
      SendAlike(w, to, event.data, reaction, {}, 0, id, ptr);
    } else {
      NoneClosesAlike(w, Handle(w, to, event, reaction), id, ptr);
    }
  }

  lemma ReleaseAlike(w: World, freed: Ptr, id: nat, ptr: Ptr)
    ensures Alike(w, Release(w, freed), id, ptr)
  {
    hide Closings;
    NoneClosesAlike(w, Release(w, freed), id, ptr);
  }

  lemma ReceiveAlike(w: World, to: nat, serial: nat, item: EventData, id: nat, ptr: Ptr)
    requires Ready(w.s.d) && to in w.s.active && w.s.active[to].ptr in w.chans
    ensures Alike(w, Receive(w, to, serial, item), id, ptr)
  {
    hide Closings;
    NoneClosesAlike(w, Receive(w, to, serial, item), id, ptr);
  }

  lemma ClientDataAlike(w: World, to: nat, serial: nat, item: EventData, reaction: Reaction, id: nat, ptr: Ptr)
    requires Agreed(w)
    ensures Known(w) && Alike(w, ClientData(w, to, serial, item, reaction), id, ptr)
  {
    hide Core, AllConserved, Good, Linked, Tables, Handle, Receive, Release, Alike, TouchesOnly, Owed;
    assert Known(w) by { CoreIsKnown(w, {}, 0); }
    if to in w.s.active && !w.s.active[to].out {
      CoreAt(w, to, {}, 0);
      ReceiveKeeps(w, to, serial, item);
      ReceiveAlike(w, to, serial, item, id, ptr);
      var received, event := Receive(w, to, serial, item), RouterEvent(serial, 0, item);
      CoreAt(received, to, {}, 0);
      HandleAlike(received, to, event, reaction, id, ptr);
      var handled := Handle(received, to, event, reaction);
      ReleaseAlike(handled, w.s.active[to].ptr, id, ptr);
      AlikeTwice(w, received, handled, id, ptr);
      AlikeTwice(w, handled, ClientData(w, to, serial, item, reaction), id, ptr);
    } else {
      NoneClosesAlike(w, ClientData(w, to, serial, item, reaction), id, ptr);
    }
  }

  lemma ArrivalAlike(w: World, at: Ptr, op: ChannelOp, id: nat, ptr: Ptr)
    requires Ready(w.s.d) && at in w.chans && Arrives(w, at, op) && Allowed(w.chans[at], op)
    requires op.item.Text? || op.item.Enhanced?
    ensures Alike(w, ForeignNext(w, at, op), id, ptr)
  {
    hide Closings, Enqueue;
    EnqueueTells(w.s.d, IdOf(w.s, at), op.item, id);
    NoneClosesAlike(w, ForeignNext(w, at, op), id, ptr);
  }

  /** A channel the session does not work on. */
  lemma ElsewhereAlike(w: World, next: World, at: Ptr, id: nat, ptr: Ptr)
    requires Tables(w.s) && IdOf(w.s, at) == 0 && next.s == w.s
    requires forall p :: p != at ==> (p in next.chans <==> p in w.chans) && (p in w.chans ==> next.chans[p] == w.chans[p])
    ensures Alike(w, next, id, ptr)
  {
    hide Closings;
  }

  lemma ForeignAlike(w: World, at: Ptr, op: ChannelOp, id: nat, ptr: Ptr)
    requires Agreed(w) && at in w.chans && Allowed(w.chans[at], op) && ByOthers(op, w.s.self)
    requires op.OpSend? ==> op.item.Text? || op.item.Enhanced?
    ensures Ready(w.s.d) && Alike(w, ForeignNext(w, at, op), id, ptr)
  {
    hide Core, AllConserved, Good, Linked, Tables, Apply, ChannelStep, SendItem, ChannelData, Alike, Accepts;
    assert Ready(w.s.d) && Tables(w.s) by { CoreHasTables(w); }
    var about := IdOf(w.s, at);
    if Arrives(w, at, op) {
      ArrivalAlike(w, at, op, id, ptr);
    } else if about == 0 {
      UnheldIsSilent(w, at, op);
      ElsewhereAlike(w, ForeignNext(w, at, op), at, id, ptr);
    } else {
      CoreAt(w, about, {}, 0);
      OpIsOneCall(w, about, op, {}, 0);
      CallAlike(w, about, Apply(w.chans[at], op), {}, 0, id, ptr);
    }
  }

  /** A channel is missed from the start if it is closed when it is added. */
  lemma AddAlike(w: World, at: Ptr, out: bool, id: nat, ptr: Ptr)
    requires Core(w, {}, 0) && CanAdd(w, at)
    ensures var next := AddChannel(w, at, out);
      && (Missed(next, id, ptr) <==> Missed(w, id, ptr) || (id == next.s.lastChannelId && ptr == at && w.chans[at].closed))
      && (Missed(w, id, ptr) ==> Closings(next.s.d.log, id) == Closings(w.s.d.log, id))
      && !Missed(w, next.s.lastChannelId, at)
  {
    hide Good, OthersUnheld, AllLinked, Tables, Register, Held, Announce, IdOf, Closings;
    AddShape(w, at, out);
    var next := AddChannel(w, at, out);
    AnnounceTells(w.s.d, next.s.lastChannelId, out, !out && w.chans[at].blocked, id);
  }

  lemma AnnounceTells(d: State, id: nat, out: bool, blocked: bool, other: nat)
    requires Ready(d)
    ensures Closings(Announce(d, id, out, blocked).log, other) == Closings(d.log, other)
  {
    hide Enqueue, Closings;
    var opening := Status(StatusChange(StatusOpen, out, id));
    EnqueueTells(d, 0, opening, other);
    var announced := RequestUnlessBlocked(Enqueue(d, 0, opening));
    EnqueueTells(announced, 0, Status(StatusChange(if blocked then StatusBlock else StatusUnblock, out, id)), other);
  }

  // ----- A service -----

  lemma {:induction false} DrainQueueAlike(w: World, due: nat, reactions: seq<Reaction>, k: nat, todo: set<nat>, id: nat, ptr: Ptr)
    requires Draining(w, todo, due) && due in w.s.active && due !in todo
    requires w.s.active[due].ptr in w.chans && Ready(w.s.d)
    ensures Alike(w, DrainQueue(w, due, reactions, k), id, ptr)
    decreases |QueueOf(w.s, due)|
  {
    hide Core, Linked, TouchesOnly, Tables, AllConserved, Accepts, AcceptedFrom, OfferHead, Alike;
    if QueueOf(w.s, due) == [] || !Accepts(w.chans[w.s.active[due].ptr]) {
      DrainRests(w, due, reactions, k, todo);
      NoneClosesAlike(w, w, id, ptr);
    } else {
      var reaction := ReactionAt(reactions, k);
      DrainOneKeeps(w, due, reaction, todo);
      DrainOneAlike(w, due, reaction, todo, id, ptr);
      var mid := DrainOne(w, due, reaction);
      TouchesKeepsEntry(w, mid, due);
      DrainUnfolds(w, due, reactions, k);
      DrainQueueAlike(mid, due, reactions, k + 1, todo, id, ptr);
      AlikeTwice(w, mid, DrainQueue(mid, due, reactions, k + 1), id, ptr);
    }
  }

  lemma DrainOneAlike(w: World, due: nat, reaction: Reaction, todo: set<nat>, id: nat, ptr: Ptr)
    requires Draining(w, todo, due) && due in w.s.active && QueueOf(w.s, due) != []
    requires w.s.active[due].ptr in w.chans && Ready(w.s.d)
    ensures Alike(w, DrainOne(w, due, reaction), id, ptr)
  {
    hide Core, AllConserved, SendItem, ChannelStep, Alike;
    SendAlike(w, due, QueueOf(w.s, due)[0].data, reaction, todo, due, id, ptr);
    var offered := OfferHead(w, due, reaction);
    NoneClosesAlike(offered, DrainOne(w, due, reaction), id, ptr);
    AlikeTwice(w, offered, DrainOne(w, due, reaction), id, ptr);
  }

  lemma FinishAlike(w: World, due: nat, id: nat, ptr: Ptr)
    requires Ready(w.s.d) && due in w.s.active && w.s.active[due].ptr in w.chans
    ensures Alike(w, FinishDrain(w, due), id, ptr)
  {
    hide Closings, Enqueue;
    var updated := w.s.(active := w.s.active[due := w.s.active[due].(blocked := w.chans[w.s.active[due].ptr].blocked)]);
    EnqueueTells(w.s.d, 0, StatusData(updated, due, StatusUnblock), id);
    NoneClosesAlike(w, FinishDrain(w, due), id, ptr);
  }

  lemma LockAlike(w: World, at: Ptr, id: nat, ptr: Ptr)
    requires at in w.chans
    ensures Alike(w, w.(chans := w.chans[at := Lock(w.chans[at])]), id, ptr)
  {
    hide Closings;
    NoneClosesAlike(w, w.(chans := w.chans[at := Lock(w.chans[at])]), id, ptr);
  }

  lemma DrainChannelAlike(w: World, due: nat, reactions: seq<Reaction>, todo: set<nat>, id: nat, ptr: Ptr)
    requires Draining(w, todo + {due}, 0) && due in w.s.active && due !in todo && due != 0
    ensures Known(w) && Alike(w, DrainChannel(w, due, reactions).0, id, ptr)
  {
    hide Core, AllConserved, Good, Linked, Tables, FinishDrain, DrainQueue, TouchesOnly, Alike, Release, Lock;
    assert Known(w) by { CoreIsKnown(w, todo + {due}, 0); }
    CoreAt(w, due, todo + {due}, 0);
    var at := w.s.active[due].ptr;
    var locked := w.(chans := w.chans[at := Lock(w.chans[at])]);
    LockAlike(w, at, id, ptr);
    if w.chans[at].closed {
      ReleaseAlike(locked, at, id, ptr);
      AlikeTwice(w, locked, Release(locked, at), id, ptr);
    } else {
      BeginDrain(w, due, todo);
      DrainQueueAlike(locked, due, reactions, 0, todo, id, ptr);
      var drained := DrainQueue(locked, due, reactions, 0);
      FinishAlike(drained, due, id, ptr);
      var finished := FinishDrain(drained, due);
      ReleaseAlike(finished, at, id, ptr);
      AlikeTwice(w, locked, drained, id, ptr);
      AlikeTwice(w, drained, finished, id, ptr);
      AlikeTwice(w, finished, Release(finished, at), id, ptr);
    }
  }

  lemma {:induction false} DrainAllAlike(w: World, ids: seq<nat>, reactions: seq<seq<Reaction>>, id: nat, ptr: Ptr)
    requires Draining(w, SetOf(ids), 0)
    requires NoRepeats(ids) && forall due :: due in ids ==> due in w.s.active && due != 0
    ensures Known(w) && Alike(w, DrainAll(w, ids, reactions).0, id, ptr)
    decreases ids
  {
    hide Draining, DrainChannel, Alike, TouchesOnly;
    assert Known(w) by { DrainingIsKnown(w, SetOf(ids)); }
    if ids == [] {
      NoneClosesAlike(w, w, id, ptr);
    } else {
      assert NoRepeats(ids[1..]) && forall due :: due in ids[1..] ==> due in ids;
      assert SetOf(ids) == SetOf(ids[1..]) + {ids[0]};
      var first := if reactions == [] then [] else reactions[0];
      var rest := if reactions == [] then [] else reactions[1..];
      DrainChannelKeeps(w, ids[0], first, SetOf(ids[1..]));
      DrainChannelAlike(w, ids[0], first, SetOf(ids[1..]), id, ptr);
      var next := DrainChannel(w, ids[0], first).0;
      DrainAllAlike(next, ids[1..], rest, id, ptr);
      AlikeTwice(w, next, DrainAll(next, ids[1..], rest).0, id, ptr);
    }
  }

  lemma UnblockedAlike(w: World, reactions: seq<seq<Reaction>>, id: nat, ptr: Ptr)
    requires Agreed(w)
    ensures Known(w) && Alike(w, ProcessUnblocked(w, reactions), id, ptr)
  {
    hide Core, AllConserved, DrainAll, Alike, Closings;
    assert Known(w) by { CoreIsKnown(w, {}, 0); }
    var begun := w.(s := w.s.(pendingUnblock := []));
    ScheduleIsDue(w);
    NoneClosesAlike(w, begun, id, ptr);
    DrainAllAlike(begun, w.s.pendingUnblock, reactions, id, ptr);
    var done := DrainAll(begun, w.s.pendingUnblock, reactions).0;
    NoneClosesAlike(done, ProcessUnblocked(w, reactions), id, ptr);
    AlikeTwice(w, begun, done, id, ptr);
    AlikeTwice(w, done, ProcessUnblocked(w, reactions), id, ptr);
  }

  lemma ServiceAlike(w: World, reactions: seq<seq<Reaction>>, codes: seq<SendCode>, id: nat, ptr: Ptr)
    requires Agreed(w)
    ensures Known(w) && Alike(w, ProcessPending(w, reactions, codes).0, id, ptr)
  {
    hide Core, AllConserved, ProcessUnblocked, ProcessDeletes, SendPhase, Alike, Closings;
    assert Known(w) by { CoreIsKnown(w, {}, 0); }
    var begun := w.(s := w.s.(d := w.s.d.(requested := false)));
    DeliveryKeeps(w, begun.s.d, {}, 0);
    var next := ProcessPending(w, reactions, codes).0;
    if w.s.d.needDisconnect {
      NoneClosesAlike(w, next, id, ptr);
    } else {
      NoneClosesAlike(w, begun, id, ptr);
      DeletesAlike(begun, id, ptr);
      DeletesKeep(begun);
      var deleted := ProcessDeletes(begun);
      UnblockedAlike(deleted, reactions, id, ptr);
      var unblocked := ProcessUnblocked(deleted, reactions);
      SendPhaseLogs(unblocked.s.d, codes);
      NoneClosesAlike(unblocked, next, id, ptr);
      AlikeTwice(w, begun, deleted, id, ptr);
      AlikeTwice(w, deleted, unblocked, id, ptr);
      AlikeTwice(w, unblocked, next, id, ptr);
    }
  }

  // ----- Runs -----

  /** A channel is added that is closed already. */
  predicate AddsClosed(f: Full, step: FullStep) {
    step.ChannelAdded? && step.ptr in f.w.chans && f.w.chans[step.ptr].closed
  }

  /** A step lets the session miss a closing exactly by adding a channel that is closed already; and of a
      channel whose closing was missed no closing is told. */
  lemma StepNotices(f: Full, step: FullStep, maxWindow: nat, id: nat, ptr: Ptr)
    requires FullInv(f, maxWindow) && FullEnabled(f, step, maxWindow) && Known(f.w)
    ensures var next := FullNext(f, step, maxWindow);
      && (Missed(next.w, id, ptr)
          <==> Missed(f.w, id, ptr) || (AddsClosed(f, step) && step.ptr == ptr && id == next.w.s.lastChannelId))
      && (Missed(f.w, id, ptr) ==> Closings(next.w.s.d.log, id) == Closings(f.w.s.d.log, id))
  {
    hide Core, AllConserved, Inv, ProcessPending, ClientData, AddChannel, ForeignNext, RequestClose, Known, Missed,
      Closings;
    match step
    case ChannelCreated(at, kind) => CreateAlike(f.w, at, kind, id, ptr);
    case ChannelAdded(at, out) => AddAlike(f.w, at, out, id, ptr);
    case ChannelCalled(at, op) => ForeignAlike(f.w, at, op, id, ptr);
    case MessageArrived(to, serial, item, reaction) => ClientDataAlike(f.w, to, serial, item, reaction, id, ptr);
    case CloseRequested(closed) => CloseAlike(f.w, closed, id, ptr);
    case Serviced(reactions, codes) => ServiceAlike(f.w, reactions, codes, id, ptr);
    case Delivered(inner) =>
      OtherStepsLeaveLog(SystemOf(f), inner, maxWindow);
      NoneClosesAlike(f.w, FullNext(f, step, maxWindow).w, id, ptr);
  }

  lemma CreateAlike(w: World, at: Ptr, kind: Kind, id: nat, ptr: Ptr)
    requires Agreed(w) && at !in w.chans
    ensures Alike(w, w.(chans := w.chans[at := NewChannel(kind)]), id, ptr)
  {
    hide Core, AllConserved, Closings;
    assert Known(w) by { CoreIsKnown(w, {}, 0); }
  }

  /** What was missed stays missed, whatever happens: the channel keeps its id, is never due to be let go, and
      the client is never told. */
  lemma {:induction false} MissedStays(f: Full, steps: seq<FullStep>, maxWindow: nat, id: nat, ptr: Ptr)
    requires FullInv(f, maxWindow) && FullLegal(f, steps, maxWindow) && Missed(f.w, id, ptr)
    ensures var last := FullRun(f, steps, maxWindow);
      Missed(last.w, id, ptr) && id !in last.w.s.pendingDelete && Closings(last.w.s.d.log, id) == Closings(f.w.s.d.log, id)
    decreases steps
  {
    hide FullInv, FullNext, FullEnabled, Known, Missed, Closings;
    if steps == [] {
      MissedIsNotDue(f, maxWindow, id, ptr);
    } else {
      FullStepKeeps(f, steps[0], maxWindow);
      StepNotices(f, steps[0], maxWindow, id, ptr);
      MissedStays(FullNext(f, steps[0], maxWindow), steps[1..], maxWindow, id, ptr);
    }
  }

  lemma MissedIsNotDue(f: Full, maxWindow: nat, id: nat, ptr: Ptr)
    requires FullInv(f, maxWindow) && Missed(f.w, id, ptr)
    ensures id !in f.w.s.pendingDelete
  {
    hide Inv, AllConserved, AllLinked, OthersUnheld, AllGood;
  }

  /** In every state of the run the session works on the channel under this id. */
  ghost predicate StaysWith(f: Full, steps: seq<FullStep>, maxWindow: nat, id: nat, ptr: Ptr)
    requires FullLegal(f, steps, maxWindow)
    decreases steps
  {
    && id in f.w.s.active && f.w.s.active[id].ptr == ptr
    && (steps == [] || StaysWith(FullNext(f, steps[0], maxWindow), steps[1..], maxWindow, id, ptr))
  }

  lemma {:induction false} MissedStaysWith(f: Full, steps: seq<FullStep>, maxWindow: nat, id: nat, ptr: Ptr)
    requires FullInv(f, maxWindow) && FullLegal(f, steps, maxWindow) && Missed(f.w, id, ptr)
    ensures StaysWith(f, steps, maxWindow, id, ptr)
    decreases steps
  {
    hide FullInv, FullNext, FullEnabled, Known, Closings;
    if steps != [] {
      FullStepKeeps(f, steps[0], maxWindow);
      StepNotices(f, steps[0], maxWindow, id, ptr);
      MissedStaysWith(FullNext(f, steps[0], maxWindow), steps[1..], maxWindow, id, ptr);
    }
  }

  /** While the session works on a channel, nothing makes it miss the closing. */
  lemma {:induction false} NoticedStays(f: Full, steps: seq<FullStep>, maxWindow: nat, id: nat, ptr: Ptr)
    requires FullInv(f, maxWindow) && FullLegal(f, steps, maxWindow) && StaysWith(f, steps, maxWindow, id, ptr)
    requires !Missed(f.w, id, ptr)
    ensures var w := FullRun(f, steps, maxWindow).w;
      id in w.s.active && w.s.active[id].ptr == ptr && !Missed(w, id, ptr)
    decreases steps
  {
    hide FullInv, FullNext, FullEnabled, Known, Missed, Closings;
    if steps != [] {
      FullStepKeeps(f, steps[0], maxWindow);
      StepNotices(f, steps[0], maxWindow, id, ptr);
      if AddsClosed(f, steps[0]) && steps[0].ptr == ptr { NotAddedAgain(f, steps[0], maxWindow, id); }
      NoticedStays(FullNext(f, steps[0], maxWindow), steps[1..], maxWindow, id, ptr);
    }
  }

  lemma NotAddedAgain(f: Full, step: FullStep, maxWindow: nat, id: nat)
    requires FullInv(f, maxWindow) && FullEnabled(f, step, maxWindow) && step.ChannelAdded? && id in f.w.s.active
    ensures f.w.s.active[id].ptr != step.ptr
  {
    hide Inv, AllConserved, AllLinked, OthersUnheld, AllGood;
    IdOfActive(f.w.s, id);
  }

  /** From any reachable state a channel is added, and any legal continuation follows. If the channel was closed
      already, then in every state it keeps its id, counts as open, is not due to be let go, and the client is
      never told that it closed. And as long as the session works on it, session and channel agree on the
      closing if and only if the channel was open when it was added. */
  lemma ClosedOnArrival(f: Full, ptr: Ptr, out: bool, steps: seq<FullStep>, maxWindow: nat)
    requires FullInv(f, maxWindow) && Known(f.w) && FullEnabled(f, ChannelAdded(ptr, out), maxWindow)
    requires FullLegal(FullNext(f, ChannelAdded(ptr, out), maxWindow), steps, maxWindow)
    ensures var added := FullNext(f, ChannelAdded(ptr, out), maxWindow);
      var id, closed, last := added.w.s.lastChannelId, f.w.chans[ptr].closed, FullRun(added, steps, maxWindow).w;
      && (closed ==>
            && StaysWith(added, steps, maxWindow, id, ptr)
            && id in last.s.active && last.s.active[id].ptr == ptr && !last.s.active[id].closed
            && id !in last.s.pendingDelete && Closings(last.s.d.log, id) == Closings(f.w.s.d.log, id))
      && (StaysWith(added, steps, maxWindow, id, ptr) ==>
            && id in last.s.active && ptr in last.chans
            && ((last.s.active[id].closed <==> last.chans[ptr].closed) <==> !closed))
  {
    hide FullInv, FullLegal, FullRun, Known, Closings, AddChannel;
    var step := ChannelAdded(ptr, out);
    var added := FullNext(f, step, maxWindow);
    var id := added.w.s.lastChannelId;
    FullStepKeeps(f, step, maxWindow);
    StepNotices(f, step, maxWindow, id, ptr);
    AddedIsNew(f, ptr, out, maxWindow);
    FullRunKeeps(added, steps, maxWindow);
    if f.w.chans[ptr].closed {
      MissedStays(added, steps, maxWindow, id, ptr);
      MissedStaysWith(added, steps, maxWindow, id, ptr);
    } else if StaysWith(added, steps, maxWindow, id, ptr) {
      NoticedStays(added, steps, maxWindow, id, ptr);
      NotedIsTrue(FullRun(added, steps, maxWindow), maxWindow, id);
    }
  }

  /** The id of a new channel was not in use, and nothing is told of a closing. */
  lemma AddedIsNew(f: Full, ptr: Ptr, out: bool, maxWindow: nat)
    requires FullInv(f, maxWindow) && Known(f.w) && FullEnabled(f, ChannelAdded(ptr, out), maxWindow)
    ensures var next := FullNext(f, ChannelAdded(ptr, out), maxWindow).w;
      var id := next.s.lastChannelId;
      && id !in f.w.s.active && id in next.s.active && next.s.active[id].ptr == ptr
      && Closings(next.s.d.log, id) == Closings(f.w.s.d.log, id)
  {
    hide Inv, AllConserved, AllLinked, OthersUnheld, AllGood, Tables, Register, Held, Announce, IdOf, Closings;
    AddShape(f.w, ptr, out);
    var next := AddChannel(f.w, ptr, out);
    AnnounceTells(f.w.s.d, next.s.lastChannelId, out, !out && f.w.chans[ptr].blocked, next.s.lastChannelId);
  }

  /** A channel the session knows to be closed is closed. */
  lemma NotedIsTrue(f: Full, maxWindow: nat, id: nat)
    requires FullInv(f, maxWindow) && id in f.w.s.active
    ensures var ptr := f.w.s.active[id].ptr; ptr in f.w.chans && (f.w.s.active[id].closed ==> f.w.chans[ptr].closed)
  {
    hide Core, Inv, AllConserved, Good, Held;
    CoreAt(f.w, id, {}, 0);
  }

  /** Session and channels agree on what is closed. */
  ghost predicate ClosingsNoted(w: World) {
    forall id :: id in w.s.active ==>
      w.s.active[id].ptr in w.chans && (w.s.active[id].closed <==> w.chans[w.s.active[id].ptr].closed)
  }

  ghost predicate NeverAddsClosed(f: Full, steps: seq<FullStep>, maxWindow: nat)
    requires FullLegal(f, steps, maxWindow)
    decreases steps
  {
    steps == [] ||
    (!AddsClosed(f, steps[0]) && NeverAddsClosed(FullNext(f, steps[0], maxWindow), steps[1..], maxWindow))
  }

  lemma NoneMissedIsNoted(f: Full, maxWindow: nat)
    requires FullInv(f, maxWindow)
    ensures ClosingsNoted(f.w) <==> forall id, ptr :: !Missed(f.w, id, ptr)
  {
    hide FullInv;
    forall id | id in f.w.s.active
      ensures var ptr := f.w.s.active[id].ptr; ptr in f.w.chans && (f.w.s.active[id].closed ==> f.w.chans[ptr].closed)
    {
      NotedIsTrue(f, maxWindow, id);
    }
    if id :| id in f.w.s.active && f.w.s.active[id].closed != f.w.chans[f.w.s.active[id].ptr].closed {
      assert Missed(f.w, id, f.w.s.active[id].ptr);
    }
  }

  /** Over whole runs: session and channels agree on what is closed if and only if no channel was added that was
      closed already. Since a legal run's beginnings are legal, that is so in every state. */
  lemma {:induction false} RunNotices(f: Full, steps: seq<FullStep>, maxWindow: nat)
    requires FullInv(f, maxWindow) && FullLegal(f, steps, maxWindow) && ClosingsNoted(f.w)
    ensures ClosingsNoted(FullRun(f, steps, maxWindow).w) <==> NeverAddsClosed(f, steps, maxWindow)
    decreases steps
  {
    hide FullInv, FullNext, FullEnabled, Known, ClosingsNoted, Missed, Closings;
    if steps != [] {
      var next := FullNext(f, steps[0], maxWindow);
      FullStepKeeps(f, steps[0], maxWindow);
      NoneMissedIsNoted(f, maxWindow);
      NoneMissedIsNoted(next, maxWindow);
      if AddsClosed(f, steps[0]) {
        var id := next.w.s.lastChannelId;
        StepNotices(f, steps[0], maxWindow, id, steps[0].ptr);
        MissedStays(next, steps[1..], maxWindow, id, steps[0].ptr);
        FullRunKeeps(next, steps[1..], maxWindow);
        NoneMissedIsNoted(FullRun(next, steps[1..], maxWindow), maxWindow);
      } else {
        forall id, ptr ensures !Missed(next.w, id, ptr) {
          StepNotices(f, steps[0], maxWindow, id, ptr);
        }
        RunNotices(next, steps[1..], maxWindow);
      }
    }
  }
}
