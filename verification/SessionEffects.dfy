/** What the channel half of a session never does, whatever happens on its channels: it tells the client of changes
    of flow only, and outside any channel; it leaves alone which serial of the client's is to be acknowledged,
    which channels it works on, who receives from them, and what it took; and what it noted as closed stays so. */
module SessionEffects {
  import opened Basics
  import opened RouterEvents
  import opened Delivery
  import opened Channels
  import opened Sessions
  import opened SessionInvariant
  import opened SessionSteps
  import opened SessionService
  import opened DeliveryProtocol

  /** A change of flow of some channel: a status other than the opening. */
  predicate IsFlow(event: RouterEvent) {
    event.channelId == 0 && event.data.Status? && !event.data.change.status.StatusOpen?
  }

  ghost predicate TellsFlow(log: seq<RouterEvent>, next: seq<RouterEvent>) {
    log <= next && forall i :: |log| <= i < |next| ==> IsFlow(next[i])
  }

  predicate SameEntry(info: ChannelInfo, next: ChannelInfo) {
    next.ptr == info.ptr && next.out == info.out && (info.closed ==> next.closed)
  }

  /** Apart from what is queued and whether service was asked for, the delivery half is the same. */
  predicate OnlyTold(d: State, next: State) {
    next == d.(log := next.log, outgoing := next.outgoing, lastSerial := next.lastSerial, requested := next.requested)
  }

  ghost predicate Steady(s: Session, t: Session) {
    && TellsFlow(s.d.log, t.d.log) && OnlyTold(s.d, t.d)
    && t.self == s.self && t.taken == s.taken
    && t.lastChannelId == s.lastChannelId && t.maxChannels == s.maxChannels
    && t.active.Keys == s.active.Keys
    && (forall id :: id in s.active ==> SameEntry(s.active[id], t.active[id]))
  }

  ghost predicate SameReceivers(chans: map<Ptr, Channel>, next: map<Ptr, Channel>) {
    next.Keys == chans.Keys && forall ptr :: ptr in chans ==> next[ptr].recvCallback == chans[ptr].recvCallback
  }

  ghost predicate Calm(w: World, next: World) {
    Steady(w.s, next.s) && SameReceivers(w.chans, next.chans)
  }

  lemma ToldTwice(d: State, mid: State, next: State)
    requires OnlyTold(d, mid) && OnlyTold(mid, next)
    ensures OnlyTold(d, next)
  {
  }

  lemma FlowTwice(log: seq<RouterEvent>, mid: seq<RouterEvent>, next: seq<RouterEvent>)
    requires TellsFlow(log, mid) && TellsFlow(mid, next)
    ensures TellsFlow(log, next)
  {
    hide IsFlow;
    assert forall i :: |log| <= i < |mid| ==> next[i] == mid[i];
  }

  lemma SteadyTwice(s: Session, t: Session, u: Session)
    requires Steady(s, t) && Steady(t, u)
    ensures Steady(s, u)
  {
    hide OnlyTold, TellsFlow;
    ToldTwice(s.d, t.d, u.d);
    FlowTwice(s.d.log, t.d.log, u.d.log);
  }

  lemma CalmTwice(w: World, mid: World, next: World)
    requires Calm(w, mid) && Calm(mid, next)
    ensures Calm(w, next)
  {
    hide Steady;
    SteadyTwice(w.s, mid.s, next.s);
  }

  /** Nothing was told, noted or taken; service may have been asked for. */
  lemma SilentSteady(s: Session, t: Session)
    requires t == s.(d := t.d, queues := t.queues, pendingUnblock := t.pendingUnblock, pendingDelete := t.pendingDelete)
    requires t.d == s.d || t.d == Request(s.d)
    ensures Steady(s, t)
  {
  }

  lemma TellSteady(s: Session, id: nat, status: ChannelStatus)
    requires Ready(s.d) && id in s.active && !status.StatusOpen?
    ensures Steady(s, Tell(s, id, status)) && Steady(s, TellAndRequest(s, id, status))
  {
  }

  /** One entry is noted as blocked or not, or as closed, and work is scheduled. */
  lemma NoteSteady(s: Session, t: Session, id: nat)
    requires id in s.active && id in t.active && SameEntry(s.active[id], t.active[id])
    requires t == s.(active := s.active[id := t.active[id]], pendingUnblock := t.pendingUnblock,
                     pendingDelete := t.pendingDelete)
    ensures Steady(s, t)
  {
  }

  lemma BlockedSteady(s: Session, ptr: Ptr)
    requires Ready(s.d)
    ensures Steady(s, FlowBlockedCall(s, ptr))
  {
    hide Enqueue, RemoveFirst, Steady, StatusData;
    var id := IdOf(s, ptr);
    var unscheduled := s.(pendingUnblock := RemoveFirst(s.pendingUnblock, id));
    SilentSteady(s, s);
    SilentSteady(s, unscheduled);
    if id != 0 && !s.active[id].out && !s.active[id].blocked {
      var noted := unscheduled.(active := s.active[id := s.active[id].(blocked := true)]);
      NoteSteady(s, noted, id);
      TellSteady(noted, id, StatusBlock);
      SteadyTwice(s, noted, TellAndRequest(noted, id, StatusBlock));
    }
  }

  lemma ClosedSteady(s: Session, ptr: Ptr)
    requires Ready(s.d)
    ensures Steady(s, FlowClosedCall(s, ptr))
  {
    hide Enqueue, Steady, StatusData;
    var id := IdOf(s, ptr);
    SilentSteady(s, s);
    if id != 0 {
      var told, next := TellAndRequest(s, id, StatusClose), FlowClosedCall(s, ptr);
      TellSteady(s, id, StatusClose);
      NoteSteady(told, next, id);
      SteadyTwice(s, told, next);
    }
  }

  lemma CallSteady(s: Session, ptr: Ptr, status: Flow)
    requires Ready(s.d)
    ensures Steady(s, FlowCall(s, ptr, status))
  {
    hide Steady, FlowBlockedCall, FlowClosedCall;
    match status
    case FlowBlocked => BlockedSteady(s, ptr);
    case FlowOpen => SilentSteady(s, FlowOpenCall(s, ptr));
    case FlowClosed => ClosedSteady(s, ptr);
  }

  lemma StepSteady(w: World, ptr: Ptr, after: Channel)
    requires Ready(w.s.d) && ptr in w.chans
    ensures Steady(w.s, ChannelStep(w, ptr, after).s)
  {
    hide Steady, FlowCall;
    SilentSteady(w.s, w.s);
    CallSteady(w.s, ptr, after.lastStatus);
  }

  lemma StepCalm(w: World, ptr: Ptr, after: Channel)
    requires Ready(w.s.d) && ptr in w.chans && after.recvCallback == w.chans[ptr].recvCallback
    ensures Calm(w, ChannelStep(w, ptr, after))
  {
    hide Steady, FlowCall;
    StepSteady(w, ptr, after);
  }

  /** Whatever the receiver does, it stays the receiver. */
  lemma SendingKeepsReceiver(c: Channel, sender: Ptr, item: EventData, reaction: Reaction)
    ensures SendItem(c, sender, item, reaction).recvCallback == c.recvCallback
  {
  }

  lemma SendCalm(w: World, ptr: Ptr, item: EventData, reaction: Reaction)
    requires Ready(w.s.d) && ptr in w.chans
    ensures Calm(w, ChannelStep(w, ptr, SendItem(w.chans[ptr], w.s.self, item, reaction)))
  {
    hide Calm, SendItem, ChannelStep;
    SendingKeepsReceiver(w.chans[ptr], w.s.self, item, reaction);
    StepCalm(w, ptr, SendItem(w.chans[ptr], w.s.self, item, reaction));
  }

  // ----- Messages from the client -----

  lemma SameChannelsCalm(w: World, next: World)
    requires Steady(w.s, next.s) && next.chans == w.chans
    ensures Calm(w, next)
  {
    hide Steady;
  }

  /** But for the flag that cuts the client off. */
  function Spared(w: World, flag: bool): World {
    w.(s := w.s.(d := w.s.d.(needDisconnect := flag)))
  }

  lemma SparedOrNot(d: State)
    ensures d.(needDisconnect := d.needDisconnect) == d
    ensures d.(needDisconnect := true).(needDisconnect := d.needDisconnect) == d
    ensures MarkDisconnect(d).(needDisconnect := d.needDisconnect) == Request(d)
  {
  }

  lemma QueueShape(s: Session, id: nat, event: RouterEvent)
    ensures var t := QueueMessage(s, id, event);
      && t == s.(queues := t.queues, d := t.d)
      && (t.d == s.d || t.d == s.d.(needDisconnect := true) || t.d == MarkDisconnect(s.d))
  {
    hide SetQueue, MarkDisconnect;
    QueueingIsLocal(s, id, QueueOf(s, id) + [event]);
  }

  lemma QueueSteady(w: World, id: nat, event: RouterEvent)
    ensures Calm(w, Spared(w.(s := QueueMessage(w.s, id, event)), w.s.d.needDisconnect))
  {
    hide Steady, QueueMessage, MarkDisconnect, Request;
    QueueShape(w.s, id, event);
    SparedOrNot(w.s.d);
    SilentSteady(w.s, Spared(w.(s := QueueMessage(w.s, id, event)), w.s.d.needDisconnect).s);
  }

  lemma QueueingIsLocal(s: Session, id: nat, queue: seq<RouterEvent>)
    ensures SetQueue(s, id, queue) == s.(queues := SetQueue(s, id, queue).queues)
  {
  }

  lemma HandleCalm(w: World, id: nat, event: RouterEvent, reaction: Reaction)
    requires Ready(w.s.d) && id in w.s.active && w.s.active[id].ptr in w.chans
    requires w.s.active[id].blocked || Accepts(w.chans[w.s.active[id].ptr]) || w.chans[w.s.active[id].ptr].closed
    ensures Calm(w, Spared(Handle(w, id, event, reaction), w.s.d.needDisconnect))
  {
    hide Calm, SendItem, ChannelStep, QueueMessage, Accepts, Steady, MarkDisconnect, Request;
    var next := Handle(w, id, event, reaction);
    SparedOrNot(w.s.d);
    if w.s.active[id].blocked {
      QueueSteady(w, id, event);
    } else if w.s.active[id].closed || !Matches(w.chans[w.s.active[id].ptr].kind, event.data) {
      SilentSteady(w.s, Spared(next, w.s.d.needDisconnect).s);
      SameChannelsCalm(w, Spared(next, w.s.d.needDisconnect));
    } else {
      OfferIsCall(w, id, event, reaction);
      SendCalm(w, w.s.active[id].ptr, event.data, reaction);
      assert Spared(next, w.s.d.needDisconnect) == next by { CalmKeepsFlag(w, next); }
    }
  }

  lemma CalmKeepsFlag(w: World, next: World)
    requires Calm(w, next)
    ensures Spared(next, w.s.d.needDisconnect) == next
  {
  }

  lemma ReleaseCalm(w: World, ptr: Ptr)
    ensures Calm(w, Release(w, ptr))
  {
    SilentSteady(w.s, w.s);
  }

  /** A message on an inbound channel is noted when it is received, and handling it changes none of this. */
  lemma ClientDataCalm(w: World, id: nat, serial: nat, item: EventData, reaction: Reaction)
    requires Agreed(w) && id in w.s.active && !w.s.active[id].out
    ensures w.s.active[id].ptr in w.chans && Known(w)
    ensures Calm(Receive(w, id, serial, item), Spared(ClientData(w, id, serial, item, reaction), w.s.d.needDisconnect))
  {
    hide Core, AllConserved, Good, Linked, Tables, Handle, Receive, Release, Calm, TouchesOnly, Owed;
    assert Known(w) by { CoreIsKnown(w, {}, 0); }
    CoreAt(w, id, {}, 0);
    ReceiveKeeps(w, id, serial, item);
    var received, event, flag := Receive(w, id, serial, item), RouterEvent(serial, 0, item), w.s.d.needDisconnect;
    assert received.s.d.needDisconnect == flag by { ReceivingNotes(w, id, serial, item); }
    CoreAt(received, id, {}, 0);
    if !received.s.active[id].blocked { OnlyClosedRefuses(received, id, {}, 0); }
    HandleCalm(received, id, event, reaction);
    var handled, ptr := Handle(received, id, event, reaction), w.s.active[id].ptr;
    ReleaseCalm(Spared(handled, flag), ptr);
    SparingIsLast(handled, ptr, flag);
    CalmTwice(received, Spared(handled, flag), Spared(Release(handled, ptr), flag));
  }

  lemma SparingIsLast(w: World, ptr: Ptr, flag: bool)
    ensures Spared(Release(w, ptr), flag) == Release(Spared(w, flag), ptr)
  {
  }

  /** What receiving notes. */
  lemma ReceivingNotes(w: World, id: nat, serial: nat, item: EventData)
    requires id in w.s.active && w.s.active[id].ptr in w.chans
    ensures var d := Receive(w, id, serial, item).s.d;
      d == w.s.d.(incomingSerAck := serial, needsIncomingAck := true, requested := w.s.d.requested || !w.s.d.blocked)
  {
  }

  // ----- A service -----

  lemma OfferHeadCalm(w: World, id: nat, reaction: Reaction)
    requires Ready(w.s.d) && id in w.s.active && w.s.active[id].ptr in w.chans && QueueOf(w.s, id) != []
    ensures Calm(w, OfferHead(w, id, reaction))
  {
    hide Calm, SendItem, ChannelStep;
    SendCalm(w, w.s.active[id].ptr, QueueOf(w.s, id)[0].data, reaction);
  }

  lemma PopCalm(w: World, id: nat)
    requires QueueOf(w.s, id) != []
    ensures Calm(w, w.(s := SetQueue(w.s, id, QueueOf(w.s, id)[1..])))
  {
    hide Steady, SetQueue;
    QueueingIsLocal(w.s, id, QueueOf(w.s, id)[1..]);
    SilentSteady(w.s, SetQueue(w.s, id, QueueOf(w.s, id)[1..]));
  }

  lemma {:induction false} DrainQueueCalm(w: World, id: nat, reactions: seq<Reaction>, k: nat)
    requires Ready(w.s.d) && id in w.s.active && w.s.active[id].ptr in w.chans
    ensures Calm(w, DrainQueue(w, id, reactions, k))
    decreases |QueueOf(w.s, id)|
  {
    hide Calm, SendItem, ChannelStep, Accepts;
    SilentCalm(w);
    if QueueOf(w.s, id) != [] {
      var offered := OfferHead(w, id, ReactionAt(reactions, k));
      OfferHeadCalm(w, id, ReactionAt(reactions, k));
      if Accepts(w.chans[w.s.active[id].ptr]) {
        var popped := offered.(s := SetQueue(offered.s, id, QueueOf(offered.s, id)[1..]));
        PopCalm(offered, id);
        DrainQueueCalm(popped, id, reactions, k + 1);
        CalmTwice(w, offered, popped);
        CalmTwice(w, popped, DrainQueue(popped, id, reactions, k + 1));
      }
    }
  }

  lemma SilentCalm(w: World)
    ensures Calm(w, w)
  {
  }

  lemma FinishCalm(w: World, id: nat)
    requires Ready(w.s.d) && id in w.s.active && w.s.active[id].ptr in w.chans
    ensures Calm(w, FinishDrain(w, id))
  {
    hide Steady, Enqueue;
    SilentSteady(w.s, w.s);
    var blocked := w.chans[w.s.active[id].ptr].blocked;
    var updated := w.s.(active := w.s.active[id := w.s.active[id].(blocked := blocked)]);
    NoteSteady(w.s, updated, id);
    TellSteady(updated, id, StatusUnblock);
    SteadyTwice(w.s, updated, Tell(updated, id, StatusUnblock));
  }

  lemma LockCalm(w: World, ptr: Ptr)
    requires ptr in w.chans
    ensures Calm(w, w.(chans := w.chans[ptr := Lock(w.chans[ptr])]))
  {
    SilentSteady(w.s, w.s);
  }

  lemma DrainChannelCalm(w: World, id: nat, reactions: seq<Reaction>)
    requires Known(w)
    ensures Calm(w, DrainChannel(w, id, reactions).0)
  {
    hide Calm, FinishDrain, DrainQueue, Release, InUnknownState;
    SilentCalm(w);
    if id in w.s.active {
      var ptr := w.s.active[id].ptr;
      var locked := w.(chans := w.chans[ptr := Lock(w.chans[ptr])]);
      LockCalm(w, ptr);
      if w.chans[ptr].closed {
        ReleaseCalm(locked, ptr);
        CalmTwice(w, locked, Release(locked, ptr));
      } else {
        DrainQueueCalm(locked, id, reactions, 0);
        var drained := DrainQueue(locked, id, reactions, 0);
        FinishCalm(drained, id);
        var finished := FinishDrain(drained, id);
        ReleaseCalm(finished, ptr);
        CalmTwice(w, locked, drained);
        CalmTwice(w, drained, finished);
        CalmTwice(w, finished, Release(finished, ptr));
      }
    }
  }

  lemma {:induction false} DrainAllCalm(w: World, ids: seq<nat>, reactions: seq<seq<Reaction>>)
    requires Known(w)
    ensures Calm(w, DrainAll(w, ids, reactions).0)
    decreases ids
  {
    hide Calm, DrainChannel, Known;
    SilentCalm(w);
    if ids != [] {
      var first := if reactions == [] then [] else reactions[0];
      var rest := if reactions == [] then [] else reactions[1..];
      DrainChannelCalm(w, ids[0], first);
      var next := DrainChannel(w, ids[0], first).0;
      DrainAllCalm(next, ids[1..], rest);
      CalmTwice(w, next, DrainAll(next, ids[1..], rest).0);
    }
  }

  lemma UnblockedCalm(w: World, reactions: seq<seq<Reaction>>)
    requires Known(w)
    ensures Calm(w, ProcessUnblocked(w, reactions))
  {
    hide Steady, DrainAll;
    var begun := w.(s := w.s.(pendingUnblock := []));
    SilentSteady(w.s, begun.s);
    DrainAllCalm(begun, w.s.pendingUnblock, reactions);
    var done, next := DrainAll(begun, w.s.pendingUnblock, reactions).0, ProcessUnblocked(w, reactions);
    SilentSteady(done.s, next.s);
    CalmTwice(w, begun, done);
    CalmTwice(w, done, next);
  }

  // ----- Letting channels go -----

  /** The entries of these ids are gone, and only the channels they named were touched. */
  ghost predicate LetsGo(w: World, next: World, ids: set<nat>) {
    && next.s.d == w.s.d && next.s.self == w.s.self && next.s.taken == w.s.taken
    && next.s.lastChannelId == w.s.lastChannelId && next.s.maxChannels == w.s.maxChannels
    && next.s.active == w.s.active - ids
    && next.chans.Keys == w.chans.Keys
    && (forall ptr :: ptr in w.chans && (IdOf(w.s, ptr) == 0 || IdOf(w.s, ptr) !in ids) ==> next.chans[ptr] == w.chans[ptr])
  }

  lemma LetsGoOne(w: World, next: World, id: nat)
    requires Tables(w.s) && id in w.s.active && DropsOne(w, next, id)
    ensures LetsGo(w, next, {id})
  {
    hide Good, Unheld, NoRepeats;
    IdOfActive(w.s, id);
  }

  lemma LetsGoMore(w: World, mid: World, next: World, id: nat, ids: set<nat>)
    requires Tables(w.s) && id in w.s.active && DropsOne(w, mid, id) && LetsGo(mid, next, ids)
    ensures LetsGo(w, next, {id} + ids)
  {
    hide Good, Unheld, NoRepeats, IdOf, Tables;
    LetsGoOne(w, mid, id);
    DropTables(w, mid, id);
    assert next.s.active == w.s.active - ({id} + ids);
    assert w.s.active[id].ptr in w.chans ==> IdOf(w.s, w.s.active[id].ptr) == id by { IdOfActive(w.s, id); }
  }

  lemma {:induction false} DeletesLetGo(w: World)
    requires Agreed(w)
    ensures LetsGo(w, ProcessDeletes(w), SetOf(w.s.pendingDelete))
    decreases |w.s.pendingDelete|
  {
    hide Core, AllConserved, DeleteChannel, Unregister, LetsGo, DropsOne;
    if w.s.pendingDelete == [] {
      NothingToLetGo(w);
    } else {
      var id, rest := w.s.pendingDelete[0], w.s.pendingDelete[1..];
      DeleteNextDrops(w);
      DropKeeps(w, DeleteNext(w), id);
      CoreAt(w, id, {}, 0);
      DeletesOneByOne(w);
      DropIsSmaller(w, id);
      DeletesLetGo(DeleteNext(w));
      LetsGoMore(w, DeleteNext(w), ProcessDeletes(w), id, SetOf(rest));
      assert SetOf(w.s.pendingDelete) == {id} + SetOf(rest);
    }
  }

  lemma NothingToLetGo(w: World)
    requires w.s.pendingDelete == []
    ensures LetsGo(w, ProcessDeletes(w), SetOf([]))
  {
    assert w.s.active - {} == w.s.active;
  }

  // ----- A whole service -----

  lemma {:induction false} SendLoopLeavesNotes(d: State, codes: seq<SendCode>, k: nat)
    ensures var next := SendLoop(d, codes, k).0;
      next.incomingSerAck == d.incomingSerAck && next.needsIncomingAck == d.needsIncomingAck
    decreases |d.outgoing|, !d.blocked
  {
    if KeepsSending(d) { SendLoopLeavesNotes(SendOne(d, CodeAt(codes, k)).0, codes, k + 1); }
  }

  /** What is left of the session and its channels when what was due is gone. */
  ghost predicate Remains(w: World, next: World) {
    && TellsFlow(w.s.d.log, next.s.d.log)
    && next.s.self == w.s.self && next.s.taken == w.s.taken
    && next.s.lastChannelId == w.s.lastChannelId && next.s.maxChannels == w.s.maxChannels
    && next.s.active.Keys == w.s.active.Keys - SetOf(w.s.pendingDelete)
    && (forall id :: id in next.s.active ==> SameEntry(w.s.active[id], next.s.active[id]))
    && next.chans.Keys == w.chans.Keys
    && (forall id :: id in next.s.active && w.s.active[id].ptr in w.chans ==>
          next.chans[w.s.active[id].ptr].recvCallback == w.chans[w.s.active[id].ptr].recvCallback)
  }

  lemma CalmAfterLettingGo(w: World, mid: World, next: World)
    requires Tables(w.s) && LetsGo(w, mid, SetOf(w.s.pendingDelete)) && Calm(mid, next)
    ensures Remains(w, next)
  {
    hide NoRepeats, IdOf, TellsFlow;
    forall id | id in next.s.active && w.s.active[id].ptr in w.chans
      ensures next.chans[w.s.active[id].ptr].recvCallback == w.chans[w.s.active[id].ptr].recvCallback
    {
      IdOfActive(w.s, id);
    }
  }

  lemma RemainsIgnoresDelivery(w: World, next: World, d: State)
    requires Remains(w, next) && d.log == next.s.d.log
    ensures Remains(w, next.(s := next.s.(d := d)))
  {
  }

  /** A service that is not a disconnect lets go of every channel that is due and of no other, tells the client of
      changes of flow only, and sends. */
  lemma ServiceRemains(w: World, reactions: seq<seq<Reaction>>, codes: seq<SendCode>) returns (worked: State)
    requires Agreed(w) && !w.s.d.needDisconnect
    ensures Known(w)
    ensures var (next, wire) := ProcessPending(w, reactions, codes);
      && Remains(w, next) && (next.s.d, wire) == SendPhase(worked, codes)
      && OnlyTold(w.s.d, worked)
  {
    hide Core, AllConserved, ProcessUnblocked, ProcessDeletes, SendPhase, Calm, LetsGo, Remains, Tables;
    assert Known(w) by { CoreIsKnown(w, {}, 0); }
    var begun := w.(s := w.s.(d := w.s.d.(requested := false)));
    DeliveryKeeps(w, begun.s.d, {}, 0);
    DeletesKeep(begun);
    DeletesLetGo(begun);
    var deleted := ProcessDeletes(begun);
    assert Known(deleted) by { CoreIsKnown(deleted, {}, 0); }
    UnblockedCalm(deleted, reactions);
    var unblocked := ProcessUnblocked(deleted, reactions);
    assert Tables(begun.s) by { CoreHasTables(begun); }
    CalmAfterLettingGo(begun, deleted, unblocked);
    worked := unblocked.s.d;
    assert OnlyTold(deleted.s.d, worked) by { CalmOnlyTells(deleted, unblocked); }
    SendPhaseLogs(worked, codes);
    RemainsIgnoresDelivery(begun, unblocked, SendPhase(worked, codes).0);
    assert Remains(w, ProcessPending(w, reactions, codes).0) by {
      RemainsIgnoresRequest(w, begun, ProcessPending(w, reactions, codes).0);
    }
  }

  lemma CalmOnlyTells(w: World, next: World)
    requires Calm(w, next)
    ensures OnlyTold(w.s.d, next.s.d)
  {
  }

  lemma RemainsIgnoresRequest(w: World, begun: World, next: World)
    requires begun == w.(s := w.s.(d := w.s.d.(requested := false))) && Remains(begun, next)
    ensures Remains(w, next)
  {
  }
}
