/** What the client is told about each channel, read off the log of everything queued for it: a
    sequence of lives, each an opening, a first block or unblock, then data and changes of flow, then
    at most one closing. */
module ChannelHistory {
  import opened Basics
  import opened RouterEvents
  import opened Delivery
  import opened Channels
  import opened Sessions
  import opened SessionInvariant
  import opened SessionSteps
  import opened SessionService
  import opened SessionHosting
  import opened DeliveryProtocol

  /** Where in its life a channel id is, as far as the client was told. */
  datatype Phase = Idle | Opened(out: bool) | Told(out: bool, blocked: bool) | Broken

  function FeedFlow(p: Phase, out: bool, blocked: bool): Phase {
    if p.Opened? && p.out == out && !(out && blocked) then Told(out, blocked)
    else if p.Told? && !p.out && !out && p.blocked != blocked then Told(out, blocked)
    else Broken
  }

  function FeedStatus(p: Phase, change: StatusChange): Phase {
    match change.status
    case StatusOpen => if p.Idle? then Opened(change.channelOut) else Broken
    case StatusBlock => FeedFlow(p, change.channelOut, true)
    case StatusUnblock => FeedFlow(p, change.channelOut, false)
    case StatusClose => if p.Told? && p.out == change.channelOut then Idle else Broken
  }

  /** One event, as it concerns channel `id`. Data is only sent on an announced channel towards the
      client. */
  function Feed(p: Phase, about: nat, data: EventData, id: nat): Phase {
    match data
    case Nothing => p
    case Status(change) => if change.about == id then FeedStatus(p, change) else p
    case _ => if about != id || (p.Told? && p.out) then p else Broken
  }

  function PhaseOf(log: seq<RouterEvent>, id: nat): Phase {
    if log == [] then Idle
    else
      var last := log[|log| - 1];
      Feed(PhaseOf(log[..|log| - 1], id), last.channelId, last.data, id)
  }

  predicate WellFormed(log: seq<RouterEvent>, id: nat) {
    !PhaseOf(log, id).Broken?
  }

  /** A history that went wrong stays wrong, so what the client has of a good one is good. */
  lemma {:induction false} PrefixIsWellFormed(log: seq<RouterEvent>, n: nat, id: nat)
    requires n <= |log| && WellFormed(log, id)
    ensures WellFormed(log[..n], id)
    decreases |log|
  {
    if n < |log| {
      assert log[..|log| - 1][..n] == log[..n];
      PrefixIsWellFormed(log[..|log| - 1], n, id);
    } else {
      assert log[..n] == log;
    }
  }

  ghost predicate AllWellFormed(log: seq<RouterEvent>) {
    forall id :: id != 0 ==> WellFormed(log, id)
  }

  /** What the session believes it has told. A closed channel keeps its id until it is let go. */
  function Expected(s: Session, id: nat): Phase {
    if id !in s.active || s.active[id].closed then Idle else Told(s.active[id].out, s.active[id].blocked)
  }

  ghost predicate WireGood(s: Session) {
    forall id :: id != 0 ==> PhaseOf(s.d.log, id) == Expected(s, id)
  }

  lemma EnqueueFeeds(d: State, about: nat, data: EventData, id: nat)
    requires Ready(d)
    ensures PhaseOf(Enqueue(d, about, data).log, id) == Feed(PhaseOf(d.log, id), about, data, id)
    ensures Ready(Enqueue(d, about, data))
  {
  }

  lemma TellFeeds(s: Session, id: nat, status: ChannelStatus, other: nat)
    requires Ready(s.d) && id in s.active
    ensures PhaseOf(Tell(s, id, status).d.log, other)
      == if other == id then FeedStatus(PhaseOf(s.d.log, id), StatusChange(status, s.active[id].out, id))
         else PhaseOf(s.d.log, other)
    ensures TellAndRequest(s, id, status).d.log == Tell(s, id, status).d.log
  {
  }

  /** A callback tells the client what the session notes. */
  lemma BlockedCallWires(s: Session, id: nat)
    requires Tables(s) && Ready(s.d) && id in s.active && WireGood(s) && !s.active[id].closed
    ensures WireGood(FlowBlockedCall(s, s.active[id].ptr))
  {
    hide Tables, Enqueue, RemoveFirst;
    IdOfActive(s, id);
    forall other | other != 0
      ensures PhaseOf(FlowBlockedCall(s, s.active[id].ptr).d.log, other)
        == Expected(FlowBlockedCall(s, s.active[id].ptr), other)
    {
      TellFeeds(s, id, StatusBlock, other);
    }
  }

  lemma OpenCallWires(s: Session, id: nat)
    requires Tables(s) && id in s.active && WireGood(s)
    ensures WireGood(FlowOpenCall(s, s.active[id].ptr))
  {
  }

  lemma ClosedCallWires(s: Session, id: nat)
    requires Tables(s) && Ready(s.d) && id in s.active && WireGood(s) && !s.active[id].closed
    ensures WireGood(FlowClosedCall(s, s.active[id].ptr))
  {
    IdOfActive(s, id);
    forall other | other != 0
      ensures PhaseOf(FlowClosedCall(s, s.active[id].ptr).d.log, other)
        == Expected(FlowClosedCall(s, s.active[id].ptr), other)
    {
      TellFeeds(s, id, StatusClose, other);
    }
  }

  lemma CallWires(w: World, id: nat, c1: Channel, todo: set<nat>, current: nat)
    requires Core(w, todo, current) && id in w.s.active && OneCall(w, id, c1) && WireGood(w.s)
    ensures WireGood(ChannelStep(w, w.s.active[id].ptr, c1).s)
  {
    hide RefsGood, LifeGood, OthersUnheld, WireGood, Tables;
    var c := w.chans[w.s.active[id].ptr];
    assert Linked(w.s, id, c, todo, current) && Good(c);
    if c1.lastStatus != c.lastStatus {
      match c1.lastStatus
      case FlowBlocked => BlockedCallWires(w.s, id);
      case FlowOpen => OpenCallWires(w.s, id);
      case FlowClosed => ClosedCallWires(w.s, id);
    }
  }

  /** Neither the log nor what is noted of the channels changed. */
  lemma SilentWires(s: Session, t: Session)
    requires WireGood(s) && t.d.log == s.d.log && t.active == s.active
    ensures WireGood(t)
  {
  }

  lemma AnnounceFeeds(d: State, id: nat, out: bool, blocked: bool, other: nat)
    requires Ready(d)
    ensures PhaseOf(Announce(d, id, out, blocked).log, other)
      == if other == id then FeedFlow(FeedStatus(PhaseOf(d.log, id), StatusChange(StatusOpen, out, id)), out, blocked)
         else PhaseOf(d.log, other)
  {
    hide Enqueue, PhaseOf, FeedFlow;
    var opening := Status(StatusChange(StatusOpen, out, id));
    EnqueueFeeds(d, 0, opening, other);
    var announced := RequestUnlessBlocked(Enqueue(d, 0, opening));
    EnqueueFeeds(announced, 0, Status(StatusChange(if blocked then StatusBlock else StatusUnblock, out, id)), other);
  }

  /** A new channel is announced, with its flow, under an id that was idle. */
  lemma AddWires(w: World, ptr: Ptr, out: bool)
    requires Core(w, {}, 0) && CanAdd(w, ptr) && WireGood(w.s)
    ensures WireGood(AddChannel(w, ptr, out).s)
  {
    hide Good, OthersUnheld, AllLinked, Tables, Register, Held, Announce, IdOf;
    AddShape(w, ptr, out);
    var next := AddChannel(w, ptr, out).s;
    var id, blocked := next.lastChannelId, !out && w.chans[ptr].blocked;
    forall other | other != 0 ensures PhaseOf(next.d.log, other) == Expected(next, other) {
      AnnounceFeeds(w.s.d, id, out, blocked, other);
    }
  }

  /** Data goes out only on a channel that was announced and not closed. */
  lemma DataWires(s: Session, id: nat, item: EventData)
    requires Tables(s) && Ready(s.d) && id in s.active && WireGood(s)
    requires s.active[id].out && !s.active[id].closed && (item.Text? || item.Enhanced?)
    ensures WireGood(ChannelData(s, s.active[id].ptr, item))
  {
  }

  // ----- What a service tells -----

  /** The receiver lets everything through and closes the channel while it is handed the last of the
      `count` items. */
  predicate ClosesOnLast(c: Channel, count: nat, reactions: seq<Reaction>, k: nat) {
    && Accepts(c) && c.recvPid == 0 && c.recvCallback != 0 && count > 0
    && (forall i :: k <= i < k + count - 1 ==> ReactionAt(reactions, i).Quiet?)
    && ReactionAt(reactions, k + count - 1).Closes?
  }

  /** What becomes of an open channel that is handed an item. */
  lemma SendOutcome(c: Channel, sender: Ptr, item: EventData, reaction: Reaction)
    requires Good(c) && Accepts(c)
    ensures var c1 := SendItem(c, sender, item, reaction);
      var reacts := c.recvPid == 0 && c.recvCallback != 0;
      && (c1.closed <==> reacts && reaction.Closes?) && (c1.closed ==> !c1.blocked)
      && (Accepts(c1) <==> !reacts || reaction.Quiet?)
      && c1.recvPid == c.recvPid && c1.recvCallback == c.recvCallback
  {
  }

  /** The session listens, so it notices when an active channel closes. */
  lemma ClosingIsNoticed(w: World, id: nat, c1: Channel, todo: set<nat>, current: nat)
    requires Core(w, todo, current) && id in w.s.active && OneCall(w, id, c1)
    requires !w.chans[w.s.active[id].ptr].closed && c1.closed
    ensures var next := ChannelStep(w, w.s.active[id].ptr, c1); id in next.s.active && next.s.active[id].closed
  {
    hide RefsGood, LifeGood, OthersUnheld, Tables;
    var c := w.chans[w.s.active[id].ptr];
    assert Linked(w.s, id, c, todo, current) && Good(c);
    assert w.s.self in c.listeners;
    IdOfIs(w, id, todo, current);
  }

  lemma IdOfIs(w: World, id: nat, todo: set<nat>, current: nat)
    requires Core(w, todo, current) && id in w.s.active
    ensures IdOf(w.s, w.s.active[id].ptr) == id && id != 0
  {
    hide Good, OthersUnheld, Linked;
    IdOfActive(w.s, id);
  }

  lemma SendIsOneCall(w: World, id: nat, item: EventData, reaction: Reaction, todo: set<nat>, current: nat)
    requires Core(w, todo, current) && id in w.s.active
    ensures w.s.active[id].ptr in w.chans
    ensures OneCall(w, id, SendItem(w.chans[w.s.active[id].ptr], w.s.self, item, reaction))
  {
    hide Core, Good, SendItem, SameFor, Linked, Accepts;
    CoreAt(w, id, todo, current);
    SendItemKeeps(w.chans[w.s.active[id].ptr], w.s.self, item, reaction);
    SendChangesOnlyItems(w.chans[w.s.active[id].ptr], w.s.self, item, reaction, w.s.self);
  }

  lemma OfferWires(w: World, id: nat, reaction: Reaction, todo: set<nat>)
    requires Draining(w, todo, id) && id in w.s.active && QueueOf(w.s, id) != [] && WireGood(w.s)
    ensures w.s.active[id].ptr in w.chans && Ready(w.s.d) && WireGood(OfferHead(w, id, reaction).s)
  {
    hide Core, AllConserved, WireGood, SendItem, Good, ChannelStep;
    CoreAt(w, id, todo, id);
    var item := QueueOf(w.s, id)[0].data;
    SendIsOneCall(w, id, item, reaction, todo, id);
    CallWires(w, id, SendItem(w.chans[w.s.active[id].ptr], w.s.self, item, reaction), todo, id);
  }

  /** What one turn of the drain makes of the channel. */
  lemma DrainOneOutcome(w: World, id: nat, reaction: Reaction, todo: set<nat>)
    requires Draining(w, todo, id) && id in w.s.active && QueueOf(w.s, id) != []
    requires w.s.active[id].ptr in w.chans && Accepts(w.chans[w.s.active[id].ptr]) && Ready(w.s.d)
    ensures var c, next := w.chans[w.s.active[id].ptr], DrainOne(w, id, reaction);
      && id in next.s.active && next.s.active[id].ptr == w.s.active[id].ptr && w.s.active[id].ptr in next.chans
      && var c1 := next.chans[w.s.active[id].ptr];
      && c1 == SendItem(c, w.s.self, QueueOf(w.s, id)[0].data, reaction)
      && (c1.closed ==> next.s.active[id].closed && !c1.blocked)
  {
    hide Core, AllConserved, WireGood, SendItem, Good, ChannelStep, Linked;
    CoreAt(w, id, todo, id);
    var c, item := w.chans[w.s.active[id].ptr], QueueOf(w.s, id)[0].data;
    SendIsOneCall(w, id, item, reaction, todo, id);
    var c1 := SendItem(c, w.s.self, item, reaction);
    assert !c.closed by { OpenIsNotClosed(c); }
    SendOutcome(c, w.s.self, item, reaction);
    if c1.closed { ClosingIsNoticed(w, id, c1, todo, id); }
  }

  lemma OpenIsNotClosed(c: Channel)
    requires Good(c) && Accepts(c)
    ensures !c.closed && !c.blocked
  {
  }

  lemma ClosesOnLastStep(c: Channel, sender: Ptr, item: EventData, count: nat, reactions: seq<Reaction>, k: nat)
    requires Good(c) && Accepts(c) && count > 0
    ensures var c1 := SendItem(c, sender, item, ReactionAt(reactions, k));
      ClosesOnLast(c, count, reactions, k)
      <==> if c1.closed then count == 1 else ClosesOnLast(c1, count - 1, reactions, k + 1)
  {
  }

  lemma PopWires(s: Session, id: nat)
    requires WireGood(s) && QueueOf(s, id) != []
    ensures WireGood(SetQueue(s, id, QueueOf(s, id)[1..]))
  {
  }

  /** A turn that hands over an item leaves one turn less to look at. */
  lemma DrainTurn(w: World, id: nat, reactions: seq<Reaction>, k: nat, todo: set<nat>)
    requires Draining(w, todo, id) && id in w.s.active && id !in todo && WireGood(w.s) && QueueOf(w.s, id) != []
    requires w.s.active[id].ptr in w.chans && Ready(w.s.d) && Accepts(w.chans[w.s.active[id].ptr])
    ensures var mid, c, count := DrainOne(w, id, ReactionAt(reactions, k)), w.chans[w.s.active[id].ptr], |QueueOf(w.s, id)|;
      && Draining(mid, todo, id) && WireGood(mid.s) && Ready(mid.s.d) && id in mid.s.active
      && mid.s.active[id].ptr == w.s.active[id].ptr && w.s.active[id].ptr in mid.chans
      && |QueueOf(mid.s, id)| == count - 1
      && var c1 := mid.chans[w.s.active[id].ptr];
      && (c1.closed ==> mid.s.active[id].closed && !c1.blocked)
      && (ClosesOnLast(c, count, reactions, k)
          <==> if c1.closed then count == 1 else ClosesOnLast(c1, count - 1, reactions, k + 1))
  {
    hide Core, AllConserved, WireGood, SendItem, Good, Linked, TouchesOnly, OfferHead, Accepts, SetQueue,
      ClosesOnLast, Tables;
    CoreAt(w, id, todo, id);
    var c, reaction := w.chans[w.s.active[id].ptr], ReactionAt(reactions, k);
    OfferWires(w, id, reaction, todo);
    OfferHeadKeeps(w, id, reaction, todo);
    DrainOneOutcome(w, id, reaction, todo);
    DrainOneKeeps(w, id, reaction, todo);
    ClosesOnLastStep(c, w.s.self, QueueOf(w.s, id)[0].data, |QueueOf(w.s, id)|, reactions, k);
    PopWires(OfferHead(w, id, reaction).s, id);
    assert Ready(DrainOne(w, id, reaction).s.d) by { CoreAt(DrainOne(w, id, reaction), id, todo, id); }
  }

  /** Nothing is held back, or the channel refuses: the drain is over. */
  lemma DrainRests(w: World, id: nat, reactions: seq<Reaction>, k: nat, todo: set<nat>)
    requires Draining(w, todo, id) && id in w.s.active && id !in todo
    requires w.s.active[id].ptr in w.chans && Ready(w.s.d)
    requires QueueOf(w.s, id) == [] || !Accepts(w.chans[w.s.active[id].ptr])
    ensures DrainQueue(w, id, reactions, k) == w
  {
    hide Core, AllConserved, SendItem, Linked, TouchesOnly, Good, OfferHead, Accepts;
    if QueueOf(w.s, id) != [] { OfferHeadKeeps(w, id, ReactionAt(reactions, k), todo); }
  }

  /** A drain ends with an empty backlog and a closed channel exactly when the receiver closes the
      channel on the last item. */
  lemma {:induction false} DrainOutcome(w: World, id: nat, reactions: seq<Reaction>, k: nat, todo: set<nat>)
    requires Draining(w, todo, id) && id in w.s.active && id !in todo && WireGood(w.s)
    requires w.s.active[id].ptr in w.chans && Ready(w.s.d)
    requires !w.chans[w.s.active[id].ptr].closed
    ensures var next, c := DrainQueue(w, id, reactions, k), w.chans[w.s.active[id].ptr];
      var c1 := next.chans[w.s.active[id].ptr];
      && WireGood(next.s) && (c1.closed ==> next.s.active[id].closed && !c1.blocked)
      && (c1.closed && QueueOf(next.s, id) == [] <==> ClosesOnLast(c, |QueueOf(w.s, id)|, reactions, k))
    decreases |QueueOf(w.s, id)|
  {
    hide Draining, WireGood, OfferHead, Accepts, SetQueue, ClosesOnLast, DrainOne;
    var c := w.chans[w.s.active[id].ptr];
    ClosingNeedsItems(c, |QueueOf(w.s, id)|, reactions, k);
    if QueueOf(w.s, id) == [] || !Accepts(c) {
      DrainRests(w, id, reactions, k, todo);
    } else {
      DrainTurn(w, id, reactions, k, todo);
      var mid := DrainOne(w, id, ReactionAt(reactions, k));
      DrainUnfolds(w, id, reactions, k);
      if mid.chans[w.s.active[id].ptr].closed {
        assert !Accepts(mid.chans[w.s.active[id].ptr]) by { ClosedRefuses(mid, id, todo); }
        DrainRests(mid, id, reactions, k + 1, todo);
      } else {
        DrainOutcome(mid, id, reactions, k + 1, todo);
      }
    }
  }

  lemma DrainUnfolds(w: World, id: nat, reactions: seq<Reaction>, k: nat)
    requires Ready(w.s.d) && id in w.s.active && w.s.active[id].ptr in w.chans && QueueOf(w.s, id) != []
    requires Accepts(w.chans[w.s.active[id].ptr])
    ensures var mid := DrainOne(w, id, ReactionAt(reactions, k));
      && Ready(mid.s.d) && id in mid.s.active && mid.s.active[id].ptr in mid.chans
      && DrainQueue(w, id, reactions, k) == DrainQueue(mid, id, reactions, k + 1)
  {
    hide SendItem, ChannelStep;
  }

  lemma ClosedRefuses(w: World, id: nat, todo: set<nat>)
    requires Draining(w, todo, id) && id in w.s.active
    requires w.s.active[id].ptr in w.chans && w.chans[w.s.active[id].ptr].closed
    ensures !Accepts(w.chans[w.s.active[id].ptr])
  {
    hide Core, AllConserved, Linked, RefsGood, LifeGood;
    CoreAt(w, id, todo, id);
  }

  lemma ClosingNeedsItems(c: Channel, count: nat, reactions: seq<Reaction>, k: nat)
    ensures ClosesOnLast(c, count, reactions, k) ==> Accepts(c) && count > 0
  {
  }

  /** The end of a drain reports the channel unblocked even when it has closed meanwhile. */
  lemma FinishWires(w: World, id: nat, todo: set<nat>)
    requires Draining(w, todo, id) && id in w.s.active && id !in todo && WireGood(w.s)
    requires w.s.active[id].ptr in w.chans && Ready(w.s.d)
    requires w.chans[w.s.active[id].ptr].closed ==> w.s.active[id].closed && !w.chans[w.s.active[id].ptr].blocked
    ensures var bad := w.chans[w.s.active[id].ptr].closed && QueueOf(w.s, id) == [];
      && (!bad ==> WireGood(FinishDrain(w, id).s))
      && (bad ==> !WellFormed(FinishDrain(w, id).s.d.log, id))
  {
    hide AllConserved, Good, Enqueue, PhaseOf, OthersUnheld, Tables;
    CurrentIsInbound(w, todo, id);
    CoreAt(w, id, todo, id);
    IdOfIs(w, id, todo, id);
    var c := w.chans[w.s.active[id].ptr];
    var updated := w.s.(active := w.s.active[id := w.s.active[id].(blocked := c.blocked)]);
    assert Linked(w.s, id, c, todo, id);
    forall other | other != 0 ensures PhaseOf(Tell(updated, id, StatusUnblock).d.log, other)
      == if other == id then FeedFlow(Expected(w.s, id), false, false) else Expected(w.s, other)
    {
      TellFeeds(updated, id, StatusUnblock, other);
    }
  }

  /** The guard of the branch that misreports, for one scheduled channel. */
  predicate Misreports(w: World, id: nat, reactions: seq<Reaction>) {
    && id in w.s.active && w.s.active[id].ptr in w.chans
    && ClosesOnLast(w.chans[w.s.active[id].ptr], |QueueOf(w.s, id)|, reactions, 0)
  }

  /** Draining a channel keeps the history in step, or breaks it in the one case. */
  lemma DrainChannelWires(w: World, id: nat, reactions: seq<Reaction>, todo: set<nat>)
    requires Draining(w, todo + {id}, 0) && id in w.s.active && id !in todo && id != 0 && WireGood(w.s)
    ensures Known(w)
    ensures var next := DrainChannel(w, id, reactions).0;
      && (!Misreports(w, id, reactions) ==> WireGood(next.s))
      && (Misreports(w, id, reactions) ==> !WellFormed(next.s.d.log, id))
  {
    hide Core, AllConserved, Good, Linked, Tables, WireGood, FinishDrain, DrainQueue, WellFormed, TouchesOnly,
      ClosesOnLast;
    assert Known(w) by { CoreIsKnown(w, todo + {id}, 0); }
    CoreAt(w, id, todo + {id}, 0);
    var ptr := w.s.active[id].ptr;
    var locked := w.(chans := w.chans[ptr := Lock(w.chans[ptr])]);
    LockIsNoReason(w.chans[ptr], |QueueOf(w.s, id)|, reactions);
    if !w.chans[ptr].closed {
      BeginDrain(w, id, todo);
      DrainOutcome(locked, id, reactions, 0, todo);
      DrainQueueKeeps(locked, id, reactions, 0, todo);
      var drained := DrainQueue(locked, id, reactions, 0);
      FinishWires(drained, id, todo);
    }
  }

  lemma LockIsNoReason(c: Channel, count: nat, reactions: seq<Reaction>)
    requires Good(c)
    ensures ClosesOnLast(Lock(c), count, reactions, 0) <==> ClosesOnLast(c, count, reactions, 0)
    ensures c.closed ==> !ClosesOnLast(c, count, reactions, 0)
  {
  }

  /** The other channels are what they were, so their guards can be checked up front. */
  lemma MisreportsIsLocal(w: World, next: World, id: nat, other: nat, reactions: seq<Reaction>)
    requires Tables(w.s) && id in w.s.active && TouchesOnly(w, next, id) && other != id
    requires other in w.s.active ==> w.s.active[other].ptr in w.chans
    ensures Misreports(next, other, reactions) <==> Misreports(w, other, reactions)
  {
  }

  function ReactionsFor(reactions: seq<seq<Reaction>>, k: nat): seq<Reaction> {
    if k < |reactions| then reactions[k] else []
  }

  /** Some scheduled channel is closed by its receiver on the last item held back for it. */
  predicate SomeMisreport(w: World, ids: seq<nat>, reactions: seq<seq<Reaction>>) {
    exists k :: 0 <= k < |ids| && Misreports(w, ids[k], ReactionsFor(reactions, k))
  }

  lemma BrokenStays(d: State, next: State, id: nat)
    requires Hosted(d, next) && !WellFormed(d.log, id)
    ensures !WellFormed(next.log, id)
  {
    hide WellFormed, Hosted;
    LogGrows(d, next);
    assert next.log[..|d.log|] == d.log;
    if WellFormed(next.log, id) {
      PrefixIsWellFormed(next.log, |d.log|, id);
    }
  }

  lemma SomeMisreportStep(w: World, next: World, ids: seq<nat>, reactions: seq<seq<Reaction>>)
    requires ids != [] && NoRepeats(ids) && Tables(w.s) && ids[0] in w.s.active && TouchesOnly(w, next, ids[0])
    requires forall id :: id in ids ==> id in w.s.active && w.s.active[id].ptr in w.chans
    ensures SomeMisreport(w, ids, reactions)
      <==> Misreports(w, ids[0], ReactionsFor(reactions, 0))
           || SomeMisreport(next, ids[1..], if reactions == [] then [] else reactions[1..])
  {
    hide Misreports, Tables, TouchesOnly;
    var rest := if reactions == [] then [] else reactions[1..];
    forall k | 0 < k < |ids|
      ensures Misreports(next, ids[1..][k - 1], ReactionsFor(rest, k - 1)) <==> Misreports(w, ids[k], ReactionsFor(reactions, k))
    {
      assert ids[k] in ids;
      MisreportsIsLocal(w, next, ids[0], ids[k], ReactionsFor(reactions, k));
      assert ReactionsFor(rest, k - 1) == ReactionsFor(reactions, k);
    }
    if SomeMisreport(w, ids, reactions) {
      var k :| 0 <= k < |ids| && Misreports(w, ids[k], ReactionsFor(reactions, k));
      assert k > 0 ==> Misreports(next, ids[1..][k - 1], ReactionsFor(rest, k - 1));
    }
    if SomeMisreport(next, ids[1..], rest) {
      var k :| 0 <= k < |ids[1..]| && Misreports(next, ids[1..][k], ReactionsFor(rest, k));
      assert Misreports(w, ids[k + 1], ReactionsFor(reactions, k + 1));
    }
  }

  /** What the client is told stays well-formed through a service exactly when no scheduled channel is
      closed by its receiver on the last item held back for it. */
  lemma {:induction false} DrainAllWires(w: World, ids: seq<nat>, reactions: seq<seq<Reaction>>)
    requires Draining(w, SetOf(ids), 0) && WireGood(w.s)
    requires NoRepeats(ids) && forall id :: id in ids ==> id in w.s.active && id != 0
    ensures Known(w)
    ensures var done := DrainAll(w, ids, reactions).0;
      && (!SomeMisreport(w, ids, reactions) ==> WireGood(done.s))
      && (SomeMisreport(w, ids, reactions) ==> !AllWellFormed(done.s.d.log))
    decreases ids
  {
    hide Core, AllConserved, WireGood, DrainChannel, SomeMisreport, WellFormed, Misreports, Tables, TouchesOnly, Hosted;
    assert Known(w) by { DrainingIsKnown(w, SetOf(ids)); }
    if ids == [] {
      assert !SomeMisreport(w, ids, reactions) by { NoneMisreports(w, reactions); }
    } else {
      var first := if reactions == [] then [] else reactions[0];
      var rest := if reactions == [] then [] else reactions[1..];
      assert NoRepeats(ids[1..]) && forall id :: id in ids[1..] ==> id in ids;
      assert SetOf(ids) == SetOf(ids[1..]) + {ids[0]};
      CoreAt(w, ids[0], SetOf(ids), 0);
      DrainChannelKeeps(w, ids[0], first, SetOf(ids[1..]));
      DrainChannelWires(w, ids[0], first, SetOf(ids[1..]));
      var next := DrainChannel(w, ids[0], first).0;
      assert Known(next) by { DrainingIsKnown(next, SetOf(ids[1..])); }
      SomeMisreportStep(w, next, ids, reactions);
      if Misreports(w, ids[0], first) {
        DrainAllIsHosted(next, ids[1..], rest);
        BrokenStays(next.s.d, DrainAll(next, ids[1..], rest).0.s.d, ids[0]);
      } else {
        DrainAllWires(next, ids[1..], rest);
      }
    }
  }

  lemma NoneMisreports(w: World, reactions: seq<seq<Reaction>>)
    ensures !SomeMisreport(w, [], reactions)
  {
  }

  // ----- What the other steps tell -----

  /** A closed channel that is let go was told closed already; its id is idle. */
  lemma DropWires(w: World, next: World, id: nat)
    requires id in w.s.active && w.s.active[id].closed && DropsOne(w, next, id) && WireGood(w.s)
    ensures WireGood(next.s)
  {
  }

  lemma {:induction false} DeletesWire(w: World)
    requires Agreed(w) && WireGood(w.s)
    ensures WireGood(ProcessDeletes(w).s)
    decreases |w.s.pendingDelete|
  {
    hide Core, AllConserved, DeleteChannel, Unregister, WireGood;
    if w.s.pendingDelete == [] {
      SilentWires(w.s, ProcessDeletes(w).s);
    } else {
      var id := w.s.pendingDelete[0];
      DeleteNextDrops(w);
      PendingIsClosed(w);
      DropKeeps(w, DeleteNext(w), id);
      DropWires(w, DeleteNext(w), id);
      DeletesOneByOne(w);
      DropIsSmaller(w, id);
      DeletesWire(DeleteNext(w));
    }
  }

  lemma PendingIsClosed(w: World)
    requires Core(w, {}, 0) && w.s.pendingDelete != []
    ensures w.s.pendingDelete[0] in w.s.active && w.s.active[w.s.pendingDelete[0]].closed
  {
  }

  lemma OpIsOneCall(w: World, id: nat, op: ChannelOp, todo: set<nat>, current: nat)
    requires Core(w, todo, current) && id in w.s.active
    requires Allowed(w.chans[w.s.active[id].ptr], op) && ByOthers(op, w.s.self)
    ensures OneCall(w, id, Apply(w.chans[w.s.active[id].ptr], op))
  {
    hide Core, StatusGood, RefsGood, Apply, SameFor, Linked, Tables;
    CoreAt(w, id, todo, current);
    var c := w.chans[w.s.active[id].ptr];
    OpKeepsGood(c, op);
    OthersLeaveMeAlone(c, op, w.s.self);
    SameForIgnoresItems(w.s.self, c, Apply(c, op));
  }

  lemma CloseWires(w: World, id: nat)
    requires Agreed(w) && WireGood(w.s)
    ensures Known(w) && WireGood(RequestClose(w, id).s)
  {
    hide Core, AllConserved, WireGood, Good, Linked, Tables, Apply, ChannelStep;
    assert Known(w) by { CoreIsKnown(w, {}, 0); }
    if id in w.s.active {
      CoreAt(w, id, {}, 0);
      var c := w.chans[w.s.active[id].ptr];
      CloseIsApply(c);
      OpIsOneCall(w, id, OpClose, {}, 0);
      CallWires(w, id, Close(c), {}, 0);
    }
  }

  lemma HandleWires(w: World, id: nat, event: RouterEvent, reaction: Reaction)
    requires Core(w, {}, 0) && id in w.s.active && !w.s.active[id].out && WireGood(w.s)
    ensures WireGood(Handle(w, id, event, reaction).s)
  {
    hide Core, WireGood, Good, Linked, Tables, SendItem, ChannelStep, Accepts;
    CoreAt(w, id, {}, 0);
    var c := w.chans[w.s.active[id].ptr];
    if w.s.active[id].blocked {
      SilentWires(w.s, QueueMessage(w.s, id, event));
    } else if !w.s.active[id].closed && Matches(c.kind, event.data) {
      OnlyClosedRefuses(w, id, {}, 0);
      SendIsOneCall(w, id, event.data, reaction, {}, 0);
      CallWires(w, id, SendItem(c, w.s.self, event.data, reaction), {}, 0);
    } else {
      SilentWires(w.s, Handle(w, id, event, reaction).s);
    }
  }

  lemma ClientDataWires(w: World, id: nat, serial: nat, item: EventData, reaction: Reaction)
    requires Agreed(w) && WireGood(w.s)
    ensures Known(w) && WireGood(ClientData(w, id, serial, item, reaction).s)
  {
    hide Core, AllConserved, WireGood, Good, Linked, Tables, Handle, Receive;
    assert Known(w) by { CoreIsKnown(w, {}, 0); }
    if id in w.s.active {
      CoreAt(w, id, {}, 0);
      if w.s.active[id].out {
        SilentWires(w.s, w.s.(d := MarkDisconnect(w.s.d)));
      } else {
        ReceiveKeeps(w, id, serial, item);
        var received := Receive(w, id, serial, item);
        assert received.s.d.log == w.s.d.log && Ready(received.s.d) by { ReceiveLeavesLog(w, id, serial, item); }
        SilentWires(w.s, received.s);
        CoreAt(received, id, {}, 0);
        HandleWires(received, id, RouterEvent(serial, 0, item), reaction);
      }
    }
  }

  lemma ReceiveLeavesLog(w: World, id: nat, serial: nat, item: EventData)
    requires Ready(w.s.d) && id in w.s.active && w.s.active[id].ptr in w.chans
    ensures var d := Receive(w, id, serial, item).s.d; d.log == w.s.d.log && Ready(d)
  {
  }

  lemma ForeignWires(w: World, ptr: Ptr, op: ChannelOp)
    requires Agreed(w) && ptr in w.chans && Allowed(w.chans[ptr], op) && ByOthers(op, w.s.self) && WireGood(w.s)
    requires op.OpSend? ==> op.item.Text? || op.item.Enhanced?
    ensures Ready(w.s.d) && WireGood(ForeignNext(w, ptr, op).s)
  {
    hide Core, AllConserved, WireGood, Good, Linked, Tables, Apply, ChannelStep, SendItem, ChannelData;
    assert Ready(w.s.d) by { CoreIsKnown(w, {}, 0); }
    var id := IdOf(w.s, ptr);
    if id == 0 {
      UnheldIsSilent(w, ptr, op);
    } else {
      CoreAt(w, id, {}, 0);
      if Arrives(w, ptr, op) {
        ArrivesAtReceiver(w, id, op);
        DataWires(w.s, id, op.item);
      } else {
        OpIsOneCall(w, id, op, {}, 0);
        CallWires(w, id, Apply(w.chans[ptr], op), {}, 0);
      }
    }
  }

  /** What arrives, arrives on an open channel towards the client. */
  lemma ArrivesAtReceiver(w: World, id: nat, op: ChannelOp)
    requires Core(w, {}, 0) && id in w.s.active && w.s.active[id].ptr in w.chans && Arrives(w, w.s.active[id].ptr, op)
    ensures w.s.active[id].out && !w.s.active[id].closed
  {
    hide RefsGood, LifeGood, Tables, OthersUnheld;
    var c := w.chans[w.s.active[id].ptr];
    assert Linked(w.s, id, c, {}, 0) && Good(c);
  }

  lemma UnheldIsSilent(w: World, ptr: Ptr, op: ChannelOp)
    requires Agreed(w) && ptr in w.chans && Allowed(w.chans[ptr], op) && ByOthers(op, w.s.self)
    requires IdOf(w.s, ptr) == 0
    ensures Ready(w.s.d) && ForeignNext(w, ptr, op).s == w.s
  {
  }

  /** The guard of the misreporting branch, for a whole service. */
  ghost predicate ServiceMisreports(w: World, reactions: seq<seq<Reaction>>) {
    var deleted := ProcessDeletes(w.(s := w.s.(d := w.s.d.(requested := false))));
    !w.s.d.needDisconnect && SomeMisreport(deleted, deleted.s.pendingUnblock, reactions)
  }

  lemma UnblockedWires(w: World, reactions: seq<seq<Reaction>>)
    requires Agreed(w) && WireGood(w.s)
    ensures Known(w)
    ensures var next := ProcessUnblocked(w, reactions);
      && (!SomeMisreport(w, w.s.pendingUnblock, reactions) ==> WireGood(next.s))
      && (SomeMisreport(w, w.s.pendingUnblock, reactions) ==> !AllWellFormed(next.s.d.log))
  {
    hide Core, AllConserved, DrainAll, WireGood, AllWellFormed, Misreports;
    assert Known(w) by { CoreIsKnown(w, {}, 0); }
    var begun := w.(s := w.s.(pendingUnblock := []));
    ScheduleIsDue(w);
    SilentWires(w.s, begun.s);
    DrainAllWires(begun, w.s.pendingUnblock, reactions);
    SchedulesAlike(w, begun, reactions);
    var (done, invalid) := DrainAll(begun, w.s.pendingUnblock, reactions);
    if WireGood(done.s) { SilentWires(done.s, done.s.(queues := done.s.queues - invalid)); }
  }

  lemma SchedulesAlike(w: World, begun: World, reactions: seq<seq<Reaction>>)
    requires begun == w.(s := w.s.(pendingUnblock := []))
    ensures SomeMisreport(begun, w.s.pendingUnblock, reactions) <==> SomeMisreport(w, w.s.pendingUnblock, reactions)
  {
  }

  /** A service keeps the history in step, or breaks it in the one case. */
  lemma ServiceWires(w: World, reactions: seq<seq<Reaction>>, codes: seq<SendCode>)
    requires Agreed(w) && WireGood(w.s)
    ensures Known(w)
    ensures var next := ProcessPending(w, reactions, codes).0;
      && (!ServiceMisreports(w, reactions) ==> WireGood(next.s))
      && (ServiceMisreports(w, reactions) ==> !AllWellFormed(next.s.d.log))
  {
    hide Core, AllConserved, WireGood, AllWellFormed, ProcessUnblocked, ProcessDeletes, SendPhase, SomeMisreport;
    assert Known(w) by { CoreIsKnown(w, {}, 0); }
    var begun := w.(s := w.s.(d := w.s.d.(requested := false)));
    DeliveryKeeps(w, begun.s.d, {}, 0);
    SilentWires(w.s, begun.s);
    var next := ProcessPending(w, reactions, codes).0;
    if w.s.d.needDisconnect {
      SilentWires(begun.s, next.s);
    } else {
      var deleted := ProcessDeletes(begun);
      DeletesKeep(begun);
      DeletesWire(begun);
      UnblockedWires(deleted, reactions);
      SendPhaseLogs(ProcessUnblocked(deleted, reactions).s.d, codes);
      if !ServiceMisreports(w, reactions) { SilentWires(ProcessUnblocked(deleted, reactions).s, next.s); }
    }
  }
}
