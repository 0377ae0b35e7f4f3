/** Every step of a session and its channels keeps what they agree on. */
module SessionSteps {
  import opened Basics
  import opened RouterEvents
  import opened Delivery
  import opened Channels
  import opened ChannelIds
  import opened Sessions
  import opened SessionInvariant

  ghost predicate Agreed(w: World) {
    Core(w, {}, 0) && AllConserved(w)
  }

  // ----- Steps that leave the session's view of its channels alone -----

  /** Apart from the delivery half the session is the same, and so are its channels. */
  ghost predicate SameView(w: World, next: World) {
    && next.s == w.s.(d := next.s.d)
    && w.chans.Keys <= next.chans.Keys
    && (forall id :: id in w.s.active && w.s.active[id].ptr in w.chans ==>
          next.chans[w.s.active[id].ptr] == w.chans[w.s.active[id].ptr])
  }

  lemma SameIds(s: Session, t: Session)
    requires Tables(s) && t.active == s.active
    ensures forall ptr :: IdOf(t, ptr) == IdOf(s, ptr)
  {
  }

  lemma SameViewLinked(w: World, next: World, todo: set<nat>, current: nat)
    requires AllLinked(w, todo, current) && SameView(w, next)
    ensures AllLinked(next, todo, current)
  {
  }

  lemma SameViewCore(w: World, next: World, todo: set<nat>, current: nat)
    requires Core(w, todo, current) && SameView(w, next) && Ready(next.s.d)
    requires AllGood(next.chans) && OthersUnheld(next)
    ensures Core(next, todo, current)
  {
    hide AllLinked, OthersUnheld, AllGood;
    SameViewLinked(w, next, todo, current);
  }

  /** The same for conservation. */
  lemma SameViewConserved(w: World, next: World)
    requires Tables(w.s) && AllConserved(w) && SameView(w, next)
    requires forall ptr :: ptr in next.chans && IdOf(w.s, ptr) == 0 ==>
      Conserved(w.s.self, false, TakenOn(w.s, ptr), [], next.chans[ptr])
    ensures AllConserved(next)
  {
    hide Conserved;
    SameIds(w.s, next.s);
    assert forall ptr :: TakenOn(next.s, ptr) == TakenOn(w.s, ptr);
    forall id | id in next.s.active
      ensures next.s.active[id].ptr in next.chans
      ensures ConservedOn(next.s, id, next.chans[next.s.active[id].ptr])
    {
      assert ConservedOn(w.s, id, w.chans[w.s.active[id].ptr]);
      assert QueueOf(next.s, id) == QueueOf(w.s, id);
    }
  }

  /** The two halves of a session do not constrain each other. */
  lemma DeliveryKeeps(w: World, d: State, todo: set<nat>, current: nat)
    requires Core(w, todo, current) && Ready(d)
    ensures Core(w.(s := w.s.(d := d)), todo, current)
    ensures AllConserved(w) ==> AllConserved(w.(s := w.s.(d := d)))
  {
    hide Good, Held, FlowAgrees, Conserved, Unheld;
    var next := w.(s := w.s.(d := d));
    SameIds(w.s, next.s);
    SameViewCore(w, next, todo, current);
    if AllConserved(w) { SameViewConserved(w, next); }
  }

  // ----- Calls on channels by others -----

  lemma CreateKeeps(w: World, ptr: Ptr, kind: Kind)
    requires Agreed(w) && ptr !in w.chans
    ensures Agreed(w.(chans := w.chans[ptr := NewChannel(kind)]))
  {
    hide Held, FlowAgrees, Good;
    var next := w.(chans := w.chans[ptr := NewChannel(kind)]);
    NewChannelGood(kind);
    SameViewCore(w, next, {}, 0);
    SameViewConserved(w, next);
  }

  /** A call by others on a channel the session works on. */
  lemma ForeignCallOnActive(w: World, id: nat, c1: Channel)
    requires Agreed(w) && id in w.s.active
    requires var c := w.chans[w.s.active[id].ptr]; Good(c1) && SameFor(w.s.self, c, c1)
    ensures Agreed(ChannelStep(w, w.s.active[id].ptr, c1))
  {
    hide Core, AllConserved, Good, SameFor, TouchesOnly, Tables, Linked, ChannelStep, Conserved;
    var ptr := w.s.active[id].ptr;
    CoreAt(w, id, {}, 0);
    SameForIgnoresItems(w.s.self, w.chans[ptr], c1);
    StepKeepsCore(w, id, c1, {}, 0);
    ConservedAt(w, id);
    var next := ChannelStep(w, ptr, c1);
    StepLeavesBacklog(w, ptr, c1);
    SameForConserves(w.s.self, w.s.active[id].out, TakenOn(w.s, ptr), QueueOf(w.s, id), w.chans[ptr], c1);
    assert ConservedOn(next.s, id, c1) by { TouchesKeepsEntry(w, next, id); }
    LocalConserved(w, next, id);
  }

  lemma StepLeavesBacklog(w: World, ptr: Ptr, c1: Channel)
    requires Ready(w.s.d) && ptr in w.chans
    ensures var next := ChannelStep(w, ptr, c1);
      && next.s.queues == w.s.queues && next.s.taken == w.s.taken && next.s.self == w.s.self && next.chans[ptr] == c1
  {
  }

  lemma TouchesKeepsEntry(w: World, next: World, id: nat)
    requires id in w.s.active && TouchesOnly(w, next, id)
    ensures id in next.s.active && next.s.active[id].ptr == w.s.active[id].ptr
    ensures next.s.active[id].out == w.s.active[id].out && next.s.self == w.s.self
  {
  }

  /** A call by others does not touch what the party sent or still has to send. */
  lemma SameForConserves(self: Ptr, out: bool, taken: seq<EventData>, queue: seq<RouterEvent>, c: Channel, c1: Channel)
    requires SameFor(self, c, c1) && Conserved(self, out, taken, queue, c)
    ensures Conserved(self, out, taken, queue, c1)
  {
  }

  /** A call by others on a channel the session does not work on. */
  lemma ForeignCallElsewhere(w: World, ptr: Ptr, c1: Channel)
    requires Agreed(w) && ptr in w.chans && IdOf(w.s, ptr) == 0
    requires Good(c1) && SameFor(w.s.self, w.chans[ptr], c1)
    ensures Agreed(ChannelStep(w, ptr, c1)) && ChannelStep(w, ptr, c1).s == w.s
  {
    hide Held, FlowAgrees, Good;
    assert Unheld(w.s.self, w.chans[ptr]);
    var next := w.(chans := w.chans[ptr := c1]);
    assert ChannelStep(w, ptr, c1) == next;
    assert Conserved(w.s.self, false, TakenOn(w.s, ptr), [], w.chans[ptr]);
    SameViewCore(w, next, {}, 0);
    SameViewConserved(w, next);
  }

  /** A call by others, on whichever channel. */
  ghost function ForeignNext(w: World, ptr: Ptr, op: ChannelOp): World
    requires Ready(w.s.d) && ptr in w.chans && Allowed(w.chans[ptr], op)
  {
    if Arrives(w, ptr, op) then
      World(ChannelData(w.s, ptr, op.item),
            w.chans[ptr := SendItem(w.chans[ptr], op.ptr, op.item, Quiet)])
    else ChannelStep(w, ptr, Apply(w.chans[ptr], op))
  }

  /** The item goes to the session: it is the receiver, and never reacts. */
  predicate Arrives(w: World, ptr: Ptr, op: ChannelOp)
    requires ptr in w.chans
  {
    var c := w.chans[ptr];
    op.OpSend? && Accepts(c) && c.recvPid == 0 && c.recvCallback == w.s.self
  }

  lemma ArrivalKeeps(w: World, ptr: Ptr, op: ChannelOp)
    requires Agreed(w) && ptr in w.chans && Allowed(w.chans[ptr], op)
    requires Arrives(w, ptr, op) && ByOthers(op, w.s.self)
    ensures Agreed(ForeignNext(w, ptr, op))
  {
    hide Core, AllConserved, Good, SameFor, SendItem, ChannelStep, Accepts, IdOf;
    ArrivesOnActive(w, ptr, op);
    var c, id := w.chans[ptr], IdOf(w.s, ptr);
    var c1 := SendItem(c, op.ptr, op.item, Quiet);
    SendItemKeeps(c, op.ptr, op.item, Quiet);
    SendChangesOnlyItems(c, op.ptr, op.item, Quiet, w.s.self);
    ForeignCallOnActive(w, id, c1);
    QuietIsSilent(w, ptr, op.ptr, op.item);
    DeliveryKeeps(ChannelStep(w, ptr, c1), ChannelData(w.s, ptr, op.item).d, {}, 0);
  }

  /** Only channels the session works on have it as receiver. */
  lemma ArrivesOnActive(w: World, ptr: Ptr, op: ChannelOp)
    requires Core(w, {}, 0) && ptr in w.chans && Arrives(w, ptr, op)
    ensures var id := IdOf(w.s, ptr); id != 0 && id in w.s.active && w.s.active[id].ptr == ptr
    ensures Good(w.chans[ptr]) && w.s.self > 0 && Ready(w.s.d)
  {
    hide Good, AllLinked;
    assert IdOf(w.s, ptr) == 0 ==> Unheld(w.s.self, w.chans[ptr]);
  }

  /** A receiver that does not react changes no status. */
  lemma QuietIsSilent(w: World, ptr: Ptr, sender: Ptr, item: EventData)
    requires Ready(w.s.d) && ptr in w.chans
    ensures var c1 := SendItem(w.chans[ptr], sender, item, Quiet);
      ChannelStep(w, ptr, c1) == w.(chans := w.chans[ptr := c1])
  {
  }

  lemma ForeignKeeps(w: World, ptr: Ptr, op: ChannelOp)
    requires Agreed(w) && ptr in w.chans && Allowed(w.chans[ptr], op) && ByOthers(op, w.s.self)
    ensures Agreed(ForeignNext(w, ptr, op))
  {
    hide FlowAgrees, StatusGood, RefsGood, AllConserved, Apply, SameFor, AllLinked, OthersUnheld;
    var c, id := w.chans[ptr], IdOf(w.s, ptr);
    assert Good(c);
    if Arrives(w, ptr, op) {
      ArrivalKeeps(w, ptr, op);
    } else {
      OpKeepsGood(c, op);
      OthersLeaveMeAlone(c, op, w.s.self);
      if id == 0 {
        ForeignCallElsewhere(w, ptr, Apply(c, op));
      } else {
        ForeignCallOnActive(w, id, Apply(c, op));
      }
    }
  }

  /** The client asks for a channel to be closed. */
  lemma CloseKeepsAgreement(w: World, id: nat)
    requires Agreed(w)
    ensures Known(w) && Agreed(RequestClose(w, id))
  {
    hide FlowAgrees, StatusGood, RefsGood, AllConserved, Apply, SameFor;
    if id in w.s.active {
      var c := w.chans[w.s.active[id].ptr];
      assert Linked(w.s, id, c, {}, 0) && Good(c);
      OpKeepsGood(c, OpClose) by { assert Allowed(c, OpClose); }
      OthersLeaveMeAlone(c, OpClose, w.s.self);
      assert Apply(c, OpClose) == Close(c) by { CloseIsApply(c); }
      ForeignCallOnActive(w, id, Close(c));
    }
  }

  lemma CloseIsApply(c: Channel)
    requires Allowed(c, OpClose)
    ensures Apply(c, OpClose) == Close(c)
  {
  }

  // ----- Adding a channel -----

  /** What registering leaves: two references, and a third for the receiver. */
  lemma RegisterEffect(c: Channel, self: Ptr, out: bool)
    requires c.destroyed == 0 && self > 0 && Unheld(self, c)
    ensures var receives := out && CanRegisterReceiver(c, self);
      Register(c, self, out) == c.(
        listeners := c.listeners + [self],
        holders := c.holders[self := if receives then 3 else 2],
        recvCallback := if receives then self else c.recvCallback)
  {
  }

  lemma RegisterHolds(c: Channel, self: Ptr, out: bool)
    requires Good(c) && c.destroyed == 0 && self > 0 && Unheld(self, c)
    ensures var r := Register(c, self, out);
      && Good(r) && Held(self, out, r)
      && r.kind == c.kind && r.blocked == c.blocked && r.closed == c.closed && r.accepted == c.accepted
  {
    RegisterEffect(c, self, out);
    var r := Register(c, self, out);
    forall ptr: Ptr | ptr > 0 ensures Roles(r, ptr) <= r.holders[ptr] {
      assert Roles(c, ptr) <= c.holders[ptr];
    }
  }

  ghost predicate CanAdd(w: World, ptr: Ptr) {
    && Ready(w.s.d) && ptr in w.chans && ptr > 0 && w.chans[ptr].destroyed == 0 && IdOf(w.s, ptr) == 0
    && w.s.lastChannelId < w.s.maxChannels && |w.s.active| + 1 < w.s.maxChannels
  }

  /** One entry is new; the channel it names now knows the session. */
  ghost predicate AddsOne(w: World, next: World, id: nat, ptr: Ptr, out: bool)
    requires ptr in w.chans
  {
    var c := w.chans[ptr];
    && id !in w.s.active && 0 < id < w.s.maxChannels && ptr > 0 && IdOf(w.s, ptr) == 0
    && next.s == w.s.(lastChannelId := id, d := next.s.d,
                      active := w.s.active[id := ChannelInfo(ptr, out, false, !out && c.blocked)])
    && Ready(next.s.d)
    && next.chans.Keys == w.chans.Keys
    && (forall other :: other in w.chans && other != ptr ==> next.chans[other] == w.chans[other])
    && Good(next.chans[ptr]) && Held(w.s.self, out, next.chans[ptr])
    && next.chans[ptr].kind == c.kind && next.chans[ptr].blocked == c.blocked
    && next.chans[ptr].closed == c.closed && next.chans[ptr].accepted == c.accepted
  }

  lemma AddShape(w: World, ptr: Ptr, out: bool)
    requires Core(w, {}, 0) && CanAdd(w, ptr)
    ensures AddsOne(w, AddChannel(w, ptr, out), AddChannel(w, ptr, out).s.lastChannelId, ptr, out)
  {
    hide StatusGood, RefsGood, Register, AllLinked, Held;
    assert Good(w.chans[ptr]) && Unheld(w.s.self, w.chans[ptr]);
    RegisterHolds(w.chans[ptr], w.s.self, out);
    FreeIdExists(w.s.active.Keys, w.s.maxChannels);
    assert IsFree(AddChannel(w, ptr, out).s.lastChannelId, w.s.active.Keys, w.s.maxChannels);
  }

  lemma AddsOneIds(w: World, next: World, id: nat, ptr: Ptr, out: bool)
    requires Tables(w.s) && ptr in w.chans && AddsOne(w, next, id, ptr, out)
    ensures IdOf(next.s, ptr) == id
    ensures forall other :: other != ptr ==> IdOf(next.s, other) == IdOf(w.s, other)
  {
    hide Good, Held, NoRepeats;
    IdOfNone(w.s, ptr);
    assert forall i :: i in w.s.active ==> next.s.active[i] == w.s.active[i];
    assert id in next.s.active && next.s.active[id].ptr == ptr;
    var found := IdOf(next.s, ptr);
    assert found !in w.s.active;
  }

  lemma AddsOneTables(w: World, next: World, id: nat, ptr: Ptr, out: bool)
    requires Tables(w.s) && ptr in w.chans && AddsOne(w, next, id, ptr, out)
    ensures Tables(next.s) && IdOf(next.s, ptr) == id
    ensures forall other :: other != ptr ==> IdOf(next.s, other) == IdOf(w.s, other)
  {
    hide AddsOne, Tables, IdOf;
    AddsOneIds(w, next, id, ptr, out);
    AddsOneKeepsTables(w, next, id, ptr, out);
  }

  lemma AddsOneKeepsTables(w: World, next: World, id: nat, ptr: Ptr, out: bool)
    requires Tables(w.s) && ptr in w.chans && AddsOne(w, next, id, ptr, out)
    ensures Tables(next.s)
  {
    hide Good, Held, NoRepeats;
    assert forall i :: i in w.s.active ==> w.s.active[i].ptr != ptr by { IdOfNone(w.s, ptr); }
  }

  lemma IdOfNone(s: Session, ptr: Ptr)
    requires IdOf(s, ptr) == 0 && 0 !in s.active
    ensures forall i :: i in s.active ==> s.active[i].ptr != ptr
  {
  }

  lemma AddsOneLinked(w: World, next: World, id: nat, ptr: Ptr, out: bool)
    requires Tables(w.s) && AllLinked(w, {}, 0) && ptr in w.chans && AddsOne(w, next, id, ptr, out)
    ensures AllLinked(next, {}, 0)
  {
  }

  lemma AddsOneConserved(w: World, next: World, id: nat, ptr: Ptr, out: bool)
    requires Tables(w.s) && AllConserved(w) && ptr in w.chans && AddsOne(w, next, id, ptr, out)
    ensures AllConserved(next)
  {
    hide Good, Held, Conserved;
    AddsOneTables(w, next, id, ptr, out);
    assert forall p :: TakenOn(next.s, p) == TakenOn(w.s, p);
    assert QueueOf(w.s, id) == [];
    forall other | other in next.s.active
      ensures next.s.active[other].ptr in next.chans
      ensures ConservedOn(next.s, other, next.chans[next.s.active[other].ptr])
    {
      assert QueueOf(next.s, other) == QueueOf(w.s, other);
      if other != id {
        assert ConservedOn(w.s, other, w.chans[w.s.active[other].ptr]);
      } else {
        ConservedAtAdd(w.s.self, out, TakenOn(w.s, ptr), w.chans[ptr], next.chans[ptr]);
      }
    }
  }

  lemma AddsOneRest(w: World, next: World, id: nat, ptr: Ptr, out: bool)
    requires Core(w, {}, 0) && ptr in w.chans && AddsOne(w, next, id, ptr, out)
    ensures Ready(next.s.d) && AllGood(next.chans) && OthersUnheld(next) && next.s.taken.Keys <= next.chans.Keys
  {
    hide Good, Held, Unheld, AllLinked, IdOf, Tables;
    AddsOneTables(w, next, id, ptr, out);
  }

  lemma AddKeeps(w: World, ptr: Ptr, out: bool)
    requires Agreed(w) && CanAdd(w, ptr)
    ensures Agreed(AddChannel(w, ptr, out))
  {
    hide AllLinked, AllGood, OthersUnheld, AllConserved, AddChannel, AddsOne, Tables;
    var next, id := AddChannel(w, ptr, out), AddChannel(w, ptr, out).s.lastChannelId;
    AddShape(w, ptr, out);
    AddsOneTables(w, next, id, ptr, out);
    AddsOneLinked(w, next, id, ptr, out);
    AddsOneRest(w, next, id, ptr, out);
    AddsOneConserved(w, next, id, ptr, out);
  }

  lemma ConservedAtAdd(self: Ptr, out: bool, taken: seq<EventData>, c: Channel, r: Channel)
    requires Conserved(self, false, taken, [], c)
    requires r.kind == c.kind && r.closed == c.closed && r.accepted == c.accepted
    ensures Conserved(self, out, taken, [], r)
  {
  }

  // ----- Messages from the client -----

  /** Only what is held back for one channel, what was taken on it, and the delivery half changed. */
  ghost predicate Edits(s: Session, t: Session, id: nat)
    requires id in s.active
  {
    var ptr := s.active[id].ptr;
    && t == s.(d := t.d, queues := t.queues, taken := t.taken)
    && (forall other :: other != id ==> QueueOf(t, other) == QueueOf(s, other))
    && (forall other :: other in t.queues ==> other in s.active && t.queues[other] != [])
    && (forall other :: other != ptr ==> TakenOn(t, other) == TakenOn(s, other))
    && t.taken.Keys <= s.taken.Keys + {ptr}
  }

  lemma EditTouches(w: World, t: Session, id: nat)
    requires Tables(w.s) && id in w.s.active && Edits(w.s, t, id)
    ensures TouchesOnly(w, w.(s := t), id)
  {
  }

  lemma EditLinks(s: Session, t: Session, id: nat, c: Channel, todo: set<nat>, current: nat)
    requires id in s.active && Edits(s, t, id) && Linked(s, id, c, todo, current)
    requires QueueOf(t, id) != [] ==> s.active[id].blocked
    ensures Linked(t, id, c, todo, current)
  {
  }

  lemma EditKeeps(w: World, t: Session, id: nat, todo: set<nat>, current: nat)
    requires Core(w, todo, current) && id in w.s.active && Edits(w.s, t, id) && Ready(t.d)
    requires QueueOf(t, id) != [] ==> w.s.active[id].blocked
    ensures Core(w.(s := t), todo, current) && TouchesOnly(w, w.(s := t), id)
  {
    hide Good, Tables, OthersUnheld, TouchesOnly, Linked;
    var c := w.chans[w.s.active[id].ptr];
    EditTouches(w, t, id);
    EditLinks(w.s, t, id, c, todo, current);
    LocalCore(w, w.(s := t), id, todo, current, todo, current);
  }

  lemma AppendEdits(s: Session, id: nat, event: RouterEvent)
    requires Tables(s) && id in s.active
    ensures var t := SetQueue(s, id, QueueOf(s, id) + [event]);
      Edits(s, t, id) && t.d == s.d && QueueOf(t, id) == QueueOf(s, id) + [event]
  {
  }

  /** Appending to a blocked channel's queue. */
  lemma QueueMessageEdits(s: Session, id: nat, event: RouterEvent)
    requires Tables(s) && id in s.active && Ready(s.d)
    ensures var t := QueueMessage(s, id, event);
      Edits(s, t, id) && Ready(t.d) && QueueOf(t, id) == QueueOf(s, id) + [event]
  {
    hide Tables, SetQueue;
    AppendEdits(s, id, event);
  }

  lemma TakeEdits(s: Session, id: nat, c: Channel, item: EventData, d: State)
    requires Tables(s) && id in s.active && Ready(d)
    ensures var t := Take(s, c, s.active[id].ptr, item).(d := d);
      Edits(s, t, id) && Ready(t.d) && QueueOf(t, id) == QueueOf(s, id)
  {
  }

  lemma SameForIgnoresItems(self: Ptr, c: Channel, c1: Channel)
    requires SameFor(self, c, c1)
    ensures SameFor(self, c, c1.(accepted := c.accepted))
  {
  }

  /** The session hands an item to an active channel. */
  lemma SendKeeps(w: World, id: nat, item: EventData, reaction: Reaction, todo: set<nat>, current: nat)
    requires Core(w, todo, current) && id in w.s.active && id !in todo
    ensures var ptr := w.s.active[id].ptr;
      var next := ChannelStep(w, ptr, SendItem(w.chans[ptr], w.s.self, item, reaction));
      Core(next, todo, current) && TouchesOnly(w, next, id)
  {
    hide StatusGood, RefsGood, FlowAgrees, OthersUnheld, SendItem, SameFor;
    var c := w.chans[w.s.active[id].ptr];
    assert Good(c) && Linked(w.s, id, c, todo, current);
    SendItemKeeps(c, w.s.self, item, reaction);
    SendChangesOnlyItems(c, w.s.self, item, reaction, w.s.self);
    StepKeepsCore(w, id, SendItem(c, w.s.self, item, reaction), todo, current);
  }

  /** Locking and unlocking an active channel goes unnoticed: the session's references keep it alive. */
  lemma LockingKeeps(w: World, id: nat, op: ChannelOp, todo: set<nat>, current: nat)
    requires Core(w, todo, current) && id in w.s.active && (op.OpLock? || op.OpUnlock?)
    requires Allowed(w.chans[w.s.active[id].ptr], op)
    ensures var ptr := w.s.active[id].ptr;
      var c, c1 := w.chans[ptr], Apply(w.chans[ptr], op);
      var next := w.(chans := w.chans[ptr := c1]);
      && Core(next, todo, current) && TouchesOnly(w, next, id)
      && c1 == c.(locks := c1.locks) && c1.locks == (if op.OpLock? then c.locks + 1 else c.locks - 1)
  {
    hide StatusGood, RefsGood, OthersUnheld, TouchesOnly, Tables, SameFor;
    var ptr := w.s.active[id].ptr;
    var c := w.chans[ptr];
    var c1 := Apply(c, op);
    var next := w.(chans := w.chans[ptr := c1]);
    assert Good(c) && Linked(w.s, id, c, todo, current);
    assert c.holders[w.s.self] > 0;
    OpKeepsGood(c, op);
    SilentTouches(w, id, c1);
    assert Linked(next.s, id, c1, todo, current);
    LocalCore(w, next, id, todo, current, todo, current);
  }

  /** What the session owes an inbound channel while it handles one more message. */
  predicate Owed(self: Ptr, taken: seq<EventData>, queue: seq<RouterEvent>, c: Channel, item: EventData) {
    && (!c.closed ==>
          taken == AcceptedFrom(c.accepted, self) + Items(queue) + (if Matches(c.kind, item) then [item] else []))
    && (forall i :: 0 <= i < |queue| ==> Matches(c.kind, queue[i].data))
  }

  lemma ItemsAppend(queue: seq<RouterEvent>, event: RouterEvent)
    ensures Items(queue + [event]) == Items(queue) + [event.data]
  {
  }

  /** An open channel is never blocked behind the session's back, so it accepts what it is offered;
      only a channel that is closed already refuses. */
  lemma OnlyClosedRefuses(w: World, id: nat, todo: set<nat>, current: nat)
    requires Core(w, todo, current) && id in w.s.active && !w.s.active[id].out && !w.s.active[id].blocked
    ensures Accepts(w.chans[w.s.active[id].ptr]) <==> !w.chans[w.s.active[id].ptr].closed
    ensures QueueOf(w.s, id) == []
  {
  }

  lemma OfferKeeps(w: World, id: nat, event: RouterEvent, reaction: Reaction)
    requires Core(w, {}, 0) && id in w.s.active && !w.s.active[id].out && !w.s.active[id].blocked
    requires var c := w.chans[w.s.active[id].ptr];
      && Matches(c.kind, event.data)
      && Owed(w.s.self, TakenOn(w.s, w.s.active[id].ptr), QueueOf(w.s, id), c, event.data)
    ensures var next := Offer(w, id, event, reaction);
      && Core(next, {}, 0) && TouchesOnly(w, next, id)
      && ConservedOn(next.s, id, next.chans[w.s.active[id].ptr])
  {
    hide Core, Good, Linked, SendItem, SameFor, TouchesOnly, Accepts, AcceptedFrom, Items, ChannelStep, Offer, Tables;
    CoreAt(w, id, {}, 0);
    var ptr := w.s.active[id].ptr;
    var c := w.chans[ptr];
    var c1 := SendItem(c, w.s.self, event.data, reaction);
    OnlyClosedRefuses(w, id, {}, 0);
    OfferIsCall(w, id, event, reaction);
    SendKeeps(w, id, event.data, reaction, {}, 0);
    SentIsAccepted(c, w.s.self, event.data, reaction);
    var next := ChannelStep(w, ptr, c1);
    StepLeavesBacklog(w, ptr, c1);
    TouchesKeepsEntry(w, next, id);
    OfferConserves(w.s.self, TakenOn(w.s, ptr), c, c1, event.data);
  }

  /** There is nothing to be done about a refusal: only a closed channel refuses. */
  lemma OfferIsCall(w: World, id: nat, event: RouterEvent, reaction: Reaction)
    requires Ready(w.s.d) && id in w.s.active && w.s.active[id].ptr in w.chans
    requires Accepts(w.chans[w.s.active[id].ptr]) || w.chans[w.s.active[id].ptr].closed
    ensures var ptr := w.s.active[id].ptr;
      Offer(w, id, event, reaction) == ChannelStep(w, ptr, SendItem(w.chans[ptr], w.s.self, event.data, reaction))
  {
  }

  /** What was owed is what the channel has accepted, or the channel is closed. */
  lemma OfferConserves(self: Ptr, taken: seq<EventData>, c: Channel, c1: Channel, item: EventData)
    requires Matches(c.kind, item) && Owed(self, taken, [], c, item)
    requires AcceptedFrom(c1.accepted, self) == AcceptedFrom(c.accepted, self) + (if c.closed then [] else [item])
    requires c1.kind == c.kind && (c.closed ==> c1.closed)
    ensures Conserved(self, false, taken, [], c1)
  {
    hide AcceptedFrom;
    assert AcceptedFrom(c.accepted, self) + Items([]) + [item] == AcceptedFrom(c1.accepted, self) + Items([])
      || c.closed;
  }

  /** Handing over an item appends it to what the channel accepted from the sender, or the channel is
      not open. */
  lemma SentIsAccepted(c: Channel, self: Ptr, item: EventData, reaction: Reaction)
    requires Good(c) && c.destroyed == 0 && self > 0
    ensures var c1 := SendItem(c, self, item, reaction);
      && AcceptedFrom(c1.accepted, self) == AcceptedFrom(c.accepted, self) + (if Accepts(c) then [item] else [])
      && c1.kind == c.kind && (c.closed ==> c1.closed)
  {
  }

  /** A message is held back, dropped or handed over; with it the session owes nothing. */
  lemma HandleKeeps(w: World, id: nat, event: RouterEvent, reaction: Reaction)
    requires Core(w, {}, 0) && id in w.s.active && !w.s.active[id].out
    requires var c := w.chans[w.s.active[id].ptr];
      && Owed(w.s.self, TakenOn(w.s, w.s.active[id].ptr), QueueOf(w.s, id), c, event.data)
      && (w.s.active[id].blocked ==> Matches(c.kind, event.data))
    ensures var next := Handle(w, id, event, reaction);
      && Core(next, {}, 0) && TouchesOnly(w, next, id)
      && ConservedOn(next.s, id, next.chans[w.s.active[id].ptr])
  {
    hide Good, OthersUnheld, Held, TouchesOnly, Offer, Tables, AcceptedFrom, Items, Edits, IdOf;
    var ptr := w.s.active[id].ptr;
    var c := w.chans[ptr];
    var next := Handle(w, id, event, reaction);
    assert Linked(w.s, id, c, {}, 0);
    if w.s.active[id].blocked {
      QueueMessageEdits(w.s, id, event);
      EditKeeps(w, next.s, id, {}, 0);
      ItemsAppend(QueueOf(w.s, id), event);
    } else if w.s.active[id].closed {
      SameEdits(w.s, id, w.s.d);
      EditKeeps(w, next.s, id, {}, 0);
    } else if !Matches(c.kind, event.data) {
      SameEdits(w.s, id, MarkDisconnect(w.s.d));
      EditKeeps(w, next.s, id, {}, 0);
      var settled := AcceptedFrom(c.accepted, w.s.self) + Items(QueueOf(w.s, id));
      assert settled + [] == settled;
    } else {
      OfferKeeps(w, id, event, reaction);
    }
  }

  lemma SameEdits(s: Session, id: nat, d: State)
    requires Tables(s) && id in s.active && Ready(d)
    ensures Edits(s, s.(d := d), id)
  {
  }

  /** What the invariant says about one active channel. */
  lemma CoreAt(w: World, id: nat, todo: set<nat>, current: nat)
    requires Core(w, todo, current) && id in w.s.active
    ensures w.s.active[id].ptr in w.chans && Tables(w.s) && Ready(w.s.d) && w.s.self > 0
    ensures var c := w.chans[w.s.active[id].ptr];
      Good(c) && c.destroyed == 0 && Linked(w.s, id, c, todo, current)
    ensures QueueOf(w.s, id) != [] ==> w.s.active[id].blocked
  {
    hide StatusGood, RefsGood, OthersUnheld;
  }

  lemma CoreIsKnown(w: World, todo: set<nat>, current: nat)
    requires Core(w, todo, current)
    ensures Known(w)
  {
  }

  lemma CoreHasTables(w: World)
    requires Core(w, {}, 0)
    ensures Ready(w.s.d) && Tables(w.s)
  {
  }

  lemma ConservedAt(w: World, id: nat)
    requires AllConserved(w) && id in w.s.active && w.s.active[id].ptr in w.chans
    ensures ConservedOn(w.s, id, w.chans[w.s.active[id].ptr])
  {
  }

  lemma TakeOwes(s: Session, id: nat, c: Channel, item: EventData, d: State)
    requires id in s.active && !s.active[id].out && ConservedOn(s, id, c)
    ensures var ptr := s.active[id].ptr;
      var t := Take(s, c, ptr, item).(d := d);
      Owed(s.self, TakenOn(t, ptr), QueueOf(s, id), c, item)
  {
  }

  lemma ReceiveKeeps(w: World, id: nat, serial: nat, item: EventData)
    requires Agreed(w) && id in w.s.active && !w.s.active[id].out
    ensures var next, ptr := Receive(w, id, serial, item), w.s.active[id].ptr;
      && next.s.self == w.s.self && Core(next, {}, 0) && TouchesOnly(w, next, id) && next.s.active == w.s.active
      && next.chans[ptr] == w.chans[ptr].(locks := w.chans[ptr].locks + 1)
      && Owed(w.s.self, TakenOn(next.s, ptr), QueueOf(next.s, id), next.chans[ptr], item)
  {
    hide Core, Good, OthersUnheld, Linked, TouchesOnly, Tables, Edits, SameFor, AllConserved, ConservedOn;
    CoreAt(w, id, {}, 0);
    var ptr := w.s.active[id].ptr;
    var d, c := NoteIncoming(w.s.d, serial), w.chans[ptr];
    ConservedAt(w, id);
    var t := Take(w.s, c, ptr, item).(d := d);
    var mid := w.(s := t);
    TakeEdits(w.s, id, c, item, d);
    EditKeeps(w, t, id, {}, 0);
    TakeOwes(w.s, id, c, item, d);
    LockingKeeps(mid, id, OpLock, {}, 0);
    TouchesTwice(w, mid, Receive(w, id, serial, item), id);
  }

  /** A message from the client keeps everything the session and its channels agree on; above all,
      what the client sent is what the channel accepted followed by what is held back. A blocked
      channel gets messages of its own kind. */
  lemma ClientDataKeeps(w: World, id: nat, serial: nat, item: EventData, reaction: Reaction)
    requires Agreed(w)
    requires id in w.s.active && w.s.active[id].blocked ==> Matches(w.chans[w.s.active[id].ptr].kind, item)
    ensures Known(w) && Agreed(ClientData(w, id, serial, item, reaction))
  {
    hide Core, Good, OthersUnheld, Linked, TouchesOnly, Tables, SameFor, AllConserved, ConservedOn, Owed, Handle,
      Receive;
    assert Known(w) by { CoreIsKnown(w, {}, 0); }
    if id in w.s.active {
      if w.s.active[id].out {
        DeliveryKeeps(w, MarkDisconnect(w.s.d), {}, 0);
      } else {
        var ptr := w.s.active[id].ptr;
        CoreAt(w, id, {}, 0);
        ReceiveKeeps(w, id, serial, item);
        var received := Receive(w, id, serial, item);
        CoreAt(received, id, {}, 0);
        var event := RouterEvent(serial, 0, item);
        HandleKeeps(received, id, event, reaction);
        var handled := Handle(received, id, event, reaction);
        TouchesTwice(w, received, handled, id);
        ReleaseKeeps(w, handled, id, {}, 0);
      }
    }
  }

  /** The lock goes, and nothing else about the channel. */
  lemma ReleaseKeeps(w: World, handled: World, id: nat, todo: set<nat>, current: nat)
    requires Tables(w.s) && AllConserved(w) && id in w.s.active && TouchesOnly(w, handled, id)
    requires Core(handled, todo, current)
    requires ConservedOn(handled.s, id, handled.chans[w.s.active[id].ptr])
    ensures var next := Release(handled, w.s.active[id].ptr);
      Core(next, todo, current) && AllConserved(next) && TouchesOnly(w, next, id)
  {
    hide Core, Good, OthersUnheld, Linked, Tables, SameFor, AcceptedFrom, Items, AllConserved;
    var ptr := w.s.active[id].ptr;
    CoreAt(handled, id, todo, current);
    var c := handled.chans[ptr];
    var next := Release(handled, ptr);
    if c.locks > 0 {
      LockingKeeps(handled, id, OpUnlock, todo, current);
      TouchesTwice(w, handled, next, id);
    }
    LocalConserved(w, next, id);
  }
}
