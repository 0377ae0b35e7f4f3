/** What a session and its channels agree on between steps, and the calls that keep it. */
module SessionInvariant {
  import opened Basics
  import opened RouterEvents
  import opened Delivery
  import opened Channels
  import opened ChannelIds
  import opened Sessions

  /** The session's share in a channel it works on: one reference as holder, one as listener, and one
      more exactly when it is the receiver, which only happens towards the client. */
  ghost predicate Held(self: Ptr, out: bool, c: Channel) {
    && c.destroyed == 0
    && self in c.listeners
    && c.holders[self] == 2 + (if c.recvCallback == self then 1 else 0)
    && (c.recvCallback == self ==> out)
  }

  /** Session and channel agree on the flow: `queued` says that messages are held back, `scheduled`
      that the backlog is to be handled by the next service, `due` that this service still has to
      handle it, `current` that it is doing so. A channel that is open although the session holds
      messages back is always one of the last three. */
  predicate FlowAgrees(info: ChannelInfo, c: Channel, queued: bool, scheduled: bool, due: bool, current: bool) {
    && (info.closed ==> c.closed)
    && (info.out ==> !info.blocked)
    && (!info.out && c.blocked && !c.closed ==> info.blocked)
    && (info.blocked && !c.blocked && !c.closed ==> scheduled || due || current)
    && (scheduled || due ==> info.blocked && !c.blocked)
    && (current || queued ==> info.blocked)
  }

  ghost predicate Linked(s: Session, id: nat, c: Channel, todo: set<nat>, current: nat)
    requires id in s.active
  {
    && Held(s.self, s.active[id].out, c)
    && FlowAgrees(s.active[id], c, QueueOf(s, id) != [], id in s.pendingUnblock, id in todo, id == current)
  }

  /** A channel the session does not work on knows nothing of it. */
  ghost predicate Unheld(self: Ptr, c: Channel) {
    c.holders[self] == 0 && self !in c.listeners && c.recvCallback != self
  }

  /** The tables of the session fit together. */
  ghost predicate Tables(s: Session) {
    && s.self > 0 && 0 !in s.active && s.lastChannelId < s.maxChannels
    && (forall id :: id in s.active ==> id < s.maxChannels)
    && (forall id, other :: id in s.active && other in s.active && id != other ==>
          s.active[id].ptr != s.active[other].ptr)
    && (forall id :: id in s.queues ==> id in s.active && s.queues[id] != [])
    && NoRepeats(s.pendingUnblock) && (forall id :: id in s.pendingUnblock ==> id in s.active)
    && NoRepeats(s.pendingDelete)
    && (forall id :: id in s.pendingDelete <==> id in s.active && s.active[id].closed)
  }

  ghost predicate AllLinked(w: World, todo: set<nat>, current: nat) {
    forall id :: id in w.s.active ==>
      w.s.active[id].ptr in w.chans && Linked(w.s, id, w.chans[w.s.active[id].ptr], todo, current)
  }

  ghost predicate OthersUnheld(w: World) {
    forall ptr :: ptr in w.chans && IdOf(w.s, ptr) == 0 ==> Unheld(w.s.self, w.chans[ptr])
  }

  ghost predicate AllGood(chans: map<Ptr, Channel>) {
    forall ptr :: ptr in chans ==> Good(chans[ptr])
  }

  ghost predicate Core(w: World, todo: set<nat>, current: nat) {
    && Ready(w.s.d) && Tables(w.s) && todo <= w.s.active.Keys
    && AllGood(w.chans) && AllLinked(w, todo, current) && OthersUnheld(w)
    && w.s.taken.Keys <= w.chans.Keys
  }

  // ----- Conservation -----

  function Items(queue: seq<RouterEvent>): seq<EventData> {
    seq(|queue|, i requires 0 <= i < |queue| => queue[i].data)
  }

  /** Nothing of what the client sent on an open inbound channel is lost, repeated or reordered: what
      the session took is what the channel accepted from it, followed by what is held back. */
  predicate Conserved(self: Ptr, out: bool, taken: seq<EventData>, queue: seq<RouterEvent>, c: Channel) {
    && (!out && !c.closed ==> taken == AcceptedFrom(c.accepted, self) + Items(queue))
    && (forall i :: 0 <= i < |queue| ==> Matches(c.kind, queue[i].data))
  }

  predicate ConservedOn(s: Session, id: nat, c: Channel)
    requires id in s.active
  {
    Conserved(s.self, s.active[id].out, TakenOn(s, s.active[id].ptr), QueueOf(s, id), c)
  }

  ghost predicate AllConserved(w: World) {
    && (forall id :: id in w.s.active ==>
          w.s.active[id].ptr in w.chans && ConservedOn(w.s, id, w.chans[w.s.active[id].ptr]))
    && (forall ptr :: ptr in w.chans && IdOf(w.s, ptr) == 0 ==>
          Conserved(w.s.self, false, TakenOn(w.s, ptr), [], w.chans[ptr]))
  }

  // ----- One channel at a time -----

  /** Nothing but what concerns this channel changed. */
  ghost predicate TouchesOnly(w: World, next: World, id: nat)
    requires id in w.s.active
  {
    var ptr := w.s.active[id].ptr;
    && next.s.self == w.s.self && next.s.maxChannels == w.s.maxChannels
    && next.s.lastChannelId == w.s.lastChannelId
    && next.s.active.Keys == w.s.active.Keys
    && (forall other :: other in w.s.active && other != id ==> next.s.active[other] == w.s.active[other])
    && next.s.active[id].ptr == ptr && next.s.active[id].out == w.s.active[id].out
    && (forall other :: other != id ==> QueueOf(next.s, other) == QueueOf(w.s, other))
    && (forall other :: other in next.s.queues ==> other in w.s.active && next.s.queues[other] != [])
    && NoRepeats(next.s.pendingUnblock)
    && (forall other :: other != id ==> (other in next.s.pendingUnblock <==> other in w.s.pendingUnblock))
    && NoRepeats(next.s.pendingDelete)
    && (forall other :: other != id ==> (other in next.s.pendingDelete <==> other in w.s.pendingDelete))
    && (id in next.s.pendingDelete <==> next.s.active[id].closed)
    && (forall other :: other != ptr ==> TakenOn(next.s, other) == TakenOn(w.s, other))
    && next.s.taken.Keys <= w.s.taken.Keys + {ptr}
    && next.chans.Keys == w.chans.Keys
    && (forall other :: other in w.chans && other != ptr ==> next.chans[other] == w.chans[other])
  }

  lemma LocalTables(w: World, next: World, id: nat)
    requires Tables(w.s) && id in w.s.active && TouchesOnly(w, next, id)
    ensures Tables(next.s)
    ensures forall ptr :: IdOf(next.s, ptr) == IdOf(w.s, ptr)
  {
    forall other | other in next.s.pendingUnblock ensures other in next.s.active {}
    forall ptr ensures IdOf(next.s, ptr) == IdOf(w.s, ptr) {
      var a, b := IdOf(w.s, ptr), IdOf(next.s, ptr);
      assert forall other :: other in w.s.active ==> next.s.active[other].ptr == w.s.active[other].ptr;
    }
  }

  lemma LocalLinked(w: World, next: World, id: nat, other: nat, todo: set<nat>, current: nat, todo': set<nat>, current': nat)
    requires id in w.s.active && TouchesOnly(w, next, id) && other in w.s.active && other != id
    requires w.s.active[other].ptr in w.chans && w.s.active[other].ptr != w.s.active[id].ptr
    requires Linked(w.s, other, w.chans[w.s.active[other].ptr], todo, current)
    requires (other in todo' <==> other in todo) && (other == current' <==> other == current)
    ensures Linked(next.s, other, next.chans[next.s.active[other].ptr], todo', current')
  {
  }

  lemma LocalUnheld(w: World, next: World, id: nat)
    requires Tables(w.s) && id in w.s.active && TouchesOnly(w, next, id) && OthersUnheld(w)
    ensures OthersUnheld(next)
  {
    LocalTables(w, next, id);
    forall ptr | ptr in next.chans && IdOf(next.s, ptr) == 0
      ensures Unheld(next.s.self, next.chans[ptr])
    {
      assert ptr != w.s.active[id].ptr;
    }
  }

  lemma LocalAllLinked(w: World, next: World, id: nat, todo: set<nat>, current: nat, todo': set<nat>, current': nat)
    requires Tables(w.s) && id in w.s.active && TouchesOnly(w, next, id) && AllLinked(w, todo, current)
    requires forall other :: other != id ==> (other in todo' <==> other in todo)
    requires forall other :: other in w.s.active && other != id ==> (other == current' <==> other == current)
    requires w.s.active[id].ptr in next.chans
    requires Linked(next.s, id, next.chans[w.s.active[id].ptr], todo', current')
    ensures AllLinked(next, todo', current')
  {
    forall other | other in next.s.active
      ensures next.s.active[other].ptr in next.chans
      ensures Linked(next.s, other, next.chans[next.s.active[other].ptr], todo', current')
    {
      if other != id { LocalLinked(w, next, id, other, todo, current, todo', current'); }
    }
  }

  lemma LocalGood(w: World, next: World, id: nat)
    requires id in w.s.active && TouchesOnly(w, next, id) && AllGood(w.chans)
    requires w.s.active[id].ptr in next.chans && Good(next.chans[w.s.active[id].ptr])
    ensures AllGood(next.chans)
  {
  }

  /** A change that concerns one channel keeps the whole invariant when it keeps that channel's part. */
  lemma LocalCore(w: World, next: World, id: nat, todo: set<nat>, current: nat, todo': set<nat>, current': nat)
    requires Core(w, todo, current) && id in w.s.active && TouchesOnly(w, next, id) && Ready(next.s.d)
    requires todo' <= w.s.active.Keys
    requires forall other :: other != id ==> (other in todo' <==> other in todo)
    requires forall other :: other in w.s.active && other != id ==> (other == current' <==> other == current)
    requires var c := next.chans[w.s.active[id].ptr]; Good(c) && Linked(next.s, id, c, todo', current')
    ensures Core(next, todo', current')
  {
    hide Linked, Good, Tables, IdOf;
    LocalTables(w, next, id);
    LocalUnheld(w, next, id);
    LocalGood(w, next, id);
    LocalAllLinked(w, next, id, todo, current, todo', current');
  }

  lemma LocalConserved(w: World, next: World, id: nat)
    requires Tables(w.s) && id in w.s.active && TouchesOnly(w, next, id) && AllConserved(w)
    requires w.s.active[id].ptr in next.chans && ConservedOn(next.s, id, next.chans[w.s.active[id].ptr])
    ensures AllConserved(next)
  {
    LocalTables(w, next, id);
    forall other | other in next.s.active
      ensures next.s.active[other].ptr in next.chans
      ensures ConservedOn(next.s, other, next.chans[next.s.active[other].ptr])
    {
      if other != id {
        assert QueueOf(next.s, other) == QueueOf(w.s, other);
        assert TakenOn(next.s, w.s.active[other].ptr) == TakenOn(w.s, w.s.active[other].ptr);
      }
    }
    forall ptr | ptr in next.chans && IdOf(next.s, ptr) == 0
      ensures Conserved(next.s.self, false, TakenOn(next.s, ptr), [], next.chans[ptr])
    {
      assert ptr != w.s.active[id].ptr;
      assert TakenOn(next.s, ptr) == TakenOn(w.s, ptr);
    }
  }

  lemma TouchesTwice(w: World, mid: World, next: World, id: nat)
    requires id in w.s.active && TouchesOnly(w, mid, id) && TouchesOnly(mid, next, id)
    ensures TouchesOnly(w, next, id)
  {
  }

  // ----- A channel changes and calls the session back -----

  lemma IdOfActive(s: Session, id: nat)
    requires Tables(s) && id in s.active
    ensures IdOf(s, s.active[id].ptr) == id
  {
  }

  /** One entry and the schedule for it changed, and the channel itself. */
  lemma EntryTouches(w: World, t: Session, id: nat, c1: Channel)
    requires Tables(w.s) && id in w.s.active && w.s.active[id].ptr in w.chans && id in t.active
    requires t == w.s.(active := w.s.active[id := t.active[id]], pendingUnblock := t.pendingUnblock, d := t.d)
    requires t.active[id] == w.s.active[id].(blocked := t.active[id].blocked)
    requires NoRepeats(t.pendingUnblock)
    requires forall other :: other != id ==> (other in t.pendingUnblock <==> other in w.s.pendingUnblock)
    ensures TouchesOnly(w, World(t, w.chans[w.s.active[id].ptr := c1]), id)
  {
  }

  lemma BlockedCallShape(s: Session, id: nat)
    requires Tables(s) && Ready(s.d) && id in s.active
    ensures var t := FlowBlockedCall(s, s.active[id].ptr);
      && id in t.active && t.active[id] == s.active[id].(blocked := t.active[id].blocked)
      && t == s.(active := s.active[id := t.active[id]], pendingUnblock := t.pendingUnblock, d := t.d)
      && (t.pendingUnblock == s.pendingUnblock || t.pendingUnblock == RemoveFirst(s.pendingUnblock, id))
  {
    hide Enqueue, RemoveFirst, NoRepeats;
    IdOfActive(s, id);
    assert s.active[id := s.active[id]] == s.active;
  }

  lemma BlockedCallTouches(w: World, id: nat, c1: Channel)
    requires Tables(w.s) && Ready(w.s.d) && id in w.s.active && w.s.active[id].ptr in w.chans
    ensures var ptr := w.s.active[id].ptr;
      TouchesOnly(w, World(FlowBlockedCall(w.s, ptr), w.chans[ptr := c1]), id)
  {
    hide FlowBlockedCall, TouchesOnly, RemoveFirst;
    BlockedCallShape(w.s, id);
    RemoveFirstKeeps(w.s.pendingUnblock, id);
    EntryTouches(w, FlowBlockedCall(w.s, w.s.active[id].ptr), id, c1);
  }

  lemma OpenCallTouches(w: World, id: nat, c1: Channel)
    requires Tables(w.s) && Ready(w.s.d) && id in w.s.active && w.s.active[id].ptr in w.chans
    ensures var ptr := w.s.active[id].ptr;
      TouchesOnly(w, World(FlowOpenCall(w.s, ptr), w.chans[ptr := c1]), id)
  {
  }

  lemma ClosedCallShape(s: Session, id: nat)
    requires Tables(s) && Ready(s.d) && id in s.active
    ensures var t := FlowClosedCall(s, s.active[id].ptr);
      t == s.(active := s.active[id := s.active[id].(closed := true)], pendingDelete := s.pendingDelete + [id], d := t.d)
  {
    hide Enqueue, NoRepeats;
    IdOfActive(s, id);
  }

  lemma ClosedCallTouches(w: World, id: nat, c1: Channel)
    requires Tables(w.s) && Ready(w.s.d) && id in w.s.active && w.s.active[id].ptr in w.chans
    requires !w.s.active[id].closed
    ensures var ptr := w.s.active[id].ptr;
      TouchesOnly(w, World(FlowClosedCall(w.s, ptr), w.chans[ptr := c1]), id)
  {
    hide FlowClosedCall, IdOf;
    ClosedCallShape(w.s, id);
  }

  lemma SilentTouches(w: World, id: nat, c1: Channel)
    requires Tables(w.s) && id in w.s.active && w.s.active[id].ptr in w.chans
    ensures TouchesOnly(w, w.(chans := w.chans[w.s.active[id].ptr := c1]), id)
  {
  }

  /** One call on an active channel, as far as the session can tell. */
  ghost predicate OneCall(w: World, id: nat, c1: Channel)
    requires id in w.s.active && w.s.active[id].ptr in w.chans
  {
    var c := w.chans[w.s.active[id].ptr];
    Good(c1) && SameFor(w.s.self, c, c1.(accepted := c.accepted))
  }

  lemma StepTouches(w: World, id: nat, c1: Channel, todo: set<nat>, current: nat)
    requires Core(w, todo, current) && id in w.s.active && OneCall(w, id, c1)
    ensures TouchesOnly(w, ChannelStep(w, w.s.active[id].ptr, c1), id)
  {
    var c := w.chans[w.s.active[id].ptr];
    assert Linked(w.s, id, c, todo, current);
    if c1.lastStatus == c.lastStatus {
      SilentTouches(w, id, c1);
    } else {
      match c1.lastStatus
      case FlowBlocked => BlockedCallTouches(w, id, c1);
      case FlowOpen => OpenCallTouches(w, id, c1);
      case FlowClosed => ClosedCallTouches(w, id, c1);
    }
  }

  /** What a callback leaves for the channel's part of the invariant. */
  lemma BlockedCallLinks(s: Session, id: nat, c: Channel, c1: Channel, current: nat)
    requires Tables(s) && Ready(s.d) && id in s.active && Linked(s, id, c, {}, current)
    requires Held(s.self, s.active[id].out, c1) && c1.blocked && !c1.closed && !c.closed
    ensures Linked(FlowBlockedCall(s, s.active[id].ptr), id, c1, {}, current)
  {
    IdOfActive(s, id);
    RemoveFirstKeeps(s.pendingUnblock, id);
  }

  lemma OpenCallLinks(s: Session, id: nat, c: Channel, c1: Channel, current: nat)
    requires Tables(s) && id in s.active && Linked(s, id, c, {}, current)
    requires Held(s.self, s.active[id].out, c1) && !c1.blocked && !c1.closed && c.blocked && !c.closed
    ensures Linked(FlowOpenCall(s, s.active[id].ptr), id, c1, {}, current)
  {
  }

  lemma ClosedCallLinks(s: Session, id: nat, c: Channel, c1: Channel, current: nat)
    requires Tables(s) && Ready(s.d) && id in s.active && Linked(s, id, c, {}, current)
    requires Held(s.self, s.active[id].out, c1) && c1.closed && c1.blocked == c.blocked
    ensures Linked(FlowClosedCall(s, s.active[id].ptr), id, c1, {}, current)
  {
  }

  lemma LinkedIgnoresOtherTodo(s: Session, id: nat, c: Channel, todo: set<nat>, current: nat)
    requires id in s.active && id !in todo
    ensures Linked(s, id, c, todo, current) <==> Linked(s, id, c, {}, current)
  {
  }

  lemma StepKeepsFlow(w: World, id: nat, c1: Channel, todo: set<nat>, current: nat)
    requires Core(w, todo, current) && id in w.s.active && OneCall(w, id, c1) && id !in todo
    ensures Linked(ChannelStep(w, w.s.active[id].ptr, c1).s, id, c1, todo, current)
  {
    var c := w.chans[w.s.active[id].ptr];
    assert Linked(w.s, id, c, todo, current) && Good(c);
    LinkedIgnoresOtherTodo(w.s, id, c, todo, current);
    LinkedIgnoresOtherTodo(ChannelStep(w, w.s.active[id].ptr, c1).s, id, c1, todo, current);
    assert Held(w.s.self, w.s.active[id].out, c1);
    if c1.lastStatus != c.lastStatus {
      match c1.lastStatus
      case FlowBlocked => BlockedCallLinks(w.s, id, c, c1, current);
      case FlowOpen => OpenCallLinks(w.s, id, c, c1, current);
      case FlowClosed => ClosedCallLinks(w.s, id, c, c1, current);
    }
  }

  /** A call on an active channel keeps the invariant. */
  lemma StepKeepsCore(w: World, id: nat, c1: Channel, todo: set<nat>, current: nat)
    requires Core(w, todo, current) && id in w.s.active && OneCall(w, id, c1) && id !in todo
    ensures Core(ChannelStep(w, w.s.active[id].ptr, c1), todo, current)
    ensures TouchesOnly(w, ChannelStep(w, w.s.active[id].ptr, c1), id)
  {
    var next := ChannelStep(w, w.s.active[id].ptr, c1);
    StepTouches(w, id, c1, todo, current);
    StepKeepsFlow(w, id, c1, todo, current);
    LocalCore(w, next, id, todo, current, todo, current);
  }
}
