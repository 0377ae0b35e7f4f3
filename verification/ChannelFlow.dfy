/** Somebody blocks or unblocks a channel the session works on: what the session makes of it, and in which order the
    channels that opened are handled. */
module ChannelFlow {
  import opened Basics
  import opened RouterEvents
  import opened Serials
  import opened Delivery
  import opened DeliveryProtocol
  import opened Channels
  import opened Sessions
  import opened SessionInvariant
  import opened SessionSteps
  import opened SessionService
  import opened ChannelHistory

  /** The channel opens, and calls its listeners. */
  lemma UnblockingCalls(c: Channel, self: Ptr)
    requires Good(c) && !c.closed && c.blocked && self in c.listeners
    ensures var c1 := Unblock(c);
      && Broadcasts(c, c1, self)
      && c1 == c.(blocked := false, lastStatus := FlowOpen, broadcasts := c.broadcasts + [(FlowOpen, c.listeners)])
  {
    hide RefsGood, Alternating, LastBroadcast;
  }

  lemma BlockingCalls(c: Channel, self: Ptr)
    requires Good(c) && !c.closed && !c.blocked && self in c.listeners
    ensures var c1 := Block(c);
      && Broadcasts(c, c1, self)
      && c1 == c.(blocked := true, lastStatus := FlowBlocked, broadcasts := c.broadcasts + [(FlowBlocked, c.listeners)])
  {
    hide RefsGood, Alternating, LastBroadcast;
  }

  /** Neither a closed channel nor one that is what it is asked to be says anything. */
  lemma NothingToCall(c: Channel)
    requires Good(c)
    ensures c.closed || !c.blocked ==> Unblock(c) == c
    ensures c.closed || c.blocked ==> Block(c) == c
  {
    hide RefsGood, Alternating, LastBroadcast;
  }

  lemma FlowOpIs(w: World, id: nat, op: ChannelOp)
    requires Agreed(w) && id in w.s.active && (op.OpBlock? || op.OpUnblock?)
    ensures var ptr := w.s.active[id].ptr;
      && ptr in w.chans && Ready(w.s.d) && Tables(w.s) && id != 0
      && Good(w.chans[ptr]) && Allowed(w.chans[ptr], op) && w.s.self in w.chans[ptr].listeners
      && ForeignNext(w, ptr, op) == ChannelStep(w, ptr, if op.OpBlock? then Block(w.chans[ptr]) else Unblock(w.chans[ptr]))
      && (w.s.active[id].out ==> !w.s.active[id].blocked)
      && (!w.s.active[id].out && w.chans[ptr].blocked && !w.chans[ptr].closed ==>
            w.s.active[id].blocked && id !in w.s.pendingUnblock)
  {
    hide Good, AllConserved, Tables;
    CoreAt(w, id, {}, 0);
    IdOfIs(w, id, {}, 0);
  }

  lemma SilentStep(w: World, ptr: Ptr)
    requires Ready(w.s.d) && ptr in w.chans
    ensures ChannelStep(w, ptr, w.chans[ptr]) == w
  {
    assert w.chans[ptr := w.chans[ptr]] == w.chans;
  }

  /** A channel that was blocked opens. If the client sends on it, it is handled after all that opened before it, and
      service is asked for unless the client is blocked; the client is told nothing yet. Towards the client nothing
      changes for the session. Any other channel is left alone. */
  lemma UnblockingTakesEffect(w: World, id: nat)
    requires Agreed(w) && id in w.s.active
    ensures var ptr := w.s.active[id].ptr;
      && ptr in w.chans && Ready(w.s.d) && Allowed(w.chans[ptr], OpUnblock)
      && var c, next := w.chans[ptr], ForeignNext(w, ptr, OpUnblock);
      if c.closed || !c.blocked then next == w
      else
        && next.chans == w.chans[ptr := c.(blocked := false, lastStatus := FlowOpen,
                                           broadcasts := c.broadcasts + [(FlowOpen, c.listeners)])]
        && next.s == (if w.s.active[id].out then w.s
                      else w.s.(pendingUnblock := w.s.pendingUnblock + [id], d := RequestUnlessBlocked(w.s.d)))
  {
    hide Core, AllConserved, Good, Tables, RequestUnlessBlocked, Unblock;
    FlowOpIs(w, id, OpUnblock);
    var ptr := w.s.active[id].ptr;
    NothingToCall(w.chans[ptr]);
    SilentStep(w, ptr);
    if !w.chans[ptr].closed && w.chans[ptr].blocked {
      UnblockingCalls(w.chans[ptr], w.s.self);
      IdOfActive(w.s, id);
    }
  }

  /** The event is a block of the channel under this id. */
  predicate TellsBlock(event: RouterEvent, id: nat) {
    event.channelId == 0 && event.data == Status(StatusChange(StatusBlock, false, id))
  }

  lemma BlockCallTells(s: Session, id: nat)
    requires Tables(s) && Ready(s.d) && id in s.active && !s.active[id].out && !s.active[id].blocked
    ensures var t := FlowBlockedCall(s, s.active[id].ptr);
      && t.active == s.active[id := s.active[id].(blocked := true)]
      && |t.d.log| == |s.d.log| + 1 && s.d.log <= t.d.log && TellsBlock(t.d.log[|s.d.log|], id)
      && (t.d.requested || t.d.blocked)
  {
    hide NextSerial, RemoveFirst, NoRepeats;
    IdOfActive(s, id);
  }


  lemma BlockCallSilent(s: Session, id: nat)
    requires Tables(s) && Ready(s.d) && id in s.active && (s.active[id].out || s.active[id].blocked)
    ensures FlowBlockedCall(s, s.active[id].ptr)
      == if s.active[id].out then s else s.(pendingUnblock := RemoveFirst(s.pendingUnblock, id))
  {
    hide RemoveFirst, NoRepeats;
    IdOfActive(s, id);
  }

  /** An open channel blocks. If the client sends on it and was told that it may, it is told that it may not any more,
      of nothing else, and service is asked for unless the client is blocked; if it had not been told yet that the
      channel opened, the channel is simply no longer handled. */
  lemma BlockingTakesEffect(w: World, id: nat)
    requires Agreed(w) && id in w.s.active
    ensures var ptr := w.s.active[id].ptr;
      && ptr in w.chans && Ready(w.s.d) && Allowed(w.chans[ptr], OpBlock)
      && var c, info, next := w.chans[ptr], w.s.active[id], ForeignNext(w, ptr, OpBlock);
      if c.closed || c.blocked then next == w
      else
        && next.chans == w.chans[ptr := c.(blocked := true, lastStatus := FlowBlocked,
                                           broadcasts := c.broadcasts + [(FlowBlocked, c.listeners)])]
        && (info.out ==> next.s == w.s)
        && (!info.out && info.blocked ==> next.s == w.s.(pendingUnblock := RemoveFirst(w.s.pendingUnblock, id)))
        && (!info.out && !info.blocked ==>
              && next.s.active == w.s.active[id := info.(blocked := true)]
              && |next.s.d.log| == |w.s.d.log| + 1 && w.s.d.log <= next.s.d.log
              && TellsBlock(next.s.d.log[|w.s.d.log|], id) && (next.s.d.requested || next.s.d.blocked))
  {
    hide Core, AllConserved, Good, Tables, Block, FlowBlockedCall, TellsBlock;
    FlowOpIs(w, id, OpBlock);
    var ptr := w.s.active[id].ptr;
    NothingToCall(w.chans[ptr]);
    SilentStep(w, ptr);
    if !w.chans[ptr].closed && !w.chans[ptr].blocked {
      BlockingCalls(w.chans[ptr], w.s.self);
      if w.s.active[id].out || w.s.active[id].blocked {
        BlockCallSilent(w.s, id);
      } else {
        BlockCallTells(w.s, id);
      }
    }
  }
}
