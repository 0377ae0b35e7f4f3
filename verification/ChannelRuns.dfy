/** Lists of calls on one channel, and when a channel goes away for good: exactly when everybody lets go of it. */
module ChannelRuns {
  import opened Basics
  import opened RouterEvents
  import opened Channels

  /** Each call is allowed, so above all made on a channel that has not deleted itself. */
  predicate AllAllowed(c: Channel, ops: seq<ChannelOp>)
    decreases ops
  {
    ops == [] || (Allowed(c, ops[0]) && AllAllowed(Apply(c, ops[0]), ops[1..]))
  }

  function ApplyAll(c: Channel, ops: seq<ChannelOp>): Channel
    requires AllAllowed(c, ops)
    decreases ops
  {
    if ops == [] then c else ApplyAll(Apply(c, ops[0]), ops[1..])
  }

  lemma {:induction false} AllKeepGood(c: Channel, ops: seq<ChannelOp>)
    requires Good(c) && AllAllowed(c, ops)
    ensures Good(ApplyAll(c, ops))
    decreases ops
  {
    hide Good, Apply, Allowed;
    if ops != [] {
      OpKeepsGood(c, ops[0]);
      AllKeepGood(Apply(c, ops[0]), ops[1..]);
    }
  }

  lemma Prepend(c: Channel, op: ChannelOp, ops: seq<ChannelOp>)
    requires Allowed(c, op) && AllAllowed(Apply(c, op), ops)
    ensures AllAllowed(c, [op] + ops) && ApplyAll(c, [op] + ops) == ApplyAll(Apply(c, op), ops)
  {
  }

  predicate AllByOthers(ops: seq<ChannelOp>, ptr: Ptr) {
    forall i :: 0 <= i < |ops| ==> ByOthers(ops[i], ptr)
  }

  /** A channel a party refers to stays, whatever others call. */
  lemma {:induction false} HeldStays(c: Channel, ops: seq<ChannelOp>, ptr: Ptr)
    requires Good(c) && AllAllowed(c, ops) && AllByOthers(ops, ptr) && ptr > 0
    ensures ApplyAll(c, ops).holders[ptr] == c.holders[ptr]
    ensures c.holders[ptr] > 0 ==> ApplyAll(c, ops).destroyed == c.destroyed
    decreases ops
  {
    hide Good, Apply, Allowed;
    if ops != [] {
      OpKeepsGood(c, ops[0]);
      OthersLeaveMeAlone(c, ops[0], ptr);
      HeldStays(Apply(c, ops[0]), ops[1..], ptr);
    }
  }

  /** How much there is to give up. */
  function Claims(c: Channel): nat {
    c.locks + |c.senders| + |c.holders| + (if c.recvPid > 0 then 1 else 0)
  }

  lemma LeavingProcess(c: Channel, pid: nat, rid: nat)
    requires (c.recvPid == pid > 0 && c.recvRid == rid) || (c.recvPid == 0 < pid && (pid, rid) in c.senders)
    ensures Claims(ResourceRemoved(c, pid, rid)) < Claims(c)
  {
    hide CheckStatus, NeedDelete;
    RemoveFirstShrinks(c.senders, (pid, rid));
    ClosingKeepsClaims(c.(recvPid := 0, recvRid := 0));
    ClosingKeepsClaims(c.(senders := RemoveFirst(c.senders, (pid, rid))));
  }

  lemma ClosingKeepsClaims(c: Channel)
    ensures Claims(InternalClose(c)) == Claims(c) && Claims(Close(c)) == Claims(c)
    ensures InternalClose(c).holders == c.holders
  {
  }

  lemma UnlockingIsLess(c: Channel)
    requires c.locks > 0
    ensures Claims(Unlock(c)) < Claims(c)
  {
  }

  lemma LeavingHolder(c: Channel, p: Ptr)
    requires p > 0 && p in c.holders
    ensures Claims(UnregisterHolder(c, p)) < Claims(c)
  {
  }

  lemma LeavingListener(c: Channel, p: Ptr)
    requires p > 0 && p in c.holders && p in c.listeners
    ensures Claims(UnregisterListener(c, p)) < Claims(c)
  {
    hide RemoveFirst, UnregisterHolder;
    LeavingHolder(c.(listeners := RemoveFirst(c.listeners, p)), p);
  }

  lemma LeavingReceiver(c: Channel)
    requires c.recvCallback > 0 && c.recvCallback in c.holders
    ensures Claims(UnregisterReceiver(c, c.recvCallback)) < Claims(c)
  {
    hide UnregisterHolder, InternalClose;
    var silent := c.(recvCallback := 0);
    ClosingKeepsClaims(silent);
    LeavingHolder(InternalClose(silent), c.recvCallback);
  }

  /** The process is the channel's receiver or one of its senders. */
  predicate IsMember(c: Channel, pid: nat, rid: nat) {
    (c.recvPid == pid && c.recvRid == rid) || (pid, rid) in c.senders
  }

  /** Somebody lets go of the channel. */
  predicate Leaves(op: ChannelOp) {
    op.OpUnlock? || op.OpUnregisterHolder? || op.OpUnregisterListener? || op.OpUnregisterReceiver? || op.OpResourceRemoved?
  }

  lemma NobodyHolds(c: Channel)
    requires c.listeners == [] && c.recvCallback == 0 && c.holders[0] == 0
    requires forall p :: p in c.holders ==> c.holders[p] <= Roles(c, p)
    ensures c.holders == multiset{}
  {
    forall p: Ptr ensures c.holders[p] == 0 {}
  }

  /** While somebody refers to the channel, one of them can let go of it. */
  lemma SomebodyCanLeave(c: Channel, ptr: Ptr) returns (op: ChannelOp)
    requires Good(c) && c.destroyed == 0 && !Unused(c) && c.holders[ptr] == 0 && ptr > 0
    ensures Allowed(c, op) && ByOthers(op, ptr) && Claims(Apply(c, op)) < Claims(c)
    ensures Leaves(op) && (op.OpResourceRemoved? ==> IsMember(c, op.pid, op.rid))
  {
    hide StatusGood, LifeGood, NoRepeats, ResourceRemoved, UnregisterHolder, UnregisterListener, UnregisterReceiver;
    hide DeleteIfUnused;
    assert Roles(c, ptr) == 0;
    if c.locks > 0 {
      op := OpUnlock;
      UnlockingIsLess(c);
    } else if p :| p in c.holders && Roles(c, p) < c.holders[p] {
      op := OpUnregisterHolder(p);
      LeavingHolder(c, p);
    } else if c.listeners != [] {
      var p := c.listeners[0];
      assert p in c.listeners && Roles(c, p) <= c.holders[p];
      op := OpUnregisterListener(p);
      LeavingListener(c, p);
    } else if c.recvCallback > 0 {
      assert Roles(c, c.recvCallback) <= c.holders[c.recvCallback];
      op := OpUnregisterReceiver(c.recvCallback);
      LeavingReceiver(c);
    } else if c.recvPid > 0 {
      op := OpResourceRemoved(c.recvPid, c.recvRid);
      LeavingProcess(c, c.recvPid, c.recvRid);
    } else {
      NobodyHolds(c);
      var sender := c.senders[0];
      assert sender in c.senders;
      op := OpResourceRemoved(sender.0, sender.1);
      LeavingProcess(c, sender.0, sender.1);
    }
  }

  /** Everybody but a party without references can let go of the channel, and then it is gone. */
  lemma {:induction false} EverybodyCanLeave(c: Channel, ptr: Ptr) returns (ops: seq<ChannelOp>)
    requires Good(c) && c.holders[ptr] == 0 && ptr > 0
    ensures AllAllowed(c, ops) && AllByOthers(ops, ptr) && ApplyAll(c, ops).destroyed == 1
    decreases Claims(c)
  {
    hide StatusGood, RefsGood, Apply, Allowed;
    if c.destroyed == 1 {
      ops := [];
    } else if Unused(c) {
      ops := [OpClose];
      ClosingUnused(c);
    } else {
      var op := SomebodyCanLeave(c, ptr);
      OpKeepsGood(c, op);
      OthersLeaveMeAlone(c, op, ptr);
      var rest := EverybodyCanLeave(Apply(c, op), ptr);
      Prepend(c, op, rest);
      ops := [op] + rest;
    }
  }

  lemma ClosingUnused(c: Channel)
    requires Good(c) && c.destroyed == 0 && Unused(c)
    ensures AllAllowed(c, [OpClose]) && ApplyAll(c, [OpClose]).destroyed == 1
  {
    assert [OpClose][1..] == [];
    assert ApplyAll(c, [OpClose]) == Close(c);
  }

  /** Others can call the channel in a way that makes it delete itself. */
  ghost predicate CanGo(c: Channel, ptr: Ptr) {
    exists ops :: AllAllowed(c, ops) && AllByOthers(ops, ptr) && ApplyAll(c, ops).destroyed == 1
  }

  /** Without a party's help a channel goes away exactly if the party holds no reference to it. */
  lemma GoesIfUnheld(c: Channel, ptr: Ptr)
    requires Good(c) && ptr > 0
    ensures CanGo(c, ptr) <==> c.holders[ptr] == 0
  {
    hide StatusGood, RefsGood;
    if c.holders[ptr] == 0 {
      var ops := EverybodyCanLeave(c, ptr);
    } else {
      assert c.destroyed == 0;
      forall ops | AllAllowed(c, ops) && AllByOthers(ops, ptr) ensures ApplyAll(c, ops).destroyed == 0 {
        HeldStays(c, ops, ptr);
      }
    }
  }

  /** A party registers as receiver and unregisters again, and has no other business with the channel. If it was
      the receiver already, a reference is left that nobody gives back, and the channel never goes away; if not,
      the channel goes away once everybody else is done with it. */
  lemma RegisteringAgainLeaks(c: Channel, ptr: Ptr)
    requires Good(c) && c.destroyed == 0 && CanRegisterReceiver(c, ptr)
    requires ptr !in c.listeners && c.holders[ptr] == Roles(c, ptr)
    ensures CanGo(UnregisterReceiver(RegisterReceiver(c, ptr), ptr), ptr) <==> c.recvCallback != ptr
  {
    hide Good, CanGo;
    var receiving := RegisterReceiver(c, ptr);
    RegisterReceiverKeeps(c, ptr) by { GoodIsLive(c); }
    UnregisterReceiverKeeps(receiving, ptr);
    LeftBehind(c, ptr);
    GoesIfUnheld(UnregisterReceiver(receiving, ptr), ptr);
  }

  lemma GoodIsLive(c: Channel)
    requires Good(c) && c.destroyed == 0
    ensures Live(c)
  {
  }

  /** What registering adds, unregistering takes back; but being the receiver counted already. */
  lemma LeftBehind(c: Channel, ptr: Ptr)
    requires CanRegisterReceiver(c, ptr) && ptr !in c.listeners && c.holders[ptr] == Roles(c, ptr)
    ensures UnregisterReceiver(RegisterReceiver(c, ptr), ptr).holders[ptr] == if c.recvCallback == ptr then 1 else 0
  {
  }

  const TWICE := [OpRegisterReceiver(3), OpRegisterReceiver(3), OpUnregisterReceiver(3)]

  lemma ThreeCalls(c: Channel, ops: seq<ChannelOp>)
    requires |ops| == 3 && Allowed(c, ops[0]) && Allowed(Apply(c, ops[0]), ops[1])
    requires Allowed(Apply(Apply(c, ops[0]), ops[1]), ops[2])
    ensures AllAllowed(c, ops) && ApplyAll(c, ops) == Apply(Apply(Apply(c, ops[0]), ops[1]), ops[2])
  {
    hide Apply, Allowed;
    var c1 := Apply(c, ops[0]);
    var c2 := Apply(c1, ops[1]);
    assert ApplyAll(Apply(c2, ops[2]), []) == Apply(c2, ops[2]);
    Prepend(c2, ops[2], []);
    Prepend(c1, ops[1], [ops[2]] + []);
    Prepend(c, ops[0], [ops[1]] + ([ops[2]] + []));
    assert ops == [ops[0]] + ([ops[1]] + ([ops[2]] + []));
  }

  /** A party registers twice with a new channel and unregisters once: the channel is closed, has no receiver, and
      stays for good. */
  lemma RegisteredTwice(kind: Kind)
    ensures AllAllowed(NewChannel(kind), TWICE)
    ensures var c := ApplyAll(NewChannel(kind), TWICE);
      c.closed && c.recvCallback == 0 && c.destroyed == 0 && !CanGo(c, 3)
  {
    hide CanGo, ApplyAll, AllAllowed, Good, RegisterReceiver, UnregisterReceiver, NewChannel, Roles,
      CanRegisterReceiver;
    FirstRegistration(kind);
    var c0 := NewChannel(kind);
    var c1 := RegisterReceiver(c0, 3);
    NewChannelGood(kind);
    RegisterReceiverKeeps(c0, 3);
    RegisteringAgainLeaks(c1, 3);
    ClosedAndHeld(c1);
    ThreeCalls(c0, TWICE);
  }

  lemma FirstRegistration(kind: Kind)
    ensures var c0, c1 := NewChannel(kind), RegisterReceiver(NewChannel(kind), 3);
      && c0.destroyed == 0 && c1.destroyed == 0 && c1.recvPid == 0 && c1.recvCallback == 3 && c1.listeners == []
      && c1.holders == multiset{3} && CanRegisterReceiver(c1, 3) && c1.holders[3] == Roles(c1, 3)
  {
  }

  lemma ClosedAndHeld(c: Channel)
    requires c.recvCallback == 3 && c.recvPid == 0 && c.holders == multiset{3} && c.destroyed == 0
    ensures RegisterReceiver(c, 3).destroyed == 0
    ensures var next := UnregisterReceiver(RegisterReceiver(c, 3), 3);
      next.closed && next.recvCallback == 0 && next.destroyed == 0
  {
    assert 3 in UnregisterReceiver(RegisterReceiver(c, 3), 3).holders;
  }
}
