/** Processes on a channel, and what makes a channel open, blocked or closed, over any list of calls. */
module ChannelMembers {
  import opened Basics
  import opened RouterEvents
  import opened Channels
  import opened ChannelRuns

  // ----- A process keeps its channel alive -----

  /** No call takes the process off the channel. */
  predicate AllSpare(ops: seq<ChannelOp>, pid: nat, rid: nat) {
    forall i :: 0 <= i < |ops| ==> ops[i] != OpResourceRemoved(pid, rid)
  }

  lemma RemovingSpares<T>(s: seq<T>, x: T, y: T)
    requires y in s && y != x
    ensures y in RemoveFirst(s, x)
  {
  }

  lemma ResourceOpKeepsMember(c: Channel, op: ChannelOp, pid: nat, rid: nat)
    requires Good(c) && Allowed(c, op) && op != OpResourceRemoved(pid, rid) && pid > 0 && IsMember(c, pid, rid)
    requires op.OpResourceAdded? || op.OpResourceRemoved?
    ensures IsMember(Apply(c, op), pid, rid) && Apply(c, op).destroyed == c.destroyed
  {
    hide StatusGood, CheckStatus, RemoveFirst;
    if op.OpResourceRemoved? && (pid, rid) in c.senders {
      RemovingSpares(c.senders, (op.pid, op.rid), (pid, rid));
    }
    if op.OpResourceRemoved? {
      ClosingSpares(c.(recvPid := 0, recvRid := 0));
      ClosingSpares(c.(senders := RemoveFirst(c.senders, (op.pid, op.rid))));
    }
  }

  lemma ClosingSpares(c: Channel)
    ensures var d := Close(c);
      && d.recvPid == c.recvPid && d.recvRid == c.recvRid && d.senders == c.senders
      && (c.recvPid > 0 || c.senders != [] ==> d.destroyed == c.destroyed)
  {
  }

  /** The processes are the same, and while there are any the channel stays. */
  predicate SameMembers(c: Channel, next: Channel) {
    && next.recvPid == c.recvPid && next.recvRid == c.recvRid && next.senders == c.senders
    && (c.recvPid > 0 || c.senders != [] ==> next.destroyed == c.destroyed)
  }

  lemma DeletingKeepsMembers(c: Channel)
    ensures SameMembers(c, DeleteIfUnused(c)) && DeleteIfUnused(c).addPid == c.addPid
  {
  }

  lemma CheckingKeepsMembers(c: Channel)
    ensures SameMembers(c, CheckStatus(c)) && CheckStatus(c).destroyed == c.destroyed && CheckStatus(c).addPid == c.addPid
  {
  }

  lemma UnregisteringKeepsMembers(c: Channel, ptr: Ptr)
    ensures SameMembers(c, UnregisterHolder(c, ptr)) && UnregisterHolder(c, ptr).addPid == c.addPid
    ensures SameMembers(c, UnregisterListener(c, ptr)) && UnregisterListener(c, ptr).addPid == c.addPid
  {
    hide DeleteIfUnused, RemoveFirst;
    var unlistened := c.(listeners := RemoveFirst(c.listeners, ptr));
    DeletingKeepsMembers(if ptr == 0 then c else c.(holders := c.holders - multiset{ptr}));
    DeletingKeepsMembers(if ptr == 0 then unlistened else unlistened.(holders := c.holders - multiset{ptr}));
  }

  lemma ReferenceOpKeepsMembers(c: Channel, op: ChannelOp)
    requires Allowed(c, op) && IsReferenceOp(op)
    ensures SameMembers(c, Apply(c, op)) && Apply(c, op).addPid == c.addPid
  {
    hide UnregisterHolder, UnregisterListener, CheckStatus;
    if op.OpUnregisterReceiver? {
      CheckingKeepsMembers(c.(recvCallback := 0, closed := true));
      UnregisteringKeepsMembers(InternalClose(c.(recvCallback := 0)), op.ptr);
    } else if op.OpUnregisterHolder? || op.OpUnregisterListener? {
      UnregisteringKeepsMembers(c, op.ptr);
    }
  }

  lemma ReactingKeepsMembers(c: Channel, reaction: Reaction)
    ensures SameMembers(c, React(c, reaction)) && React(c, reaction).addPid == c.addPid
  {
    hide CheckStatus, DeleteIfUnused;
    CheckingKeepsMembers(c.(blocked := true));
    CheckingKeepsMembers(c.(closed := true));
    DeletingKeepsMembers(CheckStatus(c.(closed := true)));
  }

  lemma SendKeepsMembers(c: Channel, op: ChannelOp)
    requires Allowed(c, op) && op.OpSend?
    ensures SameMembers(c, Apply(c, op)) && Apply(c, op).addPid == c.addPid
  {
    hide React;
    ReactingKeepsMembers(c.(inCallback := true, accepted := c.accepted + [(op.ptr, op.item)]), op.reaction);
  }

  lemma OtherOpKeepsMembers(c: Channel, op: ChannelOp)
    requires Allowed(c, op) && !op.OpResourceAdded? && !op.OpResourceRemoved?
    ensures SameMembers(c, Apply(c, op))
  {
    hide StatusOf, SameMembers;
    if IsReferenceOp(op) {
      ReferenceOpKeepsMembers(c, op);
    } else if op.OpSend? {
      SendKeepsMembers(c, op);
    } else {
      FlowOpKeepsMembers(c, op);
    }
  }

  lemma FlowOpKeepsMembers(c: Channel, op: ChannelOp)
    requires Allowed(c, op) && !op.OpResourceAdded? && !op.OpResourceRemoved? && !IsReferenceOp(op) && !op.OpSend?
    ensures SameMembers(c, Apply(c, op))
  {
    hide StatusOf;
  }

  lemma SameMembersSpare(c: Channel, next: Channel, pid: nat, rid: nat)
    requires SameMembers(c, next)
    ensures IsMember(next, pid, rid) <==> IsMember(c, pid, rid)
    ensures pid > 0 && IsMember(c, pid, rid) ==> next.destroyed == c.destroyed
  {
  }

  lemma {:induction false} MemberStays(c: Channel, ops: seq<ChannelOp>, pid: nat, rid: nat)
    requires Good(c) && AllAllowed(c, ops) && AllSpare(ops, pid, rid) && pid > 0 && IsMember(c, pid, rid)
    ensures IsMember(ApplyAll(c, ops), pid, rid) && ApplyAll(c, ops).destroyed == c.destroyed
    decreases ops
  {
    hide Good, Apply, Allowed, IsMember, SameMembers;
    if ops != [] {
      OpKeepsGood(c, ops[0]);
      if ops[0].OpResourceAdded? || ops[0].OpResourceRemoved? {
        ResourceOpKeepsMember(c, ops[0], pid, rid);
      } else {
        OtherOpKeepsMembers(c, ops[0]);
        SameMembersSpare(c, Apply(c, ops[0]), pid, rid);
      }
      MemberStays(Apply(c, ops[0]), ops[1..], pid, rid);
    }
  }

  lemma {:induction false} Bounded(m: multiset<Ptr>) returns (n: nat)
    ensures forall p :: p in m ==> p < n
    decreases |m|
  {
    if m == multiset{} {
      n := 0;
    } else {
      var x :| x in m;
      var rest := Bounded(m - multiset{x});
      n := if rest <= x then x + 1 else rest;
      assert forall p :: p in m && p != x ==> p in m - multiset{x};
    }
  }

  lemma LeavingAddsNobody(c: Channel, op: ChannelOp, pid: nat, rid: nat)
    requires Allowed(c, op) && Leaves(op) && pid > 0 && !IsMember(c, pid, rid)
    ensures !IsMember(Apply(c, op), pid, rid)
  {
    hide Close, RemoveFirst, SameMembers;
    if op.OpResourceRemoved? {
      RemoveFirstShrinks(c.senders, (op.pid, op.rid));
      ClosingSpares(c.(recvPid := 0, recvRid := 0));
      ClosingSpares(c.(senders := RemoveFirst(c.senders, (op.pid, op.rid))));
    } else {
      OtherOpKeepsMembers(c, op);
      SameMembersSpare(c, Apply(c, op), pid, rid);
    }
  }

  /** Everybody but a process that is not on the channel can let go of it, and then it is gone. */
  lemma {:induction false} EverybodyElseCanLeave(c: Channel, ptr: Ptr, pid: nat, rid: nat) returns (ops: seq<ChannelOp>)
    requires Good(c) && c.holders[ptr] == 0 && ptr > 0 && pid > 0 && !IsMember(c, pid, rid)
    ensures AllAllowed(c, ops) && AllSpare(ops, pid, rid) && ApplyAll(c, ops).destroyed == 1
    decreases Claims(c)
  {
    hide StatusGood, RefsGood, Apply, Allowed, IsMember;
    if c.destroyed == 1 {
      ops := [];
    } else if Unused(c) {
      ops := [OpClose];
      ClosingUnused(c);
    } else {
      var op := SomebodyCanLeave(c, ptr);
      OpKeepsGood(c, op);
      OthersLeaveMeAlone(c, op, ptr);
      LeavingAddsNobody(c, op, pid, rid);
      var rest := EverybodyElseCanLeave(Apply(c, op), ptr, pid, rid);
      Prepend(c, op, rest);
      ops := [op] + rest;
    }
  }

  /** The channel can be brought to delete itself without this process being taken off it. */
  ghost predicate CanGoWithout(c: Channel, pid: nat, rid: nat) {
    exists ops :: AllAllowed(c, ops) && AllSpare(ops, pid, rid) && ApplyAll(c, ops).destroyed == 1
  }

  /** A process keeps its channel alive exactly while it is on it. */
  lemma GoesIfNoMember(c: Channel, pid: nat, rid: nat)
    requires Good(c) && c.destroyed == 0 && pid > 0
    ensures CanGoWithout(c, pid, rid) <==> !IsMember(c, pid, rid)
  {
    hide Good, IsMember;
    if IsMember(c, pid, rid) {
      forall ops | AllAllowed(c, ops) && AllSpare(ops, pid, rid) ensures ApplyAll(c, ops).destroyed == 0 {
        MemberStays(c, ops, pid, rid);
      }
    } else {
      var n := Bounded(c.holders);
      var ops := EverybodyElseCanLeave(c, n + 1, pid, rid);
    }
  }

  /** Adding a process keeps the channel alive for it, whether it comes to receive or to send, unless it is refused:
      it was announced as the receiver, and there is another one. */
  lemma AddingKeepsAlive(c: Channel, pid: nat, rid: nat)
    requires Good(c) && c.destroyed == 0 && pid > 0
    ensures CanGoWithout(ResourceAdded(c, pid, rid), pid, rid)
      <==> && !IsMember(c, pid, rid) && pid == c.addPid
           && (c.recvCallback != 0 || c.recvPid != 0)
  {
    hide CanGoWithout, StatusGood, NoRepeats;
    ResourceAddedKeeps(c, pid, rid);
    assert IsMember(ResourceAdded(c, pid, rid), pid, rid)
      <==> IsMember(c, pid, rid) || pid != c.addPid || (c.recvCallback == 0 && c.recvPid == 0);
    GoesIfNoMember(ResourceAdded(c, pid, rid), pid, rid);
  }

  /** Taking a process off closes the channel, and it then stays for that process's sake only if it had come to
      receive as well as to send. */
  lemma RemovingLetsGo(c: Channel, pid: nat, rid: nat)
    requires Good(c) && c.destroyed == 0 && pid > 0 && IsMember(c, pid, rid)
    ensures var next := ResourceRemoved(c, pid, rid);
      && next.closed && Good(next)
      && (next.destroyed == 0 ==>
            (CanGoWithout(next, pid, rid) <==> !(c.recvPid == pid && c.recvRid == rid && (pid, rid) in c.senders)))
  {
    hide CanGoWithout, StatusGood, RemoveFirst, NoRepeats;
    ResourceRemovedKeeps(c, pid, rid);
    RemoveFirstKeeps(c.senders, (pid, rid));
    ClosingSpares(c.(recvPid := 0, recvRid := 0));
    ClosingSpares(c.(senders := RemoveFirst(c.senders, (pid, rid))));
    if ResourceRemoved(c, pid, rid).destroyed == 0 { GoesIfNoMember(ResourceRemoved(c, pid, rid), pid, rid); }
  }

  /** Whom the channel expects as its receiver: the process announced last. */
  function Announced(ops: seq<ChannelOp>): nat {
    if ops == [] then 0
    else if ops[|ops| - 1].OpNextReceiver? then ops[|ops| - 1].pid
    else Announced(ops[..|ops| - 1])
  }

  lemma ResourceOpAnnounces(c: Channel, op: ChannelOp)
    requires Allowed(c, op) && (op.OpResourceAdded? || op.OpResourceRemoved?)
    ensures Apply(c, op).addPid == c.addPid
  {
    hide RemoveFirst, InternalClose, DeleteIfUnused;
    if op.OpResourceRemoved? {
      ClosingAnnounces(c.(recvPid := 0, recvRid := 0));
      ClosingAnnounces(c.(senders := RemoveFirst(c.senders, (op.pid, op.rid))));
    }
  }

  lemma ClosingAnnounces(c: Channel)
    ensures Close(c).addPid == c.addPid
  {
    hide CheckStatus, DeleteIfUnused;
    CheckingKeepsMembers(c.(closed := true));
    DeletingKeepsMembers(CheckStatus(c.(closed := true)));
  }

  lemma OpAnnounces(c: Channel, op: ChannelOp)
    requires Allowed(c, op)
    ensures Apply(c, op).addPid == if op.OpNextReceiver? then op.pid else c.addPid
  {
    hide Close, CheckStatus, UnregisterHolder, UnregisterListener, UnregisterReceiver, SendItem, DeleteIfUnused,
      ResourceAdded, ResourceRemoved, RegisterHolder, RegisterListener, RegisterReceiver;
    if IsReferenceOp(op) {
      ReferenceOpKeepsMembers(c, op);
    } else if op.OpSend? {
      SendKeepsMembers(c, op);
    } else if op.OpResourceAdded? || op.OpResourceRemoved? {
      ResourceOpAnnounces(c, op);
    } else if op.OpClose? {
      ClosingAnnounces(c);
    } else if op.OpUnlock? {
      DeletingKeepsMembers(c.(locks := c.locks - 1));
    } else {
      CheckingKeepsMembers(c.(blocked := op.OpBlock?));
    }
  }

  lemma {:induction false} AllButLast(c: Channel, ops: seq<ChannelOp>)
    requires AllAllowed(c, ops) && ops != []
    ensures var n := |ops| - 1;
      AllAllowed(c, ops[..n]) && Allowed(ApplyAll(c, ops[..n]), ops[n])
      && ApplyAll(c, ops) == Apply(ApplyAll(c, ops[..n]), ops[n])
    decreases ops
  {
    hide Apply, Allowed;
    if |ops| == 1 {
      assert ops[..0] == [] && ops[1..] == [];
    } else {
      AllButLast(Apply(c, ops[0]), ops[1..]);
      assert ops[..|ops| - 1][1..] == ops[1..][..|ops| - 2];
    }
  }

  lemma {:induction false} AnnouncedLast(kind: Kind, ops: seq<ChannelOp>)
    requires AllAllowed(NewChannel(kind), ops)
    ensures ApplyAll(NewChannel(kind), ops).addPid == Announced(ops)
    decreases |ops|
  {
    hide Apply, Allowed;
    if ops != [] {
      AllButLast(NewChannel(kind), ops);
      AnnouncedLast(kind, ops[..|ops| - 1]);
      OpAnnounces(ApplyAll(NewChannel(kind), ops[..|ops| - 1]), ops[|ops| - 1]);
    }
  }

  // ----- Open, blocked or closed -----

  /** The item is handed to a callback, which may react. */
  predicate HandsOver(c: Channel, op: ChannelOp) {
    op.OpSend? && StatusOf(c) == FlowOpen && c.recvCallback != 0
  }

  /** What closes a channel: being asked to, its receiver leaving, a process leaving, or its receiver closing it on an
      item. */
  predicate ClosesIt(c: Channel, op: ChannelOp) {
    match op
    case OpClose => true
    case OpUnregisterReceiver(ptr) => ptr != 0 && ptr == c.recvCallback
    case OpResourceRemoved(pid, rid) => IsMember(c, pid, rid)
    case OpSend(_, _, reaction) => HandsOver(c, op) && reaction.Closes?
    case _ => false
  }

  /** What becomes of the status; only blocking, unblocking and a receiver that blocks change it otherwise. */
  function FlowAfter(c: Channel, op: ChannelOp, flow: Flow): Flow {
    if flow == FlowClosed || ClosesIt(c, op) then FlowClosed
    else if op.OpBlock? || (HandsOver(c, op) && op.reaction.Blocks?) then FlowBlocked
    else if op.OpUnblock? then FlowOpen
    else flow
  }

  ghost function FlowOver(c: Channel, ops: seq<ChannelOp>, flow: Flow): Flow
    requires AllAllowed(c, ops)
    decreases ops
  {
    if ops == [] then flow else FlowOver(Apply(c, ops[0]), ops[1..], FlowAfter(c, ops[0], flow))
  }

  lemma ReferenceOpFlow(c: Channel, op: ChannelOp)
    requires Good(c) && Allowed(c, op) && IsReferenceOp(op)
    ensures StatusOf(Apply(c, op)) == FlowAfter(c, op, StatusOf(c))
  {
    hide RefsGood, StatusGood, RemoveFirst;
  }

  lemma SendFlow(c: Channel, op: ChannelOp)
    requires Good(c) && Allowed(c, op) && op.OpSend?
    ensures StatusOf(Apply(c, op)) == FlowAfter(c, op, StatusOf(c))
  {
    hide Alternating, LastBroadcast, NoRepeats;
  }

  lemma OpFlow(c: Channel, op: ChannelOp)
    requires Good(c) && Allowed(c, op)
    ensures StatusOf(Apply(c, op)) == FlowAfter(c, op, StatusOf(c))
  {
    hide Alternating, LastBroadcast, NoRepeats, RemoveFirst;
    if IsReferenceOp(op) {
      ReferenceOpFlow(c, op);
    } else if op.OpSend? {
      SendFlow(c, op);
    }
  }

  lemma {:induction false} RunFlow(c: Channel, ops: seq<ChannelOp>)
    requires Good(c) && AllAllowed(c, ops)
    ensures Good(ApplyAll(c, ops)) && StatusOf(ApplyAll(c, ops)) == FlowOver(c, ops, StatusOf(c))
    decreases ops
  {
    hide Good, Apply, Allowed, FlowAfter;
    if ops != [] {
      OpKeepsGood(c, ops[0]);
      OpFlow(c, ops[0]);
      RunFlow(Apply(c, ops[0]), ops[1..]);
    }
  }

  /** Over any list of calls a channel is open, blocked or closed as the calls say, and that is the status it told its
      listeners last. */
  lemma StatusIsEarned(kind: Kind, ops: seq<ChannelOp>)
    requires AllAllowed(NewChannel(kind), ops)
    ensures var c := ApplyAll(NewChannel(kind), ops);
      c.lastStatus == LastBroadcast(c.broadcasts) == FlowOver(NewChannel(kind), ops, FlowBlocked)
  {
    hide ApplyAll, AllAllowed, FlowOver;
    NewChannelGood(kind);
    RunFlow(NewChannel(kind), ops);
  }
}
