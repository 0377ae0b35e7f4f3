/** A channel (events_Channel.cpp with its two subclasses) as a value, with one function per
    operation. Parties that hold, listen to or receive from a channel are named by their address.
    Item limits are not in force in the source (`channel_unlimited_items` is never cleared), so
    every channel is unlimited. `ChannelObjects.Channel` proves its methods against these
    functions. */
module Channels {
  import opened Basics
  import opened RouterEvents

  datatype Flow = FlowOpen | FlowBlocked | FlowClosed
  datatype Kind = TextKind | DataKind

  /** What a receiving callback does to the channel while it is handed an item. */
  datatype Reaction = Quiet | Blocks | Closes

  /** The last three fields are history: how often the channel deleted itself, the items it accepted
      with who sent them, and its status broadcasts with who was called. */
  datatype Channel = Channel(
    kind: Kind,
    blocked: bool,
    closed: bool,
    lastStatus: Flow,
    inCallback: bool,
    recvPid: nat,
    recvRid: nat,
    addPid: nat,
    senders: seq<(nat, nat)>,
    listeners: seq<Ptr>,
    holders: multiset<Ptr>,
    recvCallback: Ptr,
    locks: nat,
    destroyed: nat,
    accepted: seq<(Ptr, EventData)>,
    broadcasts: seq<(Flow, seq<Ptr>)>)

  function NewChannel(kind: Kind): Channel {
    Channel(kind, true, false, FlowBlocked, false, 0, 0, 0, [], [], multiset{}, 0, 0, 0, [], [])
  }

  function StatusOf(c: Channel): Flow {
    if c.closed then FlowClosed else if c.blocked then FlowBlocked else FlowOpen
  }

  /** `check_status` with `broadcast_status`: listeners are called only when the status changed. */
  function CheckStatus(c: Channel): Channel {
    if StatusOf(c) == c.lastStatus then c
    else c.(lastStatus := StatusOf(c), inCallback := false,
            broadcasts := c.broadcasts + [(StatusOf(c), c.listeners)])
  }

  /** `need_delete_instance` */
  predicate NeedDelete(c: Channel) {
    && !c.inCallback && c.locks == 0
    && c.recvPid == 0 && c.recvRid == 0
    && c.senders == [] && c.holders == multiset{}
  }

  /** `delete_instance` */
  function DeleteIfUnused(c: Channel): Channel {
    if NeedDelete(c) then c.(destroyed := c.destroyed + 1) else c
  }

  function Block(c: Channel): Channel {
    if c.closed then c else CheckStatus(c.(blocked := true))
  }

  function Unblock(c: Channel): Channel {
    if c.closed then c else CheckStatus(c.(blocked := false))
  }

  /** `internal_close_channel`; it reports `NeedDelete` of the result. */
  function InternalClose(c: Channel): Channel {
    CheckStatus(c.(closed := true))
  }

  function Close(c: Channel): Channel {
    DeleteIfUnused(InternalClose(c))
  }

  predicate CanAddReceiver(c: Channel, pid: nat, rid: nat) {
    c.recvCallback == 0 && (c.recvPid == 0 || (c.recvPid == pid && c.recvRid == rid))
  }

  /** `resource_added_to_process`; it fails only for a receiver that cannot be added. */
  function ResourceAdded(c: Channel, pid: nat, rid: nat): Channel {
    if pid == c.addPid then
      if CanAddReceiver(c, pid, rid) then c.(recvPid := pid, recvRid := rid) else c
    else if (pid, rid) in c.senders then c
    else c.(senders := c.senders + [(pid, rid)])
  }

  /** `resource_removed_from_process` */
  function ResourceRemoved(c: Channel, pid: nat, rid: nat): Channel {
    if c.recvPid == pid && c.recvRid == rid then Close(c.(recvPid := 0, recvRid := 0))
    else if (pid, rid) in c.senders then Close(c.(senders := RemoveFirst(c.senders, (pid, rid))))
    else c
  }

  function RegisterHolder(c: Channel, ptr: Ptr): Channel {
    if ptr == 0 then c else c.(holders := c.holders + multiset{ptr})
  }

  function UnregisterHolder(c: Channel, ptr: Ptr): Channel {
    DeleteIfUnused(if ptr == 0 then c else c.(holders := c.holders - multiset{ptr}))
  }

  function RegisterListener(c: Channel, ptr: Ptr): Channel {
    if ptr == 0 || ptr in c.listeners then c
    else RegisterHolder(c.(listeners := c.listeners + [ptr]), ptr)
  }

  function UnregisterListener(c: Channel, ptr: Ptr): Channel {
    if ptr == 0 || ptr !in c.listeners then c
    else UnregisterHolder(c.(listeners := RemoveFirst(c.listeners, ptr)), ptr)
  }

  predicate CanRegisterReceiver(c: Channel, ptr: Ptr) {
    ptr != 0 && c.recvPid == 0 && (c.recvCallback == 0 || c.recvCallback == ptr)
  }

  function RegisterReceiver(c: Channel, ptr: Ptr): Channel {
    if CanRegisterReceiver(c, ptr) then RegisterHolder(c.(recvCallback := ptr), ptr) else c
  }

  function UnregisterReceiver(c: Channel, ptr: Ptr): Channel {
    if ptr == 0 || ptr != c.recvCallback then c
    else UnregisterHolder(InternalClose(c.(recvCallback := 0)), ptr)
  }

  function Lock(c: Channel): Channel {
    c.(locks := c.locks + 1)
  }

  function Unlock(c: Channel): Channel
    requires 0 < c.locks
  {
    DeleteIfUnused(c.(locks := c.locks - 1))
  }

  function React(c: Channel, reaction: Reaction): Channel {
    match reaction
    case Quiet => c
    case Blocks => Block(c)
    case Closes => Close(c)
  }

  /** Whether `send_item` accepts: `channel_about_to_send_item`. */
  predicate Accepts(c: Channel) {
    c.lastStatus == FlowOpen
  }

  /** `send_item`, which succeeds when `Accepts(c)`. Only a receiving callback can react; a process
      gets a message and a channel without receiver drops the item. */
  function SendItem(c: Channel, sender: Ptr, item: EventData, reaction: Reaction): Channel {
    if !Accepts(c) then c.(inCallback := false)
    else
      var taken := c.(inCallback := true, accepted := c.accepted + [(sender, item)]);
      var reacted := if c.recvPid == 0 && c.recvCallback != 0 then React(taken, reaction) else taken;
      reacted.(inCallback := false)
  }

  // ----- What every operation keeps -----

  /** References a party has because it listens or receives. */
  function Roles(c: Channel, ptr: Ptr): nat {
    (if ptr in c.listeners then 1 else 0) + (if ptr == c.recvCallback then 1 else 0)
  }

  /** Nobody refers to the channel. */
  predicate Unused(c: Channel) {
    c.locks == 0 && c.recvPid == 0 && c.recvRid == 0 && c.senders == [] && c.holders == multiset{}
  }

  /** The status the broadcasts end with; a channel starts out blocked. */
  function LastBroadcast(broadcasts: seq<(Flow, seq<Ptr>)>): Flow {
    if broadcasts == [] then FlowBlocked else broadcasts[|broadcasts| - 1].0
  }

  /** No status is broadcast twice in a row, and nothing follows the closing. */
  predicate Alternating(broadcasts: seq<(Flow, seq<Ptr>)>) {
    forall i :: 0 <= i < |broadcasts| ==>
      && broadcasts[i].0 != LastBroadcast(broadcasts[..i])
      && !LastBroadcast(broadcasts[..i]).FlowClosed?
  }

  /** What was broadcast. */
  ghost predicate StatusGood(c: Channel) {
    c.lastStatus == StatusOf(c) && c.lastStatus == LastBroadcast(c.broadcasts) && Alternating(c.broadcasts)
  }

  /** Who refers to the channel. */
  ghost predicate RefsGood(c: Channel) {
    && !(c.recvPid > 0 && c.recvCallback > 0)
    && (c.recvPid == 0 ==> c.recvRid == 0)
    && NoRepeats(c.senders) && (forall sender :: sender in c.senders ==> sender.0 > 0)
    && NoRepeats(c.listeners) && 0 !in c.listeners
    && (forall ptr: Ptr :: ptr > 0 ==> Roles(c, ptr) <= c.holders[ptr])
    && c.holders[0] == 0
  }

  /** It deleted itself at most once, and only when nobody referred to it any more. */
  ghost predicate LifeGood(c: Channel) {
    c.destroyed <= 1 && (c.destroyed == 1 ==> Unused(c)) && !c.inCallback
  }

  ghost predicate Good(c: Channel) {
    StatusGood(c) && RefsGood(c) && LifeGood(c)
  }

  ghost predicate Live(c: Channel) {
    StatusGood(c) && RefsGood(c) && c.destroyed == 0
  }

  /** A call on a live channel by whoever holds it. */
  datatype ChannelOp =
    | OpBlock
    | OpUnblock
    | OpClose
    | OpNextReceiver(pid: nat)
    | OpResourceAdded(pid: nat, rid: nat)
    | OpResourceRemoved(pid: nat, rid: nat)
    | OpRegisterHolder(ptr: Ptr)
    | OpUnregisterHolder(ptr: Ptr)
    | OpRegisterListener(ptr: Ptr)
    | OpUnregisterListener(ptr: Ptr)
    | OpRegisterReceiver(ptr: Ptr)
    | OpUnregisterReceiver(ptr: Ptr)
    | OpLock
    | OpUnlock
    | OpSend(ptr: Ptr, item: EventData, reaction: Reaction)

  /** Calls are made on live channels, process ids are not 0, a lock is released only when held, and
      a party gives up as a mere holder only what it does not hold as a listener or receiver. */
  predicate Allowed(c: Channel, op: ChannelOp) {
    && c.destroyed == 0
    && match op
       case OpResourceAdded(pid, _) => pid > 0
       case OpResourceRemoved(pid, _) => pid > 0
       case OpUnregisterHolder(ptr) => Roles(c, ptr) < c.holders[ptr]
       case OpUnlock => c.locks > 0
       case _ => true
  }

  function Apply(c: Channel, op: ChannelOp): Channel
    requires Allowed(c, op)
  {
    match op
    case OpBlock => Block(c)
    case OpUnblock => Unblock(c)
    case OpClose => Close(c)
    case OpNextReceiver(pid) => c.(addPid := pid)
    case OpResourceAdded(pid, rid) => ResourceAdded(c, pid, rid)
    case OpResourceRemoved(pid, rid) => ResourceRemoved(c, pid, rid)
    case OpRegisterHolder(ptr) => RegisterHolder(c, ptr)
    case OpUnregisterHolder(ptr) => UnregisterHolder(c, ptr)
    case OpRegisterListener(ptr) => RegisterListener(c, ptr)
    case OpUnregisterListener(ptr) => UnregisterListener(c, ptr)
    case OpRegisterReceiver(ptr) => RegisterReceiver(c, ptr)
    case OpUnregisterReceiver(ptr) => UnregisterReceiver(c, ptr)
    case OpLock => Lock(c)
    case OpUnlock => Unlock(c)
    case OpSend(ptr, item, reaction) => SendItem(c, ptr, item, reaction)
  }

  /** Changing the flags of a live channel and checking the status keeps the broadcasts in order. */
  lemma CheckStatusKeeps(c: Channel, flagged: Channel)
    requires Live(c) && (c.closed ==> flagged.closed)
    requires flagged == c.(blocked := flagged.blocked, closed := flagged.closed)
    ensures Live(CheckStatus(flagged)) && (!c.inCallback ==> !CheckStatus(flagged).inCallback)
  {
    var next := CheckStatus(flagged);
    if StatusOf(flagged) != c.lastStatus {
      var n := |c.broadcasts|;
      assert next.broadcasts[..n] == c.broadcasts;
      forall i | 0 <= i < n ensures next.broadcasts[..i] == c.broadcasts[..i] {}
    }
    assert forall ptr :: Roles(next, ptr) == Roles(c, ptr);
  }

  lemma CloseKeeps(c: Channel)
    requires Live(c) && !c.inCallback
    ensures Live(InternalClose(c)) && Good(InternalClose(c)) && Good(Close(c))
  {
    CheckStatusKeeps(c, c.(closed := true));
    DeleteKeeps(InternalClose(c));
  }

  lemma DeleteKeeps(c: Channel)
    requires Live(c) && !c.inCallback
    ensures Good(DeleteIfUnused(c))
  {
  }

  lemma NewChannelGood(kind: Kind)
    ensures Good(NewChannel(kind)) && Live(NewChannel(kind))
  {
  }

  lemma ResourceAddedKeeps(c: Channel, pid: nat, rid: nat)
    requires Good(c) && Live(c) && pid > 0
    ensures Good(ResourceAdded(c, pid, rid))
  {
  }

  lemma ResourceRemovedKeeps(c: Channel, pid: nat, rid: nat)
    requires Good(c) && Live(c) && pid > 0
    ensures Good(ResourceRemoved(c, pid, rid))
  {
    if c.recvPid == pid && c.recvRid == rid {
      var noReceiver := c.(recvPid := 0, recvRid := 0);
      assert forall ptr :: Roles(noReceiver, ptr) == Roles(c, ptr);
      CloseKeeps(noReceiver);
    } else if (pid, rid) in c.senders {
      var noSender := c.(senders := RemoveFirst(c.senders, (pid, rid)));
      RemoveFirstShrinks(c.senders, (pid, rid));
      RemoveFirstKeeps(c.senders, (pid, rid));
      assert forall ptr :: Roles(noSender, ptr) == Roles(c, ptr);
      CloseKeeps(noSender);
    }
  }

  lemma HolderOpsKeep(c: Channel, ptr: Ptr)
    requires Good(c) && Live(c)
    ensures Good(RegisterHolder(c, ptr)) && Live(RegisterHolder(c, ptr))
    ensures Roles(c, ptr) < c.holders[ptr] ==> Good(UnregisterHolder(c, ptr))
  {
    var more := RegisterHolder(c, ptr);
    assert forall p :: Roles(more, p) == Roles(c, p) && c.holders[p] <= more.holders[p];
    if Roles(c, ptr) < c.holders[ptr] {
      var fewer := c.(holders := c.holders - multiset{ptr});
      assert forall p :: Roles(fewer, p) == Roles(c, p);
      DeleteKeeps(fewer);
    }
  }

  lemma RegisterListenerKeeps(c: Channel, ptr: Ptr)
    requires Good(c) && Live(c)
    ensures Good(RegisterListener(c, ptr)) && Live(RegisterListener(c, ptr))
  {
  }

  lemma UnregisterListenerKeeps(c: Channel, ptr: Ptr)
    requires Good(c) && Live(c)
    ensures Good(UnregisterListener(c, ptr))
  {
    if ptr != 0 && ptr in c.listeners {
      RemoveFirstKeeps(c.listeners, ptr);
      var fewer := c.(listeners := RemoveFirst(c.listeners, ptr), holders := c.holders - multiset{ptr});
      assert forall p :: p != ptr ==> Roles(fewer, p) == Roles(c, p) && fewer.holders[p] == c.holders[p];
      assert Roles(c, ptr) <= c.holders[ptr];
      DeleteKeeps(fewer);
    }
  }

  lemma RegisterReceiverKeeps(c: Channel, ptr: Ptr)
    requires Good(c) && Live(c)
    ensures Good(RegisterReceiver(c, ptr)) && Live(RegisterReceiver(c, ptr))
  {
  }

  /** Without its receiver a channel is still held by the one who was. */
  lemma WithoutReceiver(c: Channel, ptr: Ptr)
    requires Good(c) && Live(c) && ptr != 0 && ptr == c.recvCallback
    ensures var silent := c.(recvCallback := 0);
      Live(silent) && !silent.inCallback && Roles(silent, ptr) < silent.holders[ptr]
  {
    hide Alternating, LastBroadcast, NoRepeats;
    var silent := c.(recvCallback := 0);
    assert forall p :: 0 < p != ptr ==> Roles(silent, p) == Roles(c, p);
    assert Roles(silent, ptr) + 1 == Roles(c, ptr) <= c.holders[ptr];
  }

  lemma ClosingLeavesReferences(c: Channel, ptr: Ptr)
    ensures InternalClose(c).holders == c.holders && Roles(InternalClose(c), ptr) == Roles(c, ptr)
  {
  }

  lemma UnregisterReceiverKeeps(c: Channel, ptr: Ptr)
    requires Good(c) && Live(c)
    ensures Good(UnregisterReceiver(c, ptr))
  {
    hide Good, Live, InternalClose, UnregisterHolder, Roles;
    if ptr != 0 && ptr == c.recvCallback {
      var silent := c.(recvCallback := 0);
      WithoutReceiver(c, ptr);
      CloseKeeps(silent);
      ClosingLeavesReferences(silent, ptr);
      GiveUpHolder(InternalClose(silent), ptr);
    }
  }

  lemma GiveUpHolder(c: Channel, ptr: Ptr)
    requires Good(c) && Live(c) && Roles(c, ptr) < c.holders[ptr]
    ensures Good(UnregisterHolder(c, ptr))
  {
  }

  /** What a receiving callback does keeps a channel live that somebody holds. */
  lemma ReactKeeps(c: Channel, reaction: Reaction)
    requires Live(c) && c.holders != multiset{}
    ensures Live(React(c, reaction))
  {
    CheckStatusKeeps(c, c.(blocked := true));
    CheckStatusKeeps(c, c.(closed := true));
  }

  lemma SendItemKeeps(c: Channel, sender: Ptr, item: EventData, reaction: Reaction)
    requires Good(c) && c.destroyed == 0
    ensures Good(SendItem(c, sender, item, reaction))
  {
    hide React, StatusGood;
    var taken := c.(inCallback := true, accepted := c.accepted + [(sender, item)]);
    RefsIgnoreItems(c, taken);
    if c.recvPid == 0 && c.recvCallback != 0 {
      assert Roles(c, c.recvCallback) <= c.holders[c.recvCallback];
      assert c.recvCallback in c.holders;
      ReactKeeps(taken, reaction);
    }
    var reacted := if c.recvPid == 0 && c.recvCallback != 0 then React(taken, reaction) else taken;
    RefsIgnoreItems(reacted, reacted.(inCallback := false));
    RefsIgnoreItems(c, c.(inCallback := false));
  }

  lemma RefsIgnoreItems(c: Channel, d: Channel)
    requires Live(c) && d == c.(inCallback := d.inCallback, accepted := d.accepted)
    ensures Live(d)
  {
  }

  /** Calls that change who refers to the channel. */
  predicate IsReferenceOp(op: ChannelOp) {
    op.OpRegisterHolder? || op.OpUnregisterHolder? || op.OpRegisterListener? || op.OpUnregisterListener?
    || op.OpRegisterReceiver? || op.OpUnregisterReceiver?
  }

  lemma ReferenceOpKeepsGood(c: Channel, op: ChannelOp)
    requires Good(c) && Allowed(c, op) && IsReferenceOp(op)
    ensures Good(Apply(c, op))
  {
    match op
    case OpRegisterHolder(ptr) => HolderOpsKeep(c, ptr);
    case OpUnregisterHolder(ptr) => HolderOpsKeep(c, ptr);
    case OpRegisterListener(ptr) => RegisterListenerKeeps(c, ptr);
    case OpUnregisterListener(ptr) => UnregisterListenerKeeps(c, ptr);
    case OpRegisterReceiver(ptr) => RegisterReceiverKeeps(c, ptr);
    case OpUnregisterReceiver(ptr) => UnregisterReceiverKeeps(c, ptr);
  }

  lemma FlowOpKeepsGood(c: Channel, op: ChannelOp)
    requires Good(c) && Allowed(c, op)
    requires op.OpBlock? || op.OpUnblock? || op.OpClose?
    ensures Good(Apply(c, op))
  {
    match op
    case OpBlock => CheckStatusKeeps(c, c.(blocked := true));
    case OpUnblock => CheckStatusKeeps(c, c.(blocked := false));
    case OpClose => CloseKeeps(c);
  }

  lemma LockOpKeepsGood(c: Channel, op: ChannelOp)
    requires Good(c) && Allowed(c, op)
    requires op.OpLock? || op.OpUnlock? || op.OpNextReceiver?
    ensures Good(Apply(c, op))
  {
  }

  /** Every call on a live channel keeps it good: the status is the one last broadcast, no status is
      broadcast twice in a row and nothing after the closing, process and callback receivers are never
      both present, listeners and receivers are counted as holders, and the channel deletes itself at
      most once, when nobody refers to it. */
  lemma OpKeepsGood(c: Channel, op: ChannelOp)
    requires Good(c) && Allowed(c, op)
    ensures Good(Apply(c, op))
  {
    if IsReferenceOp(op) {
      ReferenceOpKeepsGood(c, op);
    } else if op.OpBlock? || op.OpUnblock? || op.OpClose? {
      FlowOpKeepsGood(c, op);
    } else if op.OpLock? || op.OpUnlock? || op.OpNextReceiver? {
      LockOpKeepsGood(c, op);
    } else if op.OpSend? {
      SendItemKeeps(c, op.ptr, op.item, op.reaction);
    } else if op.OpResourceAdded? {
      ResourceAddedKeeps(c, op.pid, op.rid);
    } else {
      ResourceRemovedKeeps(c, op.pid, op.rid);
    }
  }

  /** A closed channel keeps its status. */
  lemma ClosedKeepsStatus(c: Channel)
    requires c.closed && c.lastStatus == FlowClosed
    ensures Close(c).broadcasts == c.broadcasts && Close(c).closed && InternalClose(c).broadcasts == c.broadcasts
    ensures Block(c) == c && Unblock(c) == c && InternalClose(c).closed
  {
  }

  lemma ClosedIsSilentForReferences(c: Channel, op: ChannelOp)
    requires Allowed(c, op) && c.closed && c.lastStatus == FlowClosed && IsReferenceOp(op)
    ensures Apply(c, op).closed && Apply(c, op).broadcasts == c.broadcasts
  {
    hide NeedDelete, RemoveFirst, InternalClose;
    if op.OpUnregisterReceiver? { ClosedKeepsStatus(c.(recvCallback := 0)); }
  }

  lemma ClosedIsSilentForResources(c: Channel, op: ChannelOp)
    requires Allowed(c, op) && c.closed && c.lastStatus == FlowClosed && (op.OpResourceAdded? || op.OpResourceRemoved?)
    ensures Apply(c, op).closed && Apply(c, op).broadcasts == c.broadcasts
  {
    hide NeedDelete, RemoveFirst, Close;
    ClosedKeepsStatus(c.(recvPid := 0, recvRid := 0));
    ClosedKeepsStatus(c.(senders := RemoveFirst(c.senders, (op.pid, op.rid))));
  }

  /** Closing is permanent, and a closed channel calls nobody any more, whatever is called on it. */
  lemma ClosedIsSilent(c: Channel, op: ChannelOp)
    requires Good(c) && Allowed(c, op) && c.closed
    ensures Apply(c, op).closed && Apply(c, op).broadcasts == c.broadcasts
  {
    hide RefsGood, LifeGood, Alternating, LastBroadcast, Block, Unblock, Close, NeedDelete;
    assert c.lastStatus == FlowClosed;
    ClosedKeepsStatus(c);
    if IsReferenceOp(op) {
      ClosedIsSilentForReferences(c, op);
    } else if op.OpResourceAdded? || op.OpResourceRemoved? {
      ClosedIsSilentForResources(c, op);
    }
  }

  // ----- What one party sees of calls made by others -----

  /** The items a party sent that the channel accepted, in order. */
  function AcceptedFrom(accepted: seq<(Ptr, EventData)>, ptr: Ptr): seq<EventData> {
    if accepted == [] then []
    else
      var last := accepted[|accepted| - 1];
      AcceptedFrom(accepted[..|accepted| - 1], ptr) + (if last.0 == ptr then [last.1] else [])
  }

  /** Not a call made by or for the party itself. */
  predicate ByOthers(op: ChannelOp, ptr: Ptr) {
    match op
    case OpRegisterHolder(p) => p != ptr
    case OpUnregisterHolder(p) => p != ptr
    case OpRegisterListener(p) => p != ptr
    case OpUnregisterListener(p) => p != ptr
    case OpRegisterReceiver(p) => p != ptr
    case OpUnregisterReceiver(p) => p != ptr
    case OpSend(p, _, _) => p != ptr
    case _ => true
  }

  /** The party's own references and accepted items are untouched, the channel it refers to stays
      alive, and a change of status is broadcast to it exactly when it listens. */
  predicate SameFor(ptr: Ptr, c: Channel, next: Channel) {
    && next.kind == c.kind
    && next.holders[ptr] == c.holders[ptr]
    && (ptr in next.listeners <==> ptr in c.listeners)
    && (next.recvCallback == ptr <==> c.recvCallback == ptr)
    && AcceptedFrom(next.accepted, ptr) == AcceptedFrom(c.accepted, ptr)
    && (c.closed ==> next.closed) && (next.closed ==> next.blocked == c.blocked)
    && (c.holders[ptr] > 0 ==> next.destroyed == c.destroyed)
    && (if next.lastStatus == c.lastStatus then next.broadcasts == c.broadcasts
        else
          && |next.broadcasts| == |c.broadcasts| + 1
          && next.broadcasts[|c.broadcasts|].0 == next.lastStatus
          && (ptr in next.broadcasts[|c.broadcasts|].1 <==> ptr in c.listeners))
  }

  lemma MoreReferencesAreSame(ptr: Ptr, c: Channel, p: Ptr)
    requires p != ptr
    ensures SameFor(ptr, c, RegisterHolder(c, p)) && SameFor(ptr, c, RegisterListener(c, p))
  {
    hide AcceptedFrom;
  }

  lemma NewReceiverIsSame(ptr: Ptr, c: Channel, p: Ptr)
    requires p != ptr && ptr > 0
    ensures SameFor(ptr, c, RegisterReceiver(c, p))
  {
    hide AcceptedFrom;
  }

  lemma OtherReferencesLeaveMeAlone(c: Channel, op: ChannelOp, ptr: Ptr)
    requires Allowed(c, op) && ByOthers(op, ptr) && ptr > 0 && IsReferenceOp(op)
    requires !op.OpUnregisterListener? && !op.OpUnregisterReceiver?
    ensures SameFor(ptr, c, Apply(c, op))
  {
    hide SameFor, RegisterHolder, RegisterListener, RegisterReceiver, UnregisterHolder;
    if op.OpUnregisterHolder? {
      GivingUpHolderIsSame(ptr, c, op.ptr);
    } else {
      MoreReferencesAreSame(ptr, c, op.ptr);
      if op.OpRegisterReceiver? { NewReceiverIsSame(ptr, c, op.ptr); }
    }
  }

  lemma SameTwice(ptr: Ptr, c: Channel, mid: Channel, next: Channel)
    requires SameFor(ptr, c, mid) && SameFor(ptr, mid, next)
    requires mid.lastStatus == next.lastStatus && mid.closed == next.closed
    ensures SameFor(ptr, c, next)
  {
  }

  lemma GivingUpHolderIsSame(ptr: Ptr, c: Channel, p: Ptr)
    requires p != ptr
    ensures SameFor(ptr, c, UnregisterHolder(c, p))
  {
  }

  /** Closing, after dropping a process from the channel. */
  lemma ClosingIsSame(ptr: Ptr, c: Channel, dropped: Channel)
    requires Good(c)
    requires dropped == c.(recvPid := dropped.recvPid, recvRid := dropped.recvRid, senders := dropped.senders)
    ensures SameFor(ptr, c, InternalClose(dropped)) && SameFor(ptr, c, Close(dropped))
  {
  }

  lemma OtherListenerLeavesMeAlone(c: Channel, p: Ptr, ptr: Ptr)
    requires NoRepeats(c.listeners) && p != ptr
    ensures SameFor(ptr, c, UnregisterListener(c, p))
  {
    hide AcceptedFrom, RemoveFirst, NoRepeats;
    if p != 0 && p in c.listeners {
      RemoveFirstKeeps(c.listeners, p);
      var fewer := c.(listeners := RemoveFirst(c.listeners, p));
      GivingUpHolderIsSame(ptr, fewer, p);
      SameTwice(ptr, c, fewer, UnregisterHolder(fewer, p));
    }
  }

  lemma OtherReceiverLeavesMeAlone(c: Channel, p: Ptr, ptr: Ptr)
    requires Good(c) && p != ptr && ptr > 0
    ensures SameFor(ptr, c, UnregisterReceiver(c, p))
  {
    hide AcceptedFrom, RefsGood, LifeGood, Alternating, LastBroadcast, UnregisterHolder;
    if p != 0 && p == c.recvCallback {
      ClosingIsSame(ptr, c, c);
      var closed := InternalClose(c).(recvCallback := 0);
      assert closed == InternalClose(c.(recvCallback := 0));
      GivingUpHolderIsSame(ptr, closed, p);
      UnregisteringIsFlow(closed, p);
      SameTwice(ptr, c, closed, UnregisterHolder(closed, p));
    }
  }

  lemma UnregisteringIsFlow(c: Channel, p: Ptr)
    ensures UnregisterHolder(c, p).lastStatus == c.lastStatus && UnregisterHolder(c, p).closed == c.closed
  {
  }

  lemma OtherUnregisterLeavesMeAlone(c: Channel, op: ChannelOp, ptr: Ptr)
    requires Good(c) && Allowed(c, op) && ByOthers(op, ptr) && ptr > 0
    requires op.OpUnregisterListener? || op.OpUnregisterReceiver?
    ensures SameFor(ptr, c, Apply(c, op))
  {
    hide SameFor, UnregisterListener, UnregisterReceiver, StatusGood, LifeGood;
    if op.OpUnregisterListener? {
      OtherListenerLeavesMeAlone(c, op.ptr, ptr);
    } else {
      OtherReceiverLeavesMeAlone(c, op.ptr, ptr);
    }
  }

  lemma OtherFlowLeavesMeAlone(c: Channel, op: ChannelOp, ptr: Ptr)
    requires Good(c) && Allowed(c, op) && ptr > 0
    requires op.OpBlock? || op.OpUnblock? || op.OpClose?
    ensures SameFor(ptr, c, Apply(c, op))
  {
    hide RefsGood, AcceptedFrom, Alternating;
    if op.OpClose? { ClosingIsSame(ptr, c, c); }
  }

  lemma OtherLocksLeaveMeAlone(c: Channel, op: ChannelOp, ptr: Ptr)
    requires Allowed(c, op) && ptr > 0
    requires op.OpLock? || op.OpUnlock? || op.OpNextReceiver?
    ensures SameFor(ptr, c, Apply(c, op))
  {
    hide AcceptedFrom;
  }

  lemma AddingResourceIsSame(ptr: Ptr, c: Channel, pid: nat, rid: nat)
    ensures SameFor(ptr, c, ResourceAdded(c, pid, rid))
  {
  }

  lemma RemovingResourceIsSame(ptr: Ptr, c: Channel, pid: nat, rid: nat)
    requires Good(c)
    ensures SameFor(ptr, c, ResourceRemoved(c, pid, rid))
  {
    if c.recvPid == pid && c.recvRid == rid {
      ClosingIsSame(ptr, c, c.(recvPid := 0, recvRid := 0));
    } else {
      ClosingIsSame(ptr, c, c.(senders := RemoveFirst(c.senders, (pid, rid))));
    }
  }

  lemma StatusIgnoresItems(c: Channel, accepted: seq<(Ptr, EventData)>)
    ensures CheckStatus(c.(accepted := accepted)) == CheckStatus(c).(accepted := accepted)
    ensures DeleteIfUnused(c.(accepted := accepted)) == DeleteIfUnused(c).(accepted := accepted)
  {
  }

  lemma ReactIgnoresItems(c: Channel, accepted: seq<(Ptr, EventData)>, reaction: Reaction)
    ensures React(c.(accepted := accepted), reaction) == React(c, reaction).(accepted := accepted)
  {
    hide CheckStatus, DeleteIfUnused;
    StatusIgnoresItems(c.(blocked := true), accepted);
    StatusIgnoresItems(c.(closed := true), accepted);
    StatusIgnoresItems(CheckStatus(c.(closed := true)), accepted);
  }

  lemma ReactIsSame(ptr: Ptr, c: Channel, reaction: Reaction)
    requires StatusGood(c)
    ensures c.holders != multiset{} ==> SameFor(ptr, c, React(c, reaction))
    ensures React(c, reaction).accepted == c.accepted
  {
  }

  lemma SameForIgnoresCallback(ptr: Ptr, c: Channel, next: Channel)
    requires SameFor(ptr, c.(inCallback := true), next)
    ensures SameFor(ptr, c, next.(inCallback := false))
  {
  }

  /** Handing over an item changes the channel only as far as the receiver reacts. */
  lemma SendChangesOnlyItems(c: Channel, sender: Ptr, item: EventData, reaction: Reaction, ptr: Ptr)
    requires Good(c) && c.destroyed == 0 && ptr > 0
    ensures var next := SendItem(c, sender, item, reaction);
      && (sender != ptr || !Accepts(c) ==> SameFor(ptr, c, next))
      && SameFor(ptr, c, next.(accepted := c.accepted))
      && next.accepted == (if Accepts(c) then c.accepted + [(sender, item)] else c.accepted)
  {
    hide React;
    var called, more := c.(inCallback := true), c.accepted + [(sender, item)];
    var next := SendItem(c, sender, item, reaction);
    AcceptedByOther(c.accepted, sender, item, ptr);
    if Accepts(c) && c.recvPid == 0 && c.recvCallback != 0 {
      assert Roles(c, c.recvCallback) <= c.holders[c.recvCallback];
      assert c.recvCallback in c.holders;
      ReactIgnoresItems(called, more, reaction);
      ReactIsSame(ptr, called, reaction);
      SameForIgnoresCallback(ptr, c, React(called, reaction));
      assert next.(accepted := c.accepted) == React(called, reaction).(inCallback := false);
    }
    SameForItems(ptr, c, next.(accepted := c.accepted), next.accepted);
  }

  /** More items of another sender do not matter to a party. */
  lemma SameForItems(ptr: Ptr, c: Channel, next: Channel, accepted: seq<(Ptr, EventData)>)
    requires SameFor(ptr, c, next)
    ensures AcceptedFrom(accepted, ptr) == AcceptedFrom(c.accepted, ptr) ==> SameFor(ptr, c, next.(accepted := accepted))
  {
  }

  lemma OthersLeaveMeAlone(c: Channel, op: ChannelOp, ptr: Ptr)
    requires Good(c) && Allowed(c, op) && ByOthers(op, ptr) && ptr > 0
    ensures SameFor(ptr, c, Apply(c, op))
  {
    if op.OpSend? {
      SendChangesOnlyItems(c, op.ptr, op.item, op.reaction, ptr);
    } else if op.OpUnregisterListener? || op.OpUnregisterReceiver? {
      OtherUnregisterLeavesMeAlone(c, op, ptr);
    } else if IsReferenceOp(op) {
      OtherReferencesLeaveMeAlone(c, op, ptr);
    } else if op.OpResourceAdded? || op.OpResourceRemoved? {
      AddingResourceIsSame(ptr, c, op.pid, op.rid);
      RemovingResourceIsSame(ptr, c, op.pid, op.rid);
    } else if op.OpLock? || op.OpUnlock? || op.OpNextReceiver? {
      OtherLocksLeaveMeAlone(c, op, ptr);
    } else {
      OtherFlowLeavesMeAlone(c, op, ptr);
    }
  }

  lemma AcceptedByOther(accepted: seq<(Ptr, EventData)>, sender: Ptr, item: EventData, ptr: Ptr)
    ensures AcceptedFrom(accepted + [(sender, item)], ptr)
      == AcceptedFrom(accepted, ptr) + (if sender == ptr then [item] else [])
  {
  }
}
