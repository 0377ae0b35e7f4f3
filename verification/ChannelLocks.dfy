/** The session locks a channel while it works on it: over every run, every lock it takes is given back before the
    step is over, so a channel is locked exactly as often as others have locked it. */
module ChannelLocks {
  import opened Basics
  import opened RouterEvents
  import opened Delivery
  import opened DeliveryProtocol
  import opened Channels
  import opened Sessions
  import opened SessionInvariant
  import opened SessionSteps
  import opened SessionService
  import opened SessionHosting
  import opened SessionRuns
  import opened SessionTheorems

  ghost predicate SameLocks(chans: map<Ptr, Channel>, next: map<Ptr, Channel>) {
    next.Keys == chans.Keys && forall ptr :: ptr in chans ==> next[ptr].locks == chans[ptr].locks
  }

  lemma LocksTwice(chans: map<Ptr, Channel>, mid: map<Ptr, Channel>, next: map<Ptr, Channel>)
    requires SameLocks(chans, mid) && SameLocks(mid, next)
    ensures SameLocks(chans, next)
  {
  }

  lemma ReactingKeepsLocks(c: Channel, reaction: Reaction)
    ensures React(c, reaction).locks == c.locks
  {
  }

  lemma SendingKeepsLocks(c: Channel, sender: Ptr, item: EventData, reaction: Reaction)
    ensures SendItem(c, sender, item, reaction).locks == c.locks
  {
    hide React;
    ReactingKeepsLocks(c.(inCallback := true, accepted := c.accepted + [(sender, item)]), reaction);
  }

  lemma StepKeepsLocks(w: World, ptr: Ptr, after: Channel)
    requires Ready(w.s.d) && ptr in w.chans && after.locks == w.chans[ptr].locks
    ensures SameLocks(w.chans, ChannelStep(w, ptr, after).chans)
  {
    hide FlowCall;
  }

  lemma HandlingKeepsLocks(w: World, id: nat, event: RouterEvent, reaction: Reaction)
    requires Ready(w.s.d) && id in w.s.active && w.s.active[id].ptr in w.chans
    ensures SameLocks(w.chans, Handle(w, id, event, reaction).chans)
  {
    hide ChannelStep, SendItem, QueueMessage, Accepts;
    var ptr := w.s.active[id].ptr;
    SendingKeepsLocks(w.chans[ptr], w.s.self, event.data, reaction);
    StepKeepsLocks(w, ptr, SendItem(w.chans[ptr], w.s.self, event.data, reaction));
  }

  lemma {:induction false} DrainingKeepsLocks(w: World, id: nat, reactions: seq<Reaction>, k: nat)
    requires Ready(w.s.d) && id in w.s.active && w.s.active[id].ptr in w.chans
    ensures SameLocks(w.chans, DrainQueue(w, id, reactions, k).chans)
    decreases |QueueOf(w.s, id)|
  {
    hide ChannelStep, SendItem, Accepts;
    if QueueOf(w.s, id) != [] {
      var ptr := w.s.active[id].ptr;
      var item, reaction := QueueOf(w.s, id)[0].data, ReactionAt(reactions, k);
      SendingKeepsLocks(w.chans[ptr], w.s.self, item, reaction);
      StepKeepsLocks(w, ptr, SendItem(w.chans[ptr], w.s.self, item, reaction));
      if Accepts(w.chans[ptr]) {
        var offered := OfferHead(w, id, reaction);
        var popped := offered.(s := SetQueue(offered.s, id, QueueOf(offered.s, id)[1..]));
        DrainingKeepsLocks(popped, id, reactions, k + 1);
        LocksTwice(w.chans, popped.chans, DrainQueue(popped, id, reactions, k + 1).chans);
      }
    }
  }

  /** What is locked around work that keeps the locks is as locked afterwards as before. */
  lemma LockAndRelease(w: World, ptr: Ptr, worked: World)
    requires ptr in w.chans && SameLocks(w.chans[ptr := Lock(w.chans[ptr])], worked.chans)
    ensures SameLocks(w.chans, Release(worked, ptr).chans)
  {
    hide NeedDelete;
  }

  lemma DrainingOneKeepsLocks(w: World, id: nat, reactions: seq<Reaction>)
    requires Known(w)
    ensures SameLocks(w.chans, DrainChannel(w, id, reactions).0.chans)
  {
    hide DrainQueue, FinishDrain, Release, Lock, InUnknownState;
    if id in w.s.active {
      var ptr := w.s.active[id].ptr;
      var locked := w.(chans := w.chans[ptr := Lock(w.chans[ptr])]);
      if w.chans[ptr].closed {
        LockAndRelease(w, ptr, locked);
      } else {
        DrainingKeepsLocks(locked, id, reactions, 0);
        LockAndRelease(w, ptr, FinishDrain(DrainQueue(locked, id, reactions, 0), id));
      }
    }
  }

  lemma {:induction false} DrainingAllKeepsLocks(w: World, ids: seq<nat>, reactions: seq<seq<Reaction>>)
    requires Known(w)
    ensures SameLocks(w.chans, DrainAll(w, ids, reactions).0.chans)
    decreases ids
  {
    hide DrainChannel, Known;
    if ids != [] {
      var first := if reactions == [] then [] else reactions[0];
      var rest := if reactions == [] then [] else reactions[1..];
      DrainingOneKeepsLocks(w, ids[0], first);
      var next := DrainChannel(w, ids[0], first).0;
      DrainingAllKeepsLocks(next, ids[1..], rest);
      LocksTwice(w.chans, next.chans, DrainAll(next, ids[1..], rest).0.chans);
    }
  }

  lemma DeletingKeepsLocks(c: Channel)
    ensures DeleteIfUnused(c).locks == c.locks && CheckStatus(c).locks == c.locks
  {
  }

  lemma ClosingKeepsLocks(c: Channel)
    ensures Close(c).locks == c.locks
  {
    hide DeleteIfUnused, CheckStatus;
    DeletingKeepsLocks(c.(closed := true));
    DeletingKeepsLocks(CheckStatus(c.(closed := true)));
  }

  lemma LeavingKeepsLocks(c: Channel, ptr: Ptr)
    ensures UnregisterHolder(c, ptr).locks == c.locks && UnregisterListener(c, ptr).locks == c.locks
  {
    hide DeleteIfUnused, RemoveFirst;
    var unlistened := c.(listeners := RemoveFirst(c.listeners, ptr));
    DeletingKeepsLocks(if ptr == 0 then c else c.(holders := c.holders - multiset{ptr}));
    DeletingKeepsLocks(if ptr == 0 then unlistened else unlistened.(holders := c.holders - multiset{ptr}));
  }

  lemma ReceiverLeavingKeepsLocks(c: Channel, ptr: Ptr)
    ensures UnregisterReceiver(c, ptr).locks == c.locks
  {
    hide UnregisterHolder, CheckStatus;
    DeletingKeepsLocks(c.(recvCallback := 0, closed := true));
    LeavingKeepsLocks(InternalClose(c.(recvCallback := 0)), ptr);
  }

  lemma UnregisteringKeepsLocks(c: Channel, self: Ptr, out: bool)
    ensures Unregister(c, self, out).locks == c.locks
  {
    hide UnregisterListener, Close, UnregisterReceiver, UnregisterHolder;
    var closed := Close(UnregisterListener(c, self));
    LeavingKeepsLocks(c, self);
    ClosingKeepsLocks(UnregisterListener(c, self));
    ReceiverLeavingKeepsLocks(closed, self);
    LeavingKeepsLocks(if out then UnregisterReceiver(closed, self) else closed, self);
  }

  lemma {:induction false} UnregisteringAllKeepsLocks(chans: map<Ptr, Channel>, self: Ptr, infos: seq<ChannelInfo>)
    ensures SameLocks(chans, UnregisterAll(chans, self, infos))
    decreases infos
  {
    hide Unregister;
    if infos != [] {
      if infos[0].ptr in chans {
        var next := chans[infos[0].ptr := Unregister(chans[infos[0].ptr], self, infos[0].out)];
        UnregisteringKeepsLocks(chans[infos[0].ptr], self, infos[0].out);
        UnregisteringAllKeepsLocks(next, self, infos[1..]);
        LocksTwice(chans, next, UnregisterAll(next, self, infos[1..]));
      } else {
        UnregisteringAllKeepsLocks(chans, self, infos[1..]);
      }
    }
  }

  lemma ServiceKeepsLocks(w: World, reactions: seq<seq<Reaction>>, codes: seq<SendCode>)
    requires Known(w)
    ensures SameLocks(w.chans, ProcessPending(w, reactions, codes).0.chans)
  {
    hide DrainAll, DeleteAll, UnregisterAll, SendPhase;
    var begun := w.(s := w.s.(d := w.s.d.(requested := false)));
    if !w.s.d.needDisconnect {
      UnregisteringAllKeepsLocks(begun.chans, begun.s.self, DeleteAll(begun.s, begun.s.pendingDelete).1);
      var deleted := ProcessDeletes(begun);
      var scheduled := deleted.(s := deleted.s.(pendingUnblock := []));
      DrainingAllKeepsLocks(scheduled, deleted.s.pendingUnblock, reactions);
      LocksTwice(w.chans, deleted.chans, DrainAll(scheduled, deleted.s.pendingUnblock, reactions).0.chans);
    }
  }

  lemma MessageKeepsLocks(w: World, id: nat, serial: nat, item: EventData, reaction: Reaction)
    requires Known(w)
    ensures SameLocks(w.chans, ClientData(w, id, serial, item, reaction).chans)
  {
    hide Handle, Release, Lock, NoteIncoming, Take;
    if id in w.s.active && !w.s.active[id].out {
      var received := Receive(w, id, serial, item);
      assert Ready(received.s.d) by { NotingStaysReady(w, id, serial, item); }
      assert received.s.active == w.s.active by { TakingKeepsEntries(w, id, serial, item); }
      HandlingKeepsLocks(received, id, RouterEvent(serial, 0, item), reaction);
      LockAndRelease(w, w.s.active[id].ptr, Handle(received, id, RouterEvent(serial, 0, item), reaction));
    }
  }

  lemma NotingStaysReady(w: World, id: nat, serial: nat, item: EventData)
    requires Ready(w.s.d) && id in w.s.active && w.s.active[id].ptr in w.chans
    ensures Ready(Receive(w, id, serial, item).s.d)
  {
  }

  lemma TakingKeepsEntries(w: World, id: nat, serial: nat, item: EventData)
    requires id in w.s.active && w.s.active[id].ptr in w.chans
    ensures Receive(w, id, serial, item).s.active == w.s.active
  {
  }

  lemma RegisteringKeepsLocks(c: Channel, self: Ptr, out: bool)
    ensures Register(c, self, out).locks == c.locks
  {
    hide NeedDelete;
  }

  /** What others do to the lock. */
  function LockedBy(step: FullStep, ptr: Ptr): int {
    if step.ChannelCalled? && step.ptr == ptr then
      if step.op.OpLock? then 1 else if step.op.OpUnlock? then -1 else 0
    else 0
  }

  lemma OpLocks(c: Channel, op: ChannelOp)
    requires Allowed(c, op)
    ensures Apply(c, op).locks == c.locks + (if op.OpLock? then 1 else if op.OpUnlock? then -1 else 0)
  {
    hide DeleteIfUnused, CheckStatus, RemoveFirst, SendItem, UnregisterHolder, UnregisterListener, UnregisterReceiver,
      Close;
    match op
    case OpSend(ptr, item, reaction) => SendingKeepsLocks(c, ptr, item, reaction);
    case OpClose => ClosingKeepsLocks(c);
    case OpUnregisterHolder(ptr) => LeavingKeepsLocks(c, ptr);
    case OpUnregisterListener(ptr) => LeavingKeepsLocks(c, ptr);
    case OpUnregisterReceiver(ptr) => ReceiverLeavingKeepsLocks(c, ptr);
    case OpUnlock => DeletingKeepsLocks(c.(locks := c.locks - 1));
    case OpBlock => DeletingKeepsLocks(c.(blocked := true));
    case OpUnblock => DeletingKeepsLocks(c.(blocked := false));
    case OpResourceRemoved(pid, rid) =>
      ClosingKeepsLocks(c.(recvPid := 0, recvRid := 0));
      ClosingKeepsLocks(c.(senders := RemoveFirst(c.senders, (pid, rid))));
    case _ =>
  }

  lemma CallLocks(w: World, at: Ptr, op: ChannelOp, ptr: Ptr)
    requires Ready(w.s.d) && at in w.chans && Allowed(w.chans[at], op) && ptr in w.chans
    ensures var next := ForeignNext(w, at, op);
      ptr in next.chans && next.chans[ptr].locks
        == w.chans[ptr].locks + (if at == ptr then if op.OpLock? then 1 else if op.OpUnlock? then -1 else 0 else 0)
  {
    hide Apply, SendItem, ChannelData, FlowCall;
    OpLocks(w.chans[at], op);
    if op.OpSend? { SendingKeepsLocks(w.chans[at], op.ptr, op.item, Quiet); }
  }

  lemma StepLocks(f: Full, step: FullStep, maxWindow: nat, ptr: Ptr)
    requires Known(f.w) && FullEnabled(f, step, maxWindow) && ptr in f.w.chans
    ensures var chans := FullNext(f, step, maxWindow).w.chans;
      ptr in chans && chans[ptr].locks == f.w.chans[ptr].locks + LockedBy(step, ptr)
  {
    hide ProcessPending, ClientData, Register, Announce, Next, ForeignNext, Close;
    match step
    case ChannelCreated(_, _) =>
    case ChannelAdded(at, out) => RegisteringKeepsLocks(f.w.chans[at], f.w.s.self, out);
    case ChannelCalled(at, op) => CallLocks(f.w, at, op, ptr);
    case MessageArrived(id, serial, item, reaction) => MessageKeepsLocks(f.w, id, serial, item, reaction);
    case CloseRequested(id) =>
      if id in f.w.s.active {
        ClosingKeepsLocks(f.w.chans[f.w.s.active[id].ptr]);
        StepKeepsLocks(f.w, f.w.s.active[id].ptr, Close(f.w.chans[f.w.s.active[id].ptr]));
      }
    case Serviced(reactions, codes) => ServiceKeepsLocks(f.w, reactions, codes);
    case Delivered(_) =>
  }

  /** How often others locked the channel more than they unlocked it. */
  ghost function LockedOver(f: Full, steps: seq<FullStep>, maxWindow: nat, ptr: Ptr): int
    requires FullLegal(f, steps, maxWindow)
    decreases steps
  {
    if steps == [] then 0
    else (if ptr in f.w.chans then LockedBy(steps[0], ptr) else 0)
         + LockedOver(FullNext(f, steps[0], maxWindow), steps[1..], maxWindow, ptr)
  }

  function LocksOf(w: World, ptr: Ptr): nat {
    if ptr in w.chans then w.chans[ptr].locks else 0
  }

  lemma NewIsUnlocked(f: Full, step: FullStep, maxWindow: nat, ptr: Ptr)
    requires Known(f.w) && FullEnabled(f, step, maxWindow) && ptr !in f.w.chans
    ensures LocksOf(FullNext(f, step, maxWindow).w, ptr) == 0
  {
    hide ProcessPending, ClientData, Register, Announce, Next, ForeignNext, Close, ChannelStep;
    match step
    case ChannelCreated(_, _) =>
    case ChannelAdded(at, out) =>
    case ChannelCalled(at, op) => CallKeepsChannels(f.w, at, op);
    case MessageArrived(id, serial, item, reaction) => MessageKeepsLocks(f.w, id, serial, item, reaction);
    case CloseRequested(id) =>
    case Serviced(reactions, codes) => ServiceKeepsLocks(f.w, reactions, codes);
    case Delivered(_) =>
  }

  lemma CallKeepsChannels(w: World, at: Ptr, op: ChannelOp)
    requires Ready(w.s.d) && at in w.chans && Allowed(w.chans[at], op)
    ensures ForeignNext(w, at, op).chans.Keys == w.chans.Keys
  {
    hide Apply, SendItem, ChannelData, FlowCall;
  }

  lemma {:induction false} RunLocks(f: Full, steps: seq<FullStep>, maxWindow: nat, ptr: Ptr)
    requires FullLegal(f, steps, maxWindow)
    ensures LocksOf(FullRun(f, steps, maxWindow).w, ptr) == LocksOf(f.w, ptr) + LockedOver(f, steps, maxWindow, ptr)
    decreases steps
  {
    hide FullNext, FullEnabled, Known, LockedBy;
    if steps != [] {
      if ptr in f.w.chans { StepLocks(f, steps[0], maxWindow, ptr); } else { NewIsUnlocked(f, steps[0], maxWindow, ptr); }
      RunLocks(FullNext(f, steps[0], maxWindow), steps[1..], maxWindow, ptr);
    }
  }

  /** In every run a channel is locked exactly as often as others locked it and did not unlock it. */
  lemma LocksAreGivenBack(self: Ptr, modulus: nat, window: nat, maxChannels: nat, maxWindow: nat, steps: seq<FullStep>,
                          ptr: Ptr)
    requires IsRun(self, modulus, window, maxChannels, maxWindow, steps)
    ensures var start := FullStart(self, modulus, window, maxChannels);
      LocksOf(FullRun(start, steps, maxWindow).w, ptr) == LockedOver(start, steps, maxWindow, ptr)
  {
    hide FullLegal, FullRun, LockedOver;
    RunLocks(FullStart(self, modulus, window, maxChannels), steps, maxWindow, ptr);
  }
}
