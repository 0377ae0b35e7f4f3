/** The channel as the object it is in the source (events_Channel.cpp, with the three methods its two
    subclasses share word for word). Every method is proved against the function of the same name in
    `Channels`. A broadcast returns whom it called, in order; the callers deliver those calls. */
module ChannelObjects {
  import opened Basics
  import opened RouterEvents
  import Spec = Channels

  /** Search and erase: `s` without its first occurrence of `x`. */
  method Erase<T(==)>(s: seq<T>, x: T) returns (rest: seq<T>, found: bool)
    ensures rest == RemoveFirst(s, x) && (found <==> x in s)
  {
    var i := 0;
    while i < |s| && s[i] != x
      invariant i <= |s| && x !in s[..i]
      invariant RemoveFirst(s, x) == s[..i] + RemoveFirst(s[i..], x)
    {
      assert s[i..][1..] == s[i + 1..];
      assert s[..i + 1] == s[..i] + [s[i]];
      i := i + 1;
    }
    found := i < |s|;
    rest := if found then s[..i] + s[i + 1..] else s;
    assert s[..|s|] == s;
    if found { assert s[i..][1..] == s[i + 1..]; }
  }

  /** Linear search. */
  method Contains<T(==)>(s: seq<T>, x: T) returns (found: bool)
    ensures found <==> x in s
  {
    var i := 0;
    while i < |s| && s[i] != x
      invariant i <= |s| && x !in s[..i]
    {
      i := i + 1;
    }
    found := i < |s|;
  }

  lemma {:induction false} RemovedFromMultiset<T>(s: seq<T>, x: T)
    ensures multiset(RemoveFirst(s, x)) == multiset(s) - multiset{x}
  {
    if s != [] {
      assert s == [s[0]] + s[1..];
      if s[0] != x { RemovedFromMultiset(s[1..], x); }
    }
  }

  class Channel {
    const kind: Spec.Kind
    var blocked: bool
    var closed: bool
    var lastStatus: Spec.Flow
    var callbackInProgress: bool
    var recvPid: nat
    var recvRid: nat
    var resourceAddPid: nat
    var sendProcesses: seq<(nat, nat)>
    var controlListeners: seq<Ptr>
    var pointerHolders: seq<Ptr>
    var recvCallback: Ptr
    var externalLockedCount: nat
    ghost var destroyed: nat
    ghost var accepted: seq<(Ptr, EventData)>
    ghost var broadcasts: seq<(Spec.Flow, seq<Ptr>)>

    ghost function View(): Spec.Channel
      reads this
    {
      Spec.Channel(
        kind, blocked, closed, lastStatus, callbackInProgress, recvPid, recvRid, resourceAddPid, sendProcesses,
        controlListeners, multiset(pointerHolders), recvCallback, externalLockedCount, destroyed, accepted, broadcasts)
    }

    constructor (kind: Spec.Kind)
      ensures View() == Spec.NewChannel(kind)
    {
      this.kind := kind;
      blocked, closed, lastStatus := true, false, Spec.FlowBlocked;
      callbackInProgress, recvPid, recvRid, resourceAddPid := false, 0, 0, 0;
      sendProcesses, controlListeners, pointerHolders := [], [], [];
      recvCallback, externalLockedCount := 0, 0;
      destroyed, accepted, broadcasts := 0, [], [];
    }

    // ----- Status -----

    /** Whether the status changed is found case by case, as the source does. */
    method CheckStatus() returns (called: seq<Ptr>)
      modifies this
      ensures View() == Spec.CheckStatus(old(View()))
      ensures called == if Spec.StatusOf(old(View())) == old(lastStatus) then [] else old(controlListeners)
    {
      var needCallbacks := false;
      if closed {
        if lastStatus != Spec.FlowClosed {
          lastStatus := Spec.FlowClosed;
          needCallbacks := true;
        }
      } else if blocked {
        if lastStatus != Spec.FlowBlocked {
          lastStatus := Spec.FlowBlocked;
          needCallbacks := true;
        }
      } else {
        if lastStatus != Spec.FlowOpen {
          lastStatus := Spec.FlowOpen;
          needCallbacks := true;
        }
      }
      called := [];
      if needCallbacks {
        called := BroadcastStatus();
      }
    }

    method BroadcastStatus() returns (called: seq<Ptr>)
      modifies this
      ensures View() == old(View()).(inCallback := false, broadcasts := old(broadcasts) + [(lastStatus, controlListeners)])
      ensures called == controlListeners
    {
      callbackInProgress := true;
      var listeners := controlListeners;
      called := [];
      for i := 0 to |listeners|
        invariant called == listeners[..i]
      {
        called := called + [listeners[i]];
      }
      assert called == listeners;
      broadcasts := broadcasts + [(lastStatus, called)];
      callbackInProgress := false;
    }

    method BlockChannel() returns (called: seq<Ptr>)
      modifies this
      ensures View() == Spec.Block(old(View()))
      ensures called == Calls(old(View()), View())
    {
      called := [];
      if !closed {
        blocked := true;
        called := CheckStatus();
      }
    }

    method UnblockChannel() returns (success: bool, called: seq<Ptr>)
      modifies this
      ensures View() == Spec.Unblock(old(View())) && success == !old(closed)
      ensures called == Calls(old(View()), View())
    {
      success, called := false, [];
      if !closed {
        blocked := false;
        success := true;
        called := CheckStatus();
      }
    }

    predicate ChannelIsBlocked()
      reads this
      ensures ChannelIsBlocked() <==> View().blocked
    {
      blocked
    }

    predicate ChannelIsClosed()
      reads this
      ensures ChannelIsClosed() <==> View().closed
    {
      closed
    }

    predicate NeedDeleteInstance()
      reads this
      ensures NeedDeleteInstance() <==> Spec.NeedDelete(View())
    {
      && !callbackInProgress && externalLockedCount == 0
      && recvPid == 0 && recvRid == 0 && sendProcesses == [] && pointerHolders == []
    }

    /** `delete this` is counted. */
    method DeleteInstance()
      modifies this
      ensures View() == Spec.DeleteIfUnused(old(View()))
    {
      if NeedDeleteInstance() {
        destroyed := destroyed + 1;
      }
    }

    method InternalCloseChannel() returns (needsDelete: bool, called: seq<Ptr>)
      modifies this
      ensures View() == Spec.InternalClose(old(View())) && needsDelete == Spec.NeedDelete(View())
      ensures called == Calls(old(View()), View())
    {
      closed := true;
      called := CheckStatus();
      needsDelete := NeedDeleteInstance();
    }

    method CloseChannel() returns (called: seq<Ptr>)
      modifies this
      ensures View() == Spec.Close(old(View()))
      ensures called == Calls(old(View()), View())
    {
      var needsDelete;
      needsDelete, called := InternalCloseChannel();
      if needsDelete {
        DeleteInstance();
      }
    }

    // ----- Processes -----

    method ResourceAdded(pid: nat, rid: nat) returns (success: bool)
      modifies this
      ensures View() == Spec.ResourceAdded(old(View()), pid, rid)
      ensures success <==> pid != old(resourceAddPid) || Spec.CanAddReceiver(old(View()), pid, rid)
    {
      success := false;
      if pid == resourceAddPid {
        if recvCallback == 0 && (recvPid == 0 || (pid == recvPid && rid == recvRid)) {
          recvPid, recvRid, success := pid, rid, true;
        }
      } else {
        success := Contains(sendProcesses, (pid, rid));
        if !success {
          sendProcesses, success := sendProcesses + [(pid, rid)], true;
        }
      }
    }

    method ResourceRemoved(pid: nat, rid: nat) returns (called: seq<Ptr>)
      modifies this
      ensures View() == Spec.ResourceRemoved(old(View()), pid, rid)
      ensures called == Calls(old(View()), View())
    {
      hide RemoveFirst, Spec.NeedDelete, Spec.CheckStatus;
      var needDelete;
      needDelete, called := false, [];
      if recvPid == pid && recvRid == rid {
        recvPid, recvRid := 0, 0;
        needDelete, called := InternalCloseChannel();
      } else {
        var rest, found := Erase(sendProcesses, (pid, rid));
        if found {
          sendProcesses := rest;
          needDelete, called := InternalCloseChannel();
        }
      }
      if needDelete {
        DeleteInstance();
      }
    }

    method NextResourceAddIsReceiver(pid: nat)
      modifies this
      ensures View() == old(View()).(addPid := pid)
    {
      resourceAddPid := pid;
    }

    // ----- Holders, listeners, receivers -----

    method RegisterPointerHolder(ptr: Ptr) returns (success: bool)
      modifies this
      ensures View() == Spec.RegisterHolder(old(View()), ptr) && success == (ptr != 0)
    {
      success := false;
      if ptr != 0 {
        pointerHolders, success := pointerHolders + [ptr], true;
      }
    }

    method UnregisterPointerHolder(ptr: Ptr)
      modifies this
      ensures View() == Spec.UnregisterHolder(old(View()), ptr)
    {
      if ptr != 0 {
        RemovedFromMultiset(pointerHolders, ptr);
        var rest, found := Erase(pointerHolders, ptr);
        pointerHolders := rest;
      }
      if NeedDeleteInstance() {
        DeleteInstance();
      }
    }

    method RegisterControlListener(ptr: Ptr) returns (success: bool)
      modifies this
      ensures View() == Spec.RegisterListener(old(View()), ptr) && success == (ptr != 0)
    {
      success := false;
      if ptr != 0 {
        success := Contains(controlListeners, ptr);
        if !success {
          controlListeners := controlListeners + [ptr];
          success := RegisterPointerHolder(ptr);
        }
      }
    }

    method UnregisterControlListener(ptr: Ptr)
      modifies this
      ensures View() == Spec.UnregisterListener(old(View()), ptr)
    {
      var removed := false;
      if ptr != 0 {
        var rest, found := Erase(controlListeners, ptr);
        if found {
          controlListeners, removed := rest, true;
        }
      }
      if removed {
        UnregisterPointerHolder(ptr);
      }
    }

    method RegisterReceiverCallback(ptr: Ptr) returns (success: bool)
      modifies this
      ensures View() == Spec.RegisterReceiver(old(View()), ptr)
      ensures success <==> Spec.CanRegisterReceiver(old(View()), ptr)
    {
      success := false;
      if ptr != 0 && recvPid == 0 && (recvCallback == 0 || recvCallback == ptr) {
        recvCallback := ptr;
        success := RegisterPointerHolder(ptr);
      }
    }

    method UnregisterReceiverCallback(ptr: Ptr) returns (called: seq<Ptr>)
      modifies this
      ensures View() == Spec.UnregisterReceiver(old(View()), ptr)
      ensures called == Calls(old(View()), View())
    {
      called := [];
      if ptr != 0 && ptr == recvCallback {
        recvCallback := 0;
        var needsDelete;
        needsDelete, called := InternalCloseChannel();
        UnregisterPointerHolder(ptr);
      }
    }

    // ----- Locking and sending -----

    method Lock()
      modifies this
      ensures View() == Spec.Lock(old(View()))
    {
      externalLockedCount := externalLockedCount + 1;
    }

    method Unlock()
      requires View().locks > 0
      modifies this
      ensures View() == Spec.Unlock(old(View()))
    {
      externalLockedCount := externalLockedCount - 1;
      DeleteInstance();
    }

    predicate AboutToSendItem()
      reads this
      ensures AboutToSendItem() <==> Spec.Accepts(View())
    {
      lastStatus == Spec.FlowOpen
    }

    /** A process gets a message, a receiving callback is called and may block or close the channel, and
        without a receiver the item is dropped. */
    method SendItem(sender: Ptr, item: EventData, reaction: Spec.Reaction)
      returns (success: bool, called: seq<Ptr>)
      modifies this
      ensures View() == Spec.SendItem(old(View()), sender, item, reaction)
      ensures success <==> Spec.Accepts(old(View()))
      ensures called == Calls(old(View()), View())
    {
      hide Spec.Block, Spec.Close;
      success, called := false, [];
      callbackInProgress := true;
      if AboutToSendItem() {
        accepted := accepted + [(sender, item)];
        if recvPid == 0 && recvCallback != 0 {
          match reaction {
            case Quiet =>
            case Blocks => called := BlockChannel();
            case Closes => called := CloseChannel();
          }
        }
        success := true;
      }
      callbackInProgress := false;
    }
  }

  /** Whom a call on a channel called back: the listeners at the time of the broadcast, if there was one. */
  ghost function Calls(before: Spec.Channel, after: Spec.Channel): seq<Ptr> {
    if |before.broadcasts| < |after.broadcasts| then after.broadcasts[|before.broadcasts|].1 else []
  }
}
