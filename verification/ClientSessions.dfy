/** The client session as the object it is in the source (comm_ClientSession.cpp): the two event queues,
    the vectors of channels and of held-back messages, and the flags, updated in place. Every method is
    proved against the function of the same purpose in `Delivery` or `Sessions`. */
module ClientSessions {
  import opened Basics
  import opened RouterEvents
  import opened Serials
  import opened Delivery
  import opened Channels
  import opened ChannelIds
  import opened Sessions
  import opened SessionTables
  import opened SessionSides
  import Objects = ChannelObjects

  class ClientSession {
    const self: Ptr
    const modulus: nat
    const maxChannels: nat

    var outgoingEvents: seq<RouterEvent>
    var sentEvents: seq<RouterEvent>
    var outgoingSerAck: nat
    var incomingSerAck: nat
    var needsIncomingSerAckSent: bool
    var hasRequestedService: bool
    var needHandleReconnect: bool
    var needDisconnect: bool
    var waitReconnectResponse: bool
    var clientIsBlocked: bool
    var clientIsConnected: bool
    var lastUsedChannelId: nat
    var lastUsedMessageSerId: nat
    var clientWindowSize: nat
    var activeChannels: seq<ActiveChannel>
    var blockedChannelQueues: seq<HeldQueue>
    var pendingChannelsDelete: seq<nat>
    var pendingChannelsUnblock: seq<nat>
    ghost var log: seq<RouterEvent>
    ghost var taken: map<Ptr, seq<EventData>>

    /** The delivery half; it does not read the tables. */
    ghost function Half(): State
      reads `log, `outgoingEvents, `sentEvents, `lastUsedMessageSerId, `outgoingSerAck, `incomingSerAck,
        `needsIncomingSerAckSent, `hasRequestedService, `needHandleReconnect, `needDisconnect, `waitReconnectResponse,
        `clientIsBlocked, `clientIsConnected, `clientWindowSize
    {
      State(
        modulus, log, outgoingEvents, sentEvents, lastUsedMessageSerId, outgoingSerAck, incomingSerAck,
        needsIncomingSerAckSent, hasRequestedService, needHandleReconnect, needDisconnect, waitReconnectResponse,
        clientIsBlocked, clientIsConnected, clientWindowSize)
    }

    ghost function View(): Session
      reads this
    {
      Session(
        self, Half(), ActiveMap(activeChannels), QueueMap(blockedChannelQueues), pendingChannelsDelete,
        pendingChannelsUnblock, lastUsedChannelId, maxChannels, taken)
    }

    ghost predicate ValidHalf()
      reads `log, `outgoingEvents, `sentEvents, `lastUsedMessageSerId, `outgoingSerAck, `incomingSerAck,
        `needsIncomingSerAckSent, `hasRequestedService, `needHandleReconnect, `needDisconnect, `waitReconnectResponse,
        `clientIsBlocked, `clientIsConnected, `clientWindowSize
    {
      Ready(Half()) && AllSendable(outgoingEvents) && AllSendable(sentEvents)
    }

    ghost predicate Valid()
      reads this
    {
      && ValidHalf()
      && Distinct(activeChannels) && DistinctQueues(blockedChannelQueues) && AllMessages(blockedChannelQueues)
      && (forall i :: 0 <= i < |activeChannels| ==> activeChannels[i].id != 0)
      && DistinctPtrs(activeChannels)
    }

    constructor (self: Ptr, modulus: nat, window: nat, maxChannels: nat)
      requires 2 <= modulus
      ensures Valid()
      ensures View() == Session(self, Initial(modulus, window), map[], map[], [], [], 0, maxChannels, map[])
    {
      this.self, this.modulus, this.maxChannels := self, modulus, maxChannels;
      outgoingEvents, sentEvents, outgoingSerAck, incomingSerAck := [], [], 0, 0;
      needsIncomingSerAckSent, hasRequestedService, needHandleReconnect, needDisconnect := false, false, false, false;
      waitReconnectResponse, clientIsBlocked, clientIsConnected := false, false, true;
      lastUsedChannelId, lastUsedMessageSerId, clientWindowSize := 0, 0, window;
      activeChannels, blockedChannelQueues, pendingChannelsDelete, pendingChannelsUnblock := [], [], [], [];
      log, taken := [], map[];
      new;
      assert ActiveMap([]) == map[] && QueueMap([]) == map[];
    }

    // ----- Delivery -----

    method GetNextMessageId() returns (serial: nat)
      requires ValidHalf()
      modifies this`lastUsedMessageSerId
      ensures ValidHalf() && serial == lastUsedMessageSerId == NextSerial(modulus, old(lastUsedMessageSerId))
    {
      lastUsedMessageSerId := (lastUsedMessageSerId + 1) % modulus;
      if lastUsedMessageSerId == 0 {
        lastUsedMessageSerId := lastUsedMessageSerId + 1;
      }
      serial := lastUsedMessageSerId;
    }

    /** Tells the router once; whether it did is returned. */
    method RequestService() returns (told: bool)
      requires ValidHalf()
      modifies this`hasRequestedService
      ensures ValidHalf() && Half() == (Request(old(Half()))) && told == !old(hasRequestedService)
    {
      told := !hasRequestedService;
      hasRequestedService := true;
    }

    method RequestServiceUnlessBlocked()
      requires ValidHalf()
      modifies this`hasRequestedService
      ensures ValidHalf() && Half() == (RequestUnlessBlocked(old(Half())))
    {
      if !clientIsBlocked {
        var _ := RequestService();
      }
    }

    /** The event is built first and moved into the queue, so that its contents are not copied. */
    method QueueEvent(channelId: nat, data: EventData)
      requires ValidHalf() && !data.Nothing?
      modifies this`outgoingEvents, this`lastUsedMessageSerId, this`log
      ensures ValidHalf() && Half() == (Enqueue(old(Half()), channelId, data))
    {
      var serial := GetNextMessageId();
      var event := RouterEvent(serial, channelId, data);
      outgoingEvents := outgoingEvents + [INVALID_EVENT];
      var moved := Transfer(outgoingEvents[|outgoingEvents| - 1], event);
      outgoingEvents := outgoingEvents[|outgoingEvents| - 1 := moved.0];
      log := log + [moved.0];
      assert outgoingEvents == old(outgoingEvents) + [event];
    }

    /** The search for an acknowledged event. */
    method FindSent(serial: nat) returns (i: nat)
      ensures i == FindSerial(sentEvents, serial)
    {
      i := 0;
      while i < |sentEvents| && sentEvents[i].serial != serial
        invariant i <= |sentEvents|
        invariant FindSerial(sentEvents, serial) == i + FindSerial(sentEvents[i..], serial)
      {
        assert sentEvents[i..][1..] == sentEvents[i + 1..];
        i := i + 1;
      }
    }

    method ClientDataAcknowledge(serial: nat)
      requires ValidHalf()
      modifies this`outgoingSerAck, this`sentEvents, this`needDisconnect, this`hasRequestedService
      ensures ValidHalf() && Half() == Acknowledge(old(Half()), serial)
    {
      hide FindSerial;
      if serial == 0 {
        needDisconnect := true;
        var _ := RequestService();
      } else {
        var i := FindSent(serial);
        if i == |sentEvents| {
          needDisconnect := true;
          var _ := RequestService();
        } else {
          outgoingSerAck := serial;
          sentEvents := sentEvents[i + 1..];
          if outgoingEvents != [] {
            var _ := RequestService();
          }
        }
      }
    }

    /** What was sent but not acknowledged is moved back, newest first, to the front of the queue. */
    method MoveBack()
      requires ValidHalf()
      modifies this`outgoingEvents, this`sentEvents
      ensures ValidHalf() && outgoingEvents == old(sentEvents + outgoingEvents) && sentEvents == []
    {
      while sentEvents != []
        invariant ValidHalf() && sentEvents + outgoingEvents == old(sentEvents + outgoingEvents)
        decreases |sentEvents|
      {
        ghost var queued := outgoingEvents;
        var back := |sentEvents| - 1;
        outgoingEvents := [INVALID_EVENT] + outgoingEvents;
        var moved := Transfer(outgoingEvents[0], sentEvents[back]);
        outgoingEvents := outgoingEvents[0 := moved.0];
        sentEvents := sentEvents[back := moved.1][..back];
        assert outgoingEvents == [moved.0] + queued;
      }
    }

    /** How the client's answer to a reconnect is judged. */
    method TakeAnswer(serial: nat)
      requires ValidHalf()
      modifies this`outgoingSerAck, this`sentEvents, this`needDisconnect, this`hasRequestedService, this`waitReconnectResponse
      ensures ValidHalf() && Half() == Answer(old(Half()), serial)
    {
      hide Acknowledge, AllSendable;
      if !waitReconnectResponse {
        needDisconnect := true;
      } else {
        waitReconnectResponse := false;
        if serial == 0 {
          outgoingSerAck := 0;
        } else if serial != outgoingSerAck {
          ClientDataAcknowledge(serial);
        }
      }
    }

    method ClientDataAcknowledgeReconnect(serial: nat)
      requires ValidHalf()
      modifies this`outgoingSerAck, this`sentEvents, this`outgoingEvents, this`needDisconnect, this`hasRequestedService,
        this`waitReconnectResponse
      ensures ValidHalf() && Half() == (AcknowledgeReconnect(old(Half()), serial))
    {
      hide Answer, AllSendable;
      TakeAnswer(serial);
      if !needDisconnect {
        MoveBack();
      }
      var _ := RequestService();
    }

    method SetClientConnection(window: nat)
      requires ValidHalf()
      modifies this`clientWindowSize, this`clientIsBlocked, this`clientIsConnected, this`needDisconnect, this`needHandleReconnect,
        this`waitReconnectResponse, this`needsIncomingSerAckSent, this`hasRequestedService
      ensures ValidHalf() && Half() == (SetConnection(old(Half()), window))
    {
      clientWindowSize := window;
      clientIsBlocked, clientIsConnected, needDisconnect := false, true, false;
      needHandleReconnect, waitReconnectResponse, needsIncomingSerAckSent := true, true, false;
      var _ := RequestService();
    }

    method ClientDisconnected()
      requires ValidHalf()
      modifies this`clientIsConnected
      ensures ValidHalf() && Half() == (Disconnected(old(Half())))
    {
      clientIsConnected := false;
    }

    method ClientUnblocked()
      requires ValidHalf()
      modifies this`clientIsBlocked, this`hasRequestedService
      ensures ValidHalf() && Half() == (Unblocked(old(Half())))
    {
      clientIsBlocked := false;
      if outgoingEvents != [] {
        var _ := RequestService();
      }
    }

    method RequestDisconnection()
      requires ValidHalf()
      modifies this`needDisconnect, this`hasRequestedService
      ensures ValidHalf() && Half() == (MarkDisconnect(old(Half())))
    {
      needDisconnect := true;
      var _ := RequestService();
    }

    method ProcessSendReturnCode(code: SendCode) returns (sent: bool)
      requires ValidHalf()
      modifies this`clientIsBlocked, this`clientIsConnected, this`needDisconnect, this`hasRequestedService
      ensures ValidHalf() && Half() == (AfterSend(old(Half()), code)) && sent == Accepted(code)
    {
      sent := false;
      match code {
        case SendOk =>
          sent := true;
        case SendOkBlocked =>
          sent, clientIsBlocked := true, true;
        case SendBlocked =>
          clientIsBlocked := true;
        case SendDisconnected =>
          clientIsBlocked, clientIsConnected := true, false;
        case SendNotSupported =>
          clientIsBlocked, needDisconnect := true, true;
          var _ := RequestService();
      }
    }

    /** One turn of the send loop: what the connection accepted waits for its acknowledgement. */
    method SendFront(code: SendCode) returns (wire: seq<Wire>)
      requires ValidHalf() && outgoingEvents != []
      modifies this`outgoingEvents, this`sentEvents, this`clientIsBlocked, this`clientIsConnected, this`needDisconnect,
        this`hasRequestedService
      ensures ValidHalf() && (Half(), wire) == SendOne(old(Half()), code)
      ensures sentEvents + outgoingEvents == old(sentEvents + outgoingEvents)
    {
      hide AfterSend, Sendable;
      var event := outgoingEvents[0];
      var sent := SendEvent(event, code);
      wire := [];
      if sent {
        wire := [WireData(event)];
        sentEvents := sentEvents + [INVALID_EVENT];
        var moved := Transfer(sentEvents[|sentEvents| - 1], event);
        sentEvents := sentEvents[|sentEvents| - 1 := moved.0];
        outgoingEvents := outgoingEvents[0 := moved.1][1..];
        assert sentEvents == old(sentEvents) + [event];
        assert old(outgoingEvents) == [event] + outgoingEvents;
      }
    }

    /** The send loop, from the k-th call on the connection on. Its answers are an input. */
    method SendEvents(codes: seq<SendCode>, k: nat) returns (wire: seq<Wire>)
      requires ValidHalf()
      modifies this`outgoingEvents, this`sentEvents, this`clientIsBlocked, this`clientIsConnected, this`needDisconnect,
        this`hasRequestedService
      ensures ValidHalf() && (Half(), wire) == SendLoop(old(Half()), codes, k)
    {
      hide SendOne, ValidHalf;
      wire := [];
      var n := k;
      while !clientIsBlocked && outgoingEvents != [] && |sentEvents| < clientWindowSize
        invariant ValidHalf()
        invariant SendLoop(old(Half()), codes, k).0 == SendLoop(Half(), codes, n).0
        invariant SendLoop(old(Half()), codes, k).1 == wire + SendLoop(Half(), codes, n).1
        decreases |outgoingEvents|, !clientIsBlocked
      {
        ghost var before := Half();
        assert KeepsSending(before);
        SendOneShrinks(before, CodeAt(codes, n));
        var front := SendFront(CodeAt(codes, n));
        assert SendLoop(before, codes, n).1 == front + SendLoop(Half(), codes, n + 1).1;
        wire := wire + front;
        n := n + 1;
      }
      assert SendLoop(Half(), codes, n) == (Half(), []);
      assert wire + [] == wire;
    }

    /** Each of the three kinds has its own call on the connection; there is no fourth kind. */
    method SendEvent(event: RouterEvent, code: SendCode) returns (sent: bool)
      requires ValidHalf() && Sendable(event)
      modifies this`clientIsBlocked, this`clientIsConnected, this`needDisconnect, this`hasRequestedService
      ensures ValidHalf() && Half() == (AfterSend(old(Half()), code)) && sent == Accepted(code)
    {
      match event.data {
        case Status(_) => sent := ProcessSendReturnCode(code);
        case Text(_) => sent := ProcessSendReturnCode(code);
        case Enhanced(_) => sent := ProcessSendReturnCode(code);
        case Nothing => assert false;
      }
    }

    /** The last part of `process_pending`. */
    method SendPending(codes: seq<SendCode>) returns (wire: seq<Wire>)
      requires ValidHalf()
      modifies this`outgoingEvents, this`sentEvents, this`clientIsBlocked, this`clientIsConnected, this`needDisconnect,
        this`hasRequestedService, this`needsIncomingSerAckSent, this`needHandleReconnect, this`waitReconnectResponse
      ensures ValidHalf() && Half() == (SendPhase(old(Half()), codes).0)
      ensures wire == SendPhase(old(Half()), codes).1
    {
      wire := [];
      if needHandleReconnect {
        if Accepted(CodeAt(codes, 0)) {
          wire := [WireReconnect(incomingSerAck)];
        }
        needsIncomingSerAckSent, needHandleReconnect, waitReconnectResponse := false, false, true;
      } else if !waitReconnectResponse && !clientIsBlocked {
        var k := 0;
        if needsIncomingSerAckSent {
          needsIncomingSerAckSent := false;
          var sent := ProcessSendReturnCode(CodeAt(codes, 0));
          if sent {
            wire := [WireAck(incomingSerAck)];
          }
          k := 1;
        }
        var more := SendEvents(codes, k);
        wire := wire + more;
      }
    }

    // ----- Channels -----

    method FindByPtr(ptr: Ptr) returns (i: nat)
      ensures i == IndexOfPtr(activeChannels, ptr)
    {
      i := 0;
      while i < |activeChannels| && activeChannels[i].info.ptr != ptr
        invariant i <= |activeChannels|
        invariant IndexOfPtr(activeChannels, ptr) == i + IndexOfPtr(activeChannels[i..], ptr)
      {
        assert activeChannels[i..][1..] == activeChannels[i + 1..];
        i := i + 1;
      }
    }

    method FindById(id: nat) returns (i: nat)
      ensures i == IndexOf(activeChannels, id)
    {
      i := 0;
      while i < |activeChannels| && activeChannels[i].id != id
        invariant i <= |activeChannels|
        invariant IndexOf(activeChannels, id) == i + IndexOf(activeChannels[i..], id)
      {
        assert activeChannels[i..][1..] == activeChannels[i + 1..];
        i := i + 1;
      }
    }

    method AddPendingUnblockedChannel(id: nat) returns (added: bool)
      modifies this`pendingChannelsUnblock
      ensures added == (id != 0 && id !in old(pendingChannelsUnblock))
      ensures pendingChannelsUnblock == old(pendingChannelsUnblock) + (if added then [id] else [])
    {
      added := false;
      if id != 0 {
        var found := Objects.Contains(pendingChannelsUnblock, id);
        if !found {
          pendingChannelsUnblock, added := pendingChannelsUnblock + [id], true;
        }
      }
    }

    method RemovePendingUnblockedChannel(id: nat) returns (removed: bool)
      modifies this`pendingChannelsUnblock
      ensures removed == (id != 0 && id in old(pendingChannelsUnblock))
      ensures pendingChannelsUnblock
        == if id == 0 then old(pendingChannelsUnblock) else RemoveFirst(old(pendingChannelsUnblock), id)
    {
      removed := false;
      if id != 0 {
        pendingChannelsUnblock, removed := Objects.Erase(pendingChannelsUnblock, id);
      }
    }

    /** The wrapping scan for the next channel id; 0 when the guard finds no id left. With exactly
        maxChannels - 1 channels it would not end (`ChannelIds.ScanEndsUnlessFull`). */
    method GetNextChannelId() returns (id: nat)
      requires Distinct(activeChannels) && lastUsedChannelId < maxChannels && |activeChannels| + 1 != maxChannels
      modifies this`lastUsedChannelId
      ensures maxChannels <= |activeChannels| ==> id == 0 && lastUsedChannelId == old(lastUsedChannelId)
      ensures |activeChannels| < maxChannels ==>
        && lastUsedChannelId == id && IsFree(id, ActiveMap(activeChannels).Keys, maxChannels)
        && id == FirstFree(old(lastUsedChannelId), ActiveMap(activeChannels).Keys, maxChannels)
    {
      hide ActiveMap, Distinct, FirstFree, Turns, SomeFree;
      id := 0;
      if |activeChannels| >= maxChannels {
        return;
      }
      ghost var used := ActiveMap(activeChannels).Keys;
      ghost var first := lastUsedChannelId;
      MapSize(activeChannels);
      assert |used| == |ActiveMap(activeChannels)|;
      FreeIdExists(used, maxChannels);
      while id == 0
        invariant lastUsedChannelId < maxChannels
        invariant FirstFree(first, used, maxChannels)
          == (if id == 0 then FirstFree(lastUsedChannelId, used, maxChannels) else id)
        invariant id != 0 ==> id == lastUsedChannelId
        decreases id == 0, Turns(lastUsedChannelId, SomeFree(used, maxChannels), maxChannels)
      {
        FirstFreeTurn(lastUsedChannelId, used, maxChannels);
        lastUsedChannelId := lastUsedChannelId + 1;
        if lastUsedChannelId >= maxChannels {
          lastUsedChannelId := 1;
        }
        var i := FindById(lastUsedChannelId);
        NotFound(activeChannels, lastUsedChannelId);
        if i == |activeChannels| {
          id := lastUsedChannelId;
        }
      }
    }

    /** Puts a channel status on the queue for the client. */
    method TellClient(i: nat, status: ChannelStatus)
      requires Valid() && i < |activeChannels|
      modifies this`outgoingEvents, this`lastUsedMessageSerId, this`log
      ensures Valid() && activeChannels[i].id in View().active
      ensures View() == Tell(old(View()), activeChannels[i].id, status)
    {
      IndexIs(activeChannels, i);
      NotFound(activeChannels, activeChannels[i].id);
      QueueEvent(0, Status(StatusChange(status, activeChannels[i].info.out, activeChannels[i].id)));
    }

    /** Updates what is known of a channel. */
    method WriteInfo(i: nat, info: ChannelInfo)
      requires Valid() && i < |activeChannels| && info.ptr == activeChannels[i].info.ptr
      modifies this`activeChannels
      ensures Valid() && |activeChannels| == |old(activeChannels)|
      ensures activeChannels[i] == ActiveChannel(old(activeChannels)[i].id, info)
      ensures ActiveMap(activeChannels) == ActiveMap(old(activeChannels))[activeChannels[i].id := info]
    {
      hide ActiveMap;
      WriteIsUpdate(activeChannels, i, info);
      activeChannels := activeChannels[i := ActiveChannel(activeChannels[i].id, info)];
    }

    /** A closed channel waits to be let go. */
    method MarkClosed(i: nat)
      requires Valid() && i < |activeChannels|
      modifies this`activeChannels, this`pendingChannelsDelete
      ensures Valid()
      ensures var id := old(activeChannels)[i].id;
        && id in old(View()).active
        && View() == old(View()).(
          pendingDelete := old(pendingChannelsDelete) + [id],
          active := old(View()).active[id := old(View()).active[id].(closed := true)])
    {
      hide ActiveMap, QueueMap, Half, ValidHalf;
      IndexIs(activeChannels, i);
      NotFound(activeChannels, activeChannels[i].id);
      pendingChannelsDelete := pendingChannelsDelete + [activeChannels[i].id];
      WriteInfo(i, activeChannels[i].info.(closed := true));
    }

    method TellClientAndRequest(i: nat, status: ChannelStatus)
      requires Valid() && i < |activeChannels|
      modifies this`outgoingEvents, this`lastUsedMessageSerId, this`log, this`hasRequestedService
      ensures Valid() && activeChannels[i].id in View().active
      ensures View() == TellAndRequest(old(View()), activeChannels[i].id, status)
    {
      TellClient(i, status);
      RequestServiceUnlessBlocked();
    }

    method ChannelFlowBlocked(ptr: Ptr)
      requires Valid()
      modifies this`activeChannels, this`pendingChannelsUnblock, this`outgoingEvents, this`lastUsedMessageSerId,
        this`log, this`hasRequestedService
      ensures Valid() && View() == FlowBlockedCall(old(View()), ptr)
    {
      hide ActiveMap, QueueMap, Enqueue, IdOf, Half, ValidHalf;
      FoundIsIdOf(View(), activeChannels, ptr);
      var i := FindByPtr(ptr);
      if i < |activeChannels| && !activeChannels[i].info.out {
        var _ := RemovePendingUnblockedChannel(activeChannels[i].id);
        if !activeChannels[i].info.blocked {
          WriteInfo(i, activeChannels[i].info.(blocked := true));
          TellClientAndRequest(i, StatusBlock);
        }
      }
    }

    method ChannelFlowOpen(ptr: Ptr)
      requires Valid()
      modifies this`pendingChannelsUnblock, this`hasRequestedService
      ensures Valid() && View() == FlowOpenCall(old(View()), ptr)
    {
      hide ActiveMap, QueueMap, IdOf, Half, ValidHalf;
      FoundIsIdOf(View(), activeChannels, ptr);
      var i := FindByPtr(ptr);
      if i < |activeChannels| && !activeChannels[i].info.out {
        var _ := AddPendingUnblockedChannel(activeChannels[i].id);
        RequestServiceUnlessBlocked();
      }
    }

    method ChannelFlowClosed(ptr: Ptr)
      requires Valid()
      modifies this`activeChannels, this`pendingChannelsDelete, this`outgoingEvents, this`lastUsedMessageSerId,
        this`log, this`hasRequestedService
      ensures Valid() && View() == FlowClosedCall(old(View()), ptr)
    {
      hide ActiveMap, QueueMap, Enqueue, IdOf, Half, ValidHalf;
      FoundIsIdOf(View(), activeChannels, ptr);
      var i := FindByPtr(ptr);
      if i < |activeChannels| {
        TellClient(i, StatusClose);
        MarkClosed(i);
        RequestServiceUnlessBlocked();
      }
    }

    method ChannelFlow(ptr: Ptr, status: Flow)
      requires Valid()
      modifies this`activeChannels, this`pendingChannelsDelete, this`pendingChannelsUnblock, this`outgoingEvents,
        this`lastUsedMessageSerId, this`log, this`hasRequestedService
      ensures Valid() && View() == FlowCall(old(View()), ptr, status)
    {
      hide FlowBlockedCall, FlowOpenCall, FlowClosedCall;
      match status {
        case FlowBlocked => ChannelFlowBlocked(ptr);
        case FlowOpen => ChannelFlowOpen(ptr);
        case FlowClosed => ChannelFlowClosed(ptr);
      }
    }

    /** `text_channel_data` and `client_channel_data`. */
    method ReceiveChannelData(ptr: Ptr, item: EventData)
      requires Valid() && !item.Nothing?
      modifies this`outgoingEvents, this`lastUsedMessageSerId, this`log, this`hasRequestedService
      ensures Valid() && View() == ChannelData(old(View()), ptr, item)
    {
      hide ActiveMap, QueueMap, Enqueue, IdOf, Half, ValidHalf;
      FoundIsIdOf(View(), activeChannels, ptr);
      var i := FindByPtr(ptr);
      if i < |activeChannels| {
        QueueEvent(activeChannels[i].id, item);
        RequestServiceUnlessBlocked();
      }
    }

    // ----- Held-back messages -----

    /** `get_blocked_queue`: where the queue of a channel is; a new one is made when there is none. */
    method FindBlockedQueue(id: nat) returns (i: nat)
      requires DistinctQueues(blockedChannelQueues) && AllMessages(blockedChannelQueues)
      modifies this`blockedChannelQueues
      ensures DistinctQueues(blockedChannelQueues) && AllMessages(blockedChannelQueues)
      ensures i < |blockedChannelQueues| && blockedChannelQueues[i].0 == id
      ensures QueueMap(blockedChannelQueues) == QueueMap(old(blockedChannelQueues))
      ensures blockedChannelQueues[i].1 == HeldOf(old(blockedChannelQueues), id)
    {
      i := 0;
      while i < |blockedChannelQueues| && blockedChannelQueues[i].0 != id
        invariant i <= |blockedChannelQueues| && forall k :: 0 <= k < i ==> blockedChannelQueues[k].0 != id
      {
        i := i + 1;
      }
      if i == |blockedChannelQueues| {
        GrowHeld(blockedChannelQueues, id);
        blockedChannelQueues := blockedChannelQueues + [(id, [])];
      } else {
        QueueIndexIsUnique(blockedChannelQueues, i);
      }
    }

    method HoldMessage(id: nat, event: RouterEvent) returns (held: nat)
      requires IsMessage(event.data)
      requires DistinctQueues(blockedChannelQueues) && AllMessages(blockedChannelQueues)
      modifies this`blockedChannelQueues
      ensures DistinctQueues(blockedChannelQueues) && AllMessages(blockedChannelQueues)
      ensures var queue := HeldOf(old(blockedChannelQueues), id) + [event];
        QueueMap(blockedChannelQueues) == QueueMap(old(blockedChannelQueues))[id := queue] && held == |queue|
    {
      hide QueueMap;
      var i := FindBlockedQueue(id);
      var queue := blockedChannelQueues[i].1 + [INVALID_EVENT];
      var moved := Transfer(queue[|queue| - 1], event);
      queue := queue[|queue| - 1 := moved.0];
      assert queue == HeldOf(old(blockedChannelQueues), id) + [event];
      WriteHeld(blockedChannelQueues, i, queue);
      blockedChannelQueues := blockedChannelQueues[i := (id, queue)];
      held := |queue|;
    }

    /** Clears a queue, then drops the empty queues at the end of the vector, searching backwards. */
    method RemoveBlockedQueue(id: nat)
      requires DistinctQueues(blockedChannelQueues) && AllMessages(blockedChannelQueues)
      modifies this`blockedChannelQueues
      ensures DistinctQueues(blockedChannelQueues) && AllMessages(blockedChannelQueues)
      ensures QueueMap(blockedChannelQueues) == QueueMap(old(blockedChannelQueues)) - {id}
    {
      hide QueueMap;
      var i := 0;
      while i < |blockedChannelQueues| && blockedChannelQueues[i].0 != id
        invariant i <= |blockedChannelQueues| && forall k :: 0 <= k < i ==> blockedChannelQueues[k].0 != id
      {
        i := i + 1;
      }
      if i < |blockedChannelQueues| {
        WriteHeld(blockedChannelQueues, i, []);
        blockedChannelQueues := blockedChannelQueues[i := (id, [])];
        var index := |blockedChannelQueues| - 1;
        while blockedChannelQueues[index].1 == [] && index != 0
          invariant 0 <= index < |blockedChannelQueues|
          invariant forall k :: index < k < |blockedChannelQueues| ==> blockedChannelQueues[k].1 == []
        {
          index := index - 1;
        }
        if blockedChannelQueues[index].1 != [] {
          index := index + 1;
        }
        TrimHeld(blockedChannelQueues, index);
        blockedChannelQueues := blockedChannelQueues[..index];
      } else {
        HeldIsMapped(blockedChannelQueues, id);
      }
    }

    /** Held-back messages of a whole window mean that the client ignores the channel's status. */
    method HoldBack(id: nat, event: RouterEvent)
      requires Valid() && IsMessage(event.data)
      modifies this`blockedChannelQueues, this`needDisconnect, this`hasRequestedService
      ensures Valid() && View() == QueueMessage(old(View()), id, event)
    {
      hide ActiveMap, QueueMap, HeldOf;
      HeldIsMapped(blockedChannelQueues, id);
      var held := HoldMessage(id, event);
      if held + 1 > clientWindowSize {
        if event.data.Text? {
          RequestDisconnection();
        } else {
          needDisconnect := true;
        }
      }
    }

    /** The last entry takes the place of the removed one. */
    method RemoveEntry(i: nat)
      requires Valid() && i < |activeChannels|
      modifies this`activeChannels
      ensures Valid() && ActiveMap(activeChannels) == ActiveMap(old(activeChannels)) - {old(activeChannels)[i].id}
      ensures Forgets(old(activeChannels), activeChannels) && Absent(activeChannels, old(activeChannels)[i].info.ptr)
    {
      hide ActiveMap, QueueMap, ValidHalf;
      SwapRemoves(activeChannels, i);
      var last := |activeChannels| - 1;
      if activeChannels[last].info.ptr == activeChannels[i].info.ptr {
        assert i == last;
        activeChannels := activeChannels[..last];
      } else {
        activeChannels := activeChannels[i := activeChannels[last]][..last];
      }
      assert activeChannels == SwapRemove(old(activeChannels), i);
    }

    /** `delete_channel` */
    method DeleteActiveChannel(id: nat) returns (removed: seq<ChannelInfo>)
      requires Valid()
      modifies this`activeChannels, this`blockedChannelQueues, this`pendingChannelsUnblock
      ensures Valid() && View() == DeleteChannel(old(View()), id)
      ensures removed == if id in old(View()).active then [old(View()).active[id]] else []
      ensures Forgets(old(activeChannels), activeChannels)
      ensures removed != [] ==> Absent(activeChannels, removed[0].ptr)
    {
      hide ActiveMap, QueueMap, Half, ValidHalf, Distinct;
      removed := [];
      NotFound(activeChannels, id);
      if id != 0 {
        var _ := RemovePendingUnblockedChannel(id);
        var i := FindById(id);
        if i < |activeChannels| {
          RemoveBlockedQueue(id);
          removed := [activeChannels[i].info];
          RemoveEntry(i);
        } else {
          assert ActiveMap(activeChannels) - {id} == ActiveMap(activeChannels);
        }
      } else {
        assert id !in ActiveMap(activeChannels);
      }
    }

    // ----- Calls on channels -----

    ghost function WorldOf(memory: Memory): World
      reads this, memory.Values
    {
      World(View(), Views(memory))
    }

    /** A channel's broadcast reaches the session when it is one of the listeners called. */
    method DeliverCalls(ptr: Ptr, status: Flow, called: seq<Ptr>)
      requires Valid()
      modifies this`activeChannels, this`pendingChannelsDelete, this`pendingChannelsUnblock, this`outgoingEvents,
        this`lastUsedMessageSerId, this`log, this`hasRequestedService
      ensures Valid() && View() == if self in called then FlowCall(old(View()), ptr, status) else old(View())
    {
      if self in called {
        ChannelFlow(ptr, status);
      }
    }

    method CloseChannel(ptr: Ptr, channel: Objects.Channel)
      requires Valid()
      modifies this`activeChannels, this`pendingChannelsDelete, this`pendingChannelsUnblock, this`outgoingEvents,
        this`lastUsedMessageSerId, this`log, this`hasRequestedService, channel
      ensures Valid() && channel.View() == Close(old(channel.View()))
      ensures View() == Called(old(View()), ptr, old(channel.View()), channel.View())
    {
      hide ActiveMap, QueueMap, Half, FlowCall, Close;
      var called := channel.CloseChannel();
      DeliverCalls(ptr, channel.lastStatus, called);
    }

    method ClientRequestChannelClose(memory: Memory, id: nat)
      requires Valid() && Known(WorldOf(memory)) && Separate(memory)
      modifies this`activeChannels, this`pendingChannelsDelete, this`pendingChannelsUnblock, this`outgoingEvents,
        this`lastUsedMessageSerId, this`log, this`hasRequestedService, memory.Values
      ensures Valid() && WorldOf(memory) == RequestClose(old(WorldOf(memory)), id)
    {
      hide ActiveMap, QueueMap, Half, ValidHalf, FlowCall, Close, Distinct, Objects.Channel.View;
      NotFound(activeChannels, id);
      var i := FindById(id);
      if i < |activeChannels| {
        var ptr := activeChannels[i].info.ptr;
        ghost var before := Views(memory);
        CloseChannel(ptr, memory[ptr]);
        OneViewChanged(memory, ptr, before);
      }
    }

    // ----- Messages from the client -----

    method SendToChannel(i: nat, channel: Objects.Channel, event: RouterEvent, reaction: Reaction) returns (sent: bool)
      requires Valid() && i < |activeChannels|
      modifies this`activeChannels, this`pendingChannelsDelete, this`pendingChannelsUnblock, this`outgoingEvents,
        this`lastUsedMessageSerId, this`log, this`hasRequestedService, channel
      ensures Valid() && sent == Accepts(old(channel.View()))
      ensures channel.View() == SendItem(old(channel.View()), self, event.data, reaction)
      ensures View() == Called(old(View()), old(activeChannels)[i].info.ptr, old(channel.View()), channel.View())
    {
      hide ActiveMap, QueueMap, Half, FlowCall, SendItem;
      var ptr, called := activeChannels[i].info.ptr, [];
      sent, called := channel.SendItem(self, event.data, reaction);
      DeliverCalls(ptr, channel.lastStatus, called);
    }

    /** What is done with a message for an active inbound channel. */
    method HandleMessage(id: nat, i: nat, channel: Objects.Channel, event: RouterEvent, reaction: Reaction)
      requires Valid() && i < |activeChannels| && activeChannels[i].id == id && IsMessage(event.data)
      modifies this`activeChannels, this`pendingChannelsDelete, this`pendingChannelsUnblock, this`outgoingEvents,
        this`lastUsedMessageSerId, this`log, this`hasRequestedService, this`needDisconnect, this`blockedChannelQueues,
        channel
      ensures id in old(View()).active
      ensures Valid() && View() == Handled(old(View()), id, old(channel.View()), event, reaction)
      ensures channel.View() == HandledBy(old(View()), id, old(channel.View()), event, reaction)
    {
      hide ActiveMap, QueueMap, Half, FlowCall, SendItem, QueueMessage, Enqueue, Distinct, DistinctPtrs, DistinctQueues,
        AllMessages, ValidHalf;
      IndexIs(activeChannels, i);
      NotFound(activeChannels, id);
      if activeChannels[i].info.blocked {
        HoldBack(id, event);
      } else if !activeChannels[i].info.closed {
        if !Matches(channel.kind, event.data) {
          RequestDisconnection();
        } else {
          SendingKeepsLocks(channel.View(), self, event.data, reaction);
          var sent := SendToChannel(i, channel, event, reaction);
          if !sent && !channel.ChannelIsClosed() && channel.ChannelIsBlocked() {
            var k := FindById(id);
            NotFound(activeChannels, id);
            if k < |activeChannels| {
              WriteInfo(k, activeChannels[k].info.(blocked := true));
              HoldBack(id, event);
            }
          }
        }
      }
    }

    method NoteSerial(serial: nat)
      requires ValidHalf()
      modifies this`incomingSerAck, this`needsIncomingSerAckSent, this`hasRequestedService
      ensures ValidHalf() && Half() == NoteIncoming(old(Half()), serial)
    {
      incomingSerAck := serial;
      needsIncomingSerAckSent := true;
      RequestServiceUnlessBlocked();
    }

    /** The message is noted before it is handled. */
    method NoteMessage(ptr: Ptr, channel: Objects.Channel, serial: nat, item: EventData)
      requires Valid()
      modifies this`incomingSerAck, this`needsIncomingSerAckSent, this`hasRequestedService, this`taken
      ensures Valid() && View() == Noted(old(View()), channel.View(), ptr, serial, item)
    {
      hide ActiveMap, QueueMap, Half, ValidHalf, NoteIncoming;
      ghost var c := channel.View();
      taken := TakenAfter(taken, c, ptr, item);
      NoteSerial(serial);
    }

    /** The part of `client_data` under the channel's lock token. */
    method ReceiveMessage(id: nat, i: nat, channel: Objects.Channel, serial: nat, item: EventData, reaction: Reaction)
      requires Valid() && i < |activeChannels| && activeChannels[i].id == id && IsMessage(item)
      modifies this`activeChannels, this`pendingChannelsDelete, this`pendingChannelsUnblock, this`outgoingEvents,
        this`lastUsedMessageSerId, this`log, this`hasRequestedService, this`needDisconnect, this`blockedChannelQueues,
        this`incomingSerAck, this`needsIncomingSerAckSent, this`taken, channel
      ensures id in old(View()).active && Valid()
      ensures var event, c := RouterEvent(serial, 0, item), old(channel.View());
        var noted := Noted(old(View()), c, old(activeChannels)[i].info.ptr, serial, item);
        && View() == Handled(noted, id, Lock(c), event, reaction)
        && channel.View() == Freed(HandledBy(noted, id, Lock(c), event, reaction))
    {
      hide ActiveMap, QueueMap, Half, Handled, Noted, SendItem, Unlock, AllSendable, Distinct;
      IndexIs(activeChannels, i);
      NotFound(activeChannels, id);
      ghost var c := channel.View();
      NotedIgnoresLock(View(), c, activeChannels[i].info.ptr, serial, item);
      channel.Lock();
      NoteMessage(activeChannels[i].info.ptr, channel, serial, item);
      SendingKeepsLocks(channel.View(), self, item, reaction);
      HandleMessage(id, i, channel, RouterEvent(serial, 0, item), reaction);
      channel.Unlock();
    }

    /** A message on an active channel from the client. */
    method ReceiveOn(memory: Memory, id: nat, i: nat, serial: nat, item: EventData, reaction: Reaction)
      requires Valid() && Known(WorldOf(memory)) && Separate(memory) && IsMessage(item)
      requires i < |activeChannels| && activeChannels[i].id == id && !activeChannels[i].info.out
      modifies this`activeChannels, this`pendingChannelsDelete, this`pendingChannelsUnblock, this`outgoingEvents,
        this`lastUsedMessageSerId, this`log, this`hasRequestedService, this`needDisconnect, this`blockedChannelQueues,
        this`incomingSerAck, this`needsIncomingSerAckSent, this`taken, memory.Values
      ensures Valid() && WorldOf(memory) == Sessions.ClientData(old(WorldOf(memory)), id, serial, item, reaction)
    {
      hide ActiveMap, QueueMap, Half, ValidHalf, Handled, HandledBy, Noted, Lock, Unlock, Freed, Distinct, Handle,
        Receive, Objects.Channel.View, Sessions.ClientData, DistinctPtrs, DistinctQueues, AllMessages;
      IndexIs(activeChannels, i);
      NotFound(activeChannels, id);
      var ptr := activeChannels[i].info.ptr;
      ghost var before := Views(memory);
      ClientDataParts(WorldOf(memory), id, serial, item, reaction);
      ReceiveMessage(id, i, memory[ptr], serial, item, reaction);
      OneViewChanged(memory, ptr, before);
    }

    /** Both `client_data` methods, for the message kind they carry. */
    method ClientData(memory: Memory, id: nat, serial: nat, item: EventData, reaction: Reaction)
      requires Valid() && Known(WorldOf(memory)) && Separate(memory) && IsMessage(item)
      modifies this`activeChannels, this`pendingChannelsDelete, this`pendingChannelsUnblock, this`outgoingEvents,
        this`lastUsedMessageSerId, this`log, this`hasRequestedService, this`needDisconnect, this`blockedChannelQueues,
        this`incomingSerAck, this`needsIncomingSerAckSent, this`taken, memory.Values
      ensures Valid() && WorldOf(memory) == Sessions.ClientData(old(WorldOf(memory)), id, serial, item, reaction)
    {
      hide ActiveMap, QueueMap, Half, ValidHalf, Distinct, DistinctPtrs, DistinctQueues, AllMessages, Known, Views,
        Objects.Channel.View, Sessions.ClientData;
      NotFound(activeChannels, id);
      var i := FindById(id);
      if i == |activeChannels| || activeChannels[i].info.out {
        ClientDataElsewhere(WorldOf(memory), id, serial, item, reaction);
      }
      if i < |activeChannels| {
        if activeChannels[i].info.out {
          RequestDisconnection();
        } else {
          ReceiveOn(memory, id, i, serial, item, reaction);
        }
      }
    }

    // ----- Adding a channel -----

    /** The client hears of a new channel and of whether it may use it. */
    method AnnounceChannel(id: nat, out: bool, blocked: bool)
      requires ValidHalf()
      modifies this`outgoingEvents, this`lastUsedMessageSerId, this`log, this`hasRequestedService
      ensures ValidHalf() && Half() == Announce(old(Half()), id, out, blocked)
    {
      hide Half, Enqueue, AllSendable;
      QueueEvent(0, Status(StatusChange(StatusOpen, out, id)));
      RequestServiceUnlessBlocked();
      QueueEvent(0, Status(StatusChange(if blocked then StatusBlock else StatusUnblock, out, id)));
    }

    method AddEntry(entry: ActiveChannel)
      requires Valid() && IndexOf(activeChannels, entry.id) == |activeChannels| && entry.id != 0
      requires IndexOfPtr(activeChannels, entry.info.ptr) == |activeChannels|
      modifies this`activeChannels
      ensures Valid() && ActiveMap(activeChannels) == ActiveMap(old(activeChannels))[entry.id := entry.info]
    {
      hide ActiveMap, QueueMap, ValidHalf;
      AppendIsUpdate(activeChannels, entry);
      activeChannels := activeChannels + [entry];
    }

    /** The session registers as holder, as listener and, towards the client, as receiver. */
    method RegisterWith(channel: Objects.Channel, out: bool)
      requires channel.View().locks > 0
      modifies channel
      ensures channel.View() == Unlock(
        var held := RegisterListener(RegisterHolder(old(channel.View()), self), self);
        if out then RegisterReceiver(held, self) else held)
    {
      hide RegisterHolder, RegisterListener, RegisterReceiver, Unlock;
      RegisteringKeepsLocks(channel.View(), self);
      var _ := channel.RegisterPointerHolder(self);
      RegisteringKeepsLocks(channel.View(), self);
      var _ := channel.RegisterControlListener(self);
      RegisteringKeepsLocks(channel.View(), self);
      if out {
        var _ := channel.RegisterReceiverCallback(self);
      }
      channel.Unlock();
    }

    method AddAndAnnounce(ptr: Ptr, channelBlocked: bool, out: bool) returns (id: nat)
      requires Valid() && lastUsedChannelId < maxChannels && |ActiveMap(activeChannels)| + 1 < maxChannels
      requires IndexOfPtr(activeChannels, ptr) == |activeChannels|
      modifies this`lastUsedChannelId, this`activeChannels, this`outgoingEvents, this`lastUsedMessageSerId, this`log,
        this`hasRequestedService
      ensures Valid() && id == lastUsedChannelId
      ensures View() == Added(old(View()), channelBlocked, ptr, out)
    {
      hide ActiveMap, QueueMap, Half, Announce, Distinct, AllSendable;
      MapSize(activeChannels);
      id := GetNextChannelId();
      NotFound(activeChannels, id);
      var blocked := !out && channelBlocked;
      AddEntry(ActiveChannel(id, ChannelInfo(ptr, out, false, blocked)));
      AnnounceChannel(id, out, blocked);
    }

    /** A channel that is not one of the session's yet. */
    method ChannelAdded(ptr: Ptr, channel: Objects.Channel, out: bool) returns (id: nat)
      requires Valid() && lastUsedChannelId < maxChannels && |ActiveMap(activeChannels)| + 1 < maxChannels
      requires IndexOfPtr(activeChannels, ptr) == |activeChannels|
      modifies this`lastUsedChannelId, this`activeChannels, this`outgoingEvents, this`lastUsedMessageSerId, this`log,
        this`hasRequestedService, channel
      ensures Valid() && id == lastUsedChannelId
      ensures View() == Added(old(View()), old(channel.blocked), ptr, out)
      ensures channel.View() == Register(old(channel.View()), self, out)
    {
      hide ActiveMap, QueueMap, Half, Added, Distinct, RegisterHolder, RegisterListener, RegisterReceiver, Unlock;
      channel.Lock();
      id := AddAndAnnounce(ptr, channel.blocked, out);
      RegisterWith(channel, out);
    }

    // ----- Letting channels go -----

    /** `unregister_channel`. Should the channel still call the session back, it finds no entry. */
    method UnregisterChannel(ptr: Ptr, channel: Objects.Channel, out: bool)
      requires Valid() && Absent(activeChannels, ptr)
      modifies this`activeChannels, this`pendingChannelsDelete, this`pendingChannelsUnblock, this`outgoingEvents,
        this`lastUsedMessageSerId, this`log, this`hasRequestedService, channel
      ensures Valid() && View() == old(View()) && Forgets(old(activeChannels), activeChannels)
      ensures channel.View() == Unregister(old(channel.View()), self, out)
    {
      hide ActiveMap, QueueMap, Half, FlowCall, UnregisterListener, Close, UnregisterReceiver, UnregisterHolder,
        Distinct;
      channel.UnregisterControlListener(self);
      var called := channel.CloseChannel();
      IgnoreCalls(ptr, channel.lastStatus, called);
      if out {
        called := channel.UnregisterReceiverCallback(self);
        IgnoreCalls(ptr, channel.lastStatus, called);
      }
      channel.UnregisterPointerHolder(self);
    }

    /** Calls from a channel without an entry change nothing. */
    method IgnoreCalls(ptr: Ptr, status: Flow, called: seq<Ptr>)
      requires Valid() && Absent(activeChannels, ptr)
      modifies this`activeChannels, this`pendingChannelsDelete, this`pendingChannelsUnblock, this`outgoingEvents,
        this`lastUsedMessageSerId, this`log, this`hasRequestedService
      ensures Valid() && View() == old(View()) && Forgets(old(activeChannels), activeChannels)
    {
      hide ActiveMap, QueueMap, Half, FlowCall, Forgets;
      ghost var entries := activeChannels;
      AbsentIsUnknown(View(), activeChannels, ptr, status);
      DeliverCalls(ptr, status, called);
      SameMapForgets(entries, activeChannels);
    }

    /** The first loop: the closed channels leave the tables. */
    method DeletePending() returns (removed: seq<ChannelInfo>)
      requires Valid()
      modifies this`activeChannels, this`blockedChannelQueues, this`pendingChannelsUnblock
      ensures Valid() && (View(), removed) == DeleteAll(old(View()), old(pendingChannelsDelete))
      ensures forall k :: 0 <= k < |removed| ==> Absent(activeChannels, removed[k].ptr)
    {
      hide DeleteChannel, ActiveMap, QueueMap, Half, ValidHalf, Distinct, DistinctQueues;
      removed := [];
      ghost var start := View();
      var i := 0;
      while i < |pendingChannelsDelete|
        invariant i <= |pendingChannelsDelete| && Valid()
        invariant DeleteAll(start, pendingChannelsDelete).0 == DeleteAll(View(), pendingChannelsDelete[i..]).0
        invariant DeleteAll(start, pendingChannelsDelete).1
          == removed + DeleteAll(View(), pendingChannelsDelete[i..]).1
        invariant forall k :: 0 <= k < |removed| ==> Absent(activeChannels, removed[k].ptr)
      {
        ghost var before := removed;
        var temp := DeleteActiveChannel(pendingChannelsDelete[i]);
        removed := removed + temp;
        assert pendingChannelsDelete[i..][1..] == pendingChannelsDelete[i + 1..];
        i := i + 1;
      }
      assert removed + [] == removed;
    }

    /** The second loop: what the session holds of each is given back. */
    method UnregisterRemoved(memory: Memory, removed: seq<ChannelInfo>)
      requires Valid() && Separate(memory)
      requires forall k :: 0 <= k < |removed| ==> Absent(activeChannels, removed[k].ptr) && removed[k].ptr in memory
      modifies this`activeChannels, this`pendingChannelsDelete, this`pendingChannelsUnblock, this`outgoingEvents,
        this`lastUsedMessageSerId, this`log, this`hasRequestedService, memory.Values
      ensures Valid() && View() == old(View())
      ensures Views(memory) == UnregisterAll(old(Views(memory)), self, removed)
    {
      hide ActiveMap, QueueMap, Half, ValidHalf, Unregister, Objects.Channel.View, Distinct, DistinctPtrs,
        DistinctQueues,
        AllMessages, UnregisterAll;
      ghost var start := Views(memory);
      ghost var session := View();
      var i := 0;
      while i < |removed|
        invariant i <= |removed| && Valid() && View() == session
        invariant forall k :: 0 <= k < |removed| ==> Absent(activeChannels, removed[k].ptr)
        invariant UnregisterAll(start, self, removed) == UnregisterAll(Views(memory), self, removed[i..])
      {
        ghost var before := Views(memory);
        var ptr := removed[i].ptr;
        UnregisterChannel(ptr, memory[ptr], removed[i].out);
        OneViewChanged(memory, ptr, before);
        UnregisterNext(before, self, removed, i);
        i := i + 1;
      }
      assert removed[i..] == [] && UnregisterAll(Views(memory), self, []) == Views(memory) by { NoneToUnregister(Views(memory), self); }
    }

    method ProcessPendingChannelDeletes(memory: Memory)
      requires Valid() && Known(WorldOf(memory)) && Separate(memory)
      modifies this, memory.Values
      ensures Valid() && WorldOf(memory) == ProcessDeletes(old(WorldOf(memory)))
    {
      hide ActiveMap, QueueMap, Half, ValidHalf, UnregisterAll, DeleteAll, Objects.Channel.View, Distinct,
        DistinctQueues,
        DistinctPtrs, AllMessages, Absent, Views;
      assert Views(memory).Keys == memory.Keys by { ViewsAreOfMemory(memory); }
      RemovedAreKnown(View(), pendingChannelsDelete, memory.Keys);
      var removed := DeletePending();
      pendingChannelsDelete := [];
      UnregisterRemoved(memory, removed);
    }

    // ----- Handing over what was held back -----

    /** Drops the message that was handed over. */
    method PopHeld(id: nat)
      requires DistinctQueues(blockedChannelQueues) && AllMessages(blockedChannelQueues)
      requires HeldOf(blockedChannelQueues, id) != []
      modifies this`blockedChannelQueues
      ensures DistinctQueues(blockedChannelQueues) && AllMessages(blockedChannelQueues)
      ensures var rest := HeldOf(old(blockedChannelQueues), id)[1..];
        QueueMap(blockedChannelQueues)
        == if rest == [] then QueueMap(old(blockedChannelQueues)) - {id} else QueueMap(old(blockedChannelQueues))[id := rest]
    {
      hide QueueMap;
      var i := FindBlockedQueue(id);
      WriteHeld(blockedChannelQueues, i, blockedChannelQueues[i].1[1..]);
      blockedChannelQueues := blockedChannelQueues[i := (id, blockedChannelQueues[i].1[1..])];
    }

    /** One turn of the drain loop. The kind of the message decides which `send_item` is called; there is no
        third kind. */
    method DrainHead(id: nat, i: nat, channel: Objects.Channel, reaction: Reaction) returns (sent: bool)
      requires Valid() && i < |activeChannels| && activeChannels[i].id == id
      requires HeldOf(blockedChannelQueues, id) != []
      modifies this`activeChannels, this`pendingChannelsDelete, this`pendingChannelsUnblock, this`outgoingEvents,
        this`lastUsedMessageSerId, this`log, this`hasRequestedService, this`blockedChannelQueues, channel
      ensures Valid() && sent == Accepts(old(channel.View()))
      ensures channel.View()
        == SendItem(old(channel.View()), self, HeldOf(old(blockedChannelQueues), id)[0].data, reaction)
      ensures var offered := Called(old(View()), old(activeChannels)[i].info.ptr, old(channel.View()), channel.View());
        View() == if sent then SetQueue(offered, id, HeldOf(old(blockedChannelQueues), id)[1..]) else offered
    {
      hide ActiveMap, QueueMap, Half, SendItem, FlowCall, ValidHalf, Distinct;
      var q := FindBlockedQueue(id);
      var event := blockedChannelQueues[q].1[0];
      sent := false;
      match event.data {
        case Text(_) => sent := SendToChannel(i, channel, event, reaction);
        case Enhanced(_) => sent := SendToChannel(i, channel, event, reaction);
        case _ => assert false;
      }
      if sent {
        HeldSame(old(blockedChannelQueues), blockedChannelQueues, id);
        PopHeld(id);
      }
    }

    /** What a drain works on: an active channel, at its address. */
    ghost predicate Drains(memory: Memory, id: nat, ptr: Ptr)
      reads this, memory.Values
    {
      Valid() && ptr in memory && id in View().active && View().active[id].ptr == ptr
    }

    /** One turn of the drain loop, on the whole. */
    method DrainTurn(memory: Memory, id: nat, ptr: Ptr, reactions: seq<Reaction>, k: nat)
      returns (sent: bool, stuck: bool)
      requires Drains(memory, id, ptr) && Separate(memory) && QueueOf(View(), id) != []
      modifies this`activeChannels, this`pendingChannelsDelete, this`pendingChannelsUnblock, this`outgoingEvents,
        this`lastUsedMessageSerId, this`log, this`hasRequestedService, this`blockedChannelQueues, memory.Values
      ensures Drains(memory, id, ptr)
      ensures old(Ready(Half())) && Ready(Half())
      ensures DrainQueue(old(WorldOf(memory)), id, reactions, k)
        == if sent then DrainQueue(WorldOf(memory), id, reactions, k + 1) else WorldOf(memory)
      ensures QueueOf(View(), id) == if sent then old(QueueOf(View(), id))[1..] else old(QueueOf(View(), id))
      ensures stuck == (!sent && InUnknownState(WorldOf(memory), id))
    {
      hide ActiveMap, QueueMap, Half, SendItem, FlowCall, AllSendable, AllMessages, Distinct, HeldOf, DrainQueue,
        Accepts,
        Objects.Channel.View;
      ghost var before := WorldOf(memory);
      DrainUnroll(before, id, reactions, k);
      HeldIsMapped(blockedChannelQueues, id);
      NotFound(activeChannels, id);
      var i := FindById(id);
      sent := DrainHead(id, i, memory[ptr], ReactionAt(reactions, k));
      OneViewChanged(memory, ptr, before.chans);
      stuck := !sent && !memory[ptr].ChannelIsBlocked() && !memory[ptr].ChannelIsClosed();
    }

    /** The drain loop of one channel; true when messages are left although the channel is open. */
    method DrainBlockedQueue(memory: Memory, id: nat, ptr: Ptr, reactions: seq<Reaction>) returns (stuck: bool)
      requires Drains(memory, id, ptr) && Separate(memory)
      modifies this`activeChannels, this`pendingChannelsDelete, this`pendingChannelsUnblock, this`outgoingEvents,
        this`lastUsedMessageSerId, this`log, this`hasRequestedService, this`blockedChannelQueues, memory.Values
      ensures old(Ready(Half())) && Drains(memory, id, ptr)
      ensures WorldOf(memory) == DrainQueue(old(WorldOf(memory)), id, reactions, 0)
      ensures stuck == InUnknownState(WorldOf(memory), id)
    {
      hide ActiveMap, QueueMap, Half, AllSendable, AllMessages, Distinct, HeldOf, DrainQueue, QueueOf, InUnknownState,
        Objects.Channel.View;
      ghost var target := DrainQueue(WorldOf(memory), id, reactions, 0);
      stuck := false;
      var k, stopped := 0, false;
      var more := HasHeld(id);
      while more
        invariant Drains(memory, id, ptr) && k >= 0
        invariant more <==> QueueOf(View(), id) != [] && !stopped
        invariant if stopped then WorldOf(memory) == target else DrainQueue(WorldOf(memory), id, reactions, k) == target
        invariant stuck == (stopped && InUnknownState(WorldOf(memory), id))
        decreases more, |QueueOf(View(), id)|
      {
        var sent;
        sent, stuck := DrainTurn(memory, id, ptr, reactions, k);
        k := k + 1;
        if sent {
          more := HasHeld(id);
        } else {
          more, stopped := false, true;
        }
      }
      if !stopped { DrainDone(WorldOf(memory), id, reactions, k); }
    }

    method HasHeld(id: nat) returns (held: bool)
      requires DistinctQueues(blockedChannelQueues)
      ensures held == (QueueOf(View(), id) != [])
    {
      hide QueueMap;
      HeldIsMapped(blockedChannelQueues, id);
      var i := 0;
      while i < |blockedChannelQueues| && blockedChannelQueues[i].0 != id
        invariant i <= |blockedChannelQueues| && forall k :: 0 <= k < i ==> blockedChannelQueues[k].0 != id
      {
        i := i + 1;
      }
      held := i < |blockedChannelQueues| && blockedChannelQueues[i].1 != [];
      if i < |blockedChannelQueues| { QueueIndexIsUnique(blockedChannelQueues, i); }
    }

    /** Once the backlog is gone, the channel's own flag decides, and the client hears of an unblocked
        channel. */
    method FinishQueue(id: nat, channelBlocked: bool)
      requires Valid() && id in View().active
      modifies this`activeChannels, this`outgoingEvents, this`lastUsedMessageSerId, this`log
      ensures old(Ready(Half())) && Valid() && View() == Finished(old(View()), id, channelBlocked)
    {
      hide ActiveMap, QueueMap, Half, AllSendable, AllMessages, Distinct, HeldOf, Enqueue;
      var held := HasHeld(id);
      if !held {
        NotFound(activeChannels, id);
        var i := FindById(id);
        WriteInfo(i, activeChannels[i].info.(blocked := channelBlocked));
        if !channelBlocked {
          TellClient(i, StatusUnblock);
        }
      }
    }

    /** The lock token of a channel, taken and given back. */
    method LockAt(memory: Memory, ptr: Ptr)
      requires Separate(memory) && ptr in memory
      modifies memory[ptr]
      ensures Views(memory) == old(Views(memory))[ptr := Lock(old(Views(memory))[ptr])]
    {
      hide Objects.Channel.View, Lock;
      ghost var before := Views(memory);
      memory[ptr].Lock();
      OneViewChanged(memory, ptr, before);
    }

    method UnlockAt(memory: Memory, ptr: Ptr)
      requires Separate(memory) && ptr in memory && memory[ptr].View().locks > 0
      modifies memory[ptr]
      ensures old(Views(memory))[ptr].locks > 0
      ensures Views(memory) == old(Views(memory))[ptr := Unlock(old(Views(memory))[ptr])]
    {
      hide Objects.Channel.View, Unlock;
      ghost var before := Views(memory);
      memory[ptr].Unlock();
      OneViewChanged(memory, ptr, before);
    }

    /** What is done with a scheduled channel while it is locked. */
    method DrainLocked(memory: Memory, id: nat, ptr: Ptr, reactions: seq<Reaction>) returns (invalid: bool)
      requires Drains(memory, id, ptr) && Separate(memory) && !memory[ptr].ChannelIsClosed()
      modifies this`activeChannels, this`pendingChannelsDelete, this`pendingChannelsUnblock, this`outgoingEvents,
        this`lastUsedMessageSerId, this`log, this`hasRequestedService, this`blockedChannelQueues, memory.Values
      ensures old(Ready(Half())) && Drains(memory, id, ptr)
      ensures var drained := DrainQueue(old(WorldOf(memory)), id, reactions, 0);
        WorldOf(memory) == FinishDrain(drained, id) && invalid == InUnknownState(drained, id)
      ensures memory[ptr].View().locks == old(memory[ptr].View().locks)
    {
      hide ActiveMap, QueueMap, Half, AllSendable, AllMessages, Distinct, HeldOf, DrainQueue, FinishDrain,
        InUnknownState,
        Finished, Objects.Channel.View;
      DrainKeepsLocks(WorldOf(memory), id, reactions, 0);
      invalid := DrainBlockedQueue(memory, id, ptr, reactions);
      FinishParts(WorldOf(memory), id);
      FinishQueue(id, memory[ptr].ChannelIsBlocked());
    }

    /** One channel of `process_pending_unblocked_channels`, under its lock token; true when its queue is to be
        dropped. */
    method DrainOneChannel(memory: Memory, id: nat, reactions: seq<Reaction>) returns (invalid: bool)
      requires Valid() && Known(WorldOf(memory)) && Separate(memory)
      modifies this`activeChannels, this`pendingChannelsDelete, this`pendingChannelsUnblock, this`outgoingEvents,
        this`lastUsedMessageSerId, this`log, this`hasRequestedService, this`blockedChannelQueues, memory.Values
      ensures Valid() && (WorldOf(memory), invalid) == DrainChannel(old(WorldOf(memory)), id, reactions)
    {
      hide ActiveMap, QueueMap, Half, AllSendable, AllMessages, Distinct, HeldOf, DrainQueue, FinishDrain,
        InUnknownState,
        Lock, Unlock, Objects.Channel.View;
      NotFound(activeChannels, id);
      var i := FindById(id);
      if i == |activeChannels| {
        invalid := true;
      } else {
        var ptr := activeChannels[i].info.ptr;
        LockIsClosedAlike(Views(memory)[ptr]);
        LockAt(memory, ptr);
        invalid := false;
        if !memory[ptr].ChannelIsClosed() {
          invalid := DrainLocked(memory, id, ptr, reactions);
        }
        UnlockAt(memory, ptr);
      }
    }

    /** The loop over the scheduled channels. */
    method DrainChannels(memory: Memory, ids: seq<nat>, reactions: seq<seq<Reaction>>) returns (invalid: seq<nat>)
      requires Valid() && Known(WorldOf(memory)) && Separate(memory)
      modifies this`activeChannels, this`pendingChannelsDelete, this`pendingChannelsUnblock, this`outgoingEvents,
        this`lastUsedMessageSerId, this`log, this`hasRequestedService, this`blockedChannelQueues, memory.Values
      ensures Valid() && (WorldOf(memory), SetOf(invalid)) == DrainAll(old(WorldOf(memory)), ids, reactions)
    {
      hide ActiveMap, QueueMap, Half, ValidHalf, AllMessages, Distinct, DrainChannel, Objects.Channel.View, Views,
        Known;
      ghost var start := WorldOf(memory);
      invalid := [];
      var i, rest := 0, reactions;
      while i < |ids|
        invariant i <= |ids| && Valid() && Known(WorldOf(memory))
        invariant DrainAll(start, ids, reactions).0 == DrainAll(WorldOf(memory), ids[i..], rest).0
        invariant DrainAll(start, ids, reactions).1 == SetOf(invalid) + DrainAll(WorldOf(memory), ids[i..], rest).1
      {
        var dropped := DrainOneChannel(memory, ids[i], if rest == [] then [] else rest[0]);
        if dropped {
          assert SetOf(invalid + [ids[i]]) == SetOf(invalid) + {ids[i]};
          invalid := invalid + [ids[i]];
        }
        rest := if rest == [] then [] else rest[1..];
        assert ids[i..][1..] == ids[i + 1..];
        i := i + 1;
      }
      assert SetOf(invalid) + {} == SetOf(invalid);
    }

    method RemoveBlockedQueues(ids: seq<nat>)
      requires Valid()
      modifies this`blockedChannelQueues
      ensures Valid() && QueueMap(blockedChannelQueues) == QueueMap(old(blockedChannelQueues)) - SetOf(ids)
    {
      hide QueueMap, ValidHalf, Distinct, DistinctQueues, AllMessages;
      ghost var start := QueueMap(blockedChannelQueues);
      var i := 0;
      while i < |ids|
        invariant i <= |ids| && Valid() && QueueMap(blockedChannelQueues) == start - SetOf(ids[..i])
      {
        RemoveBlockedQueue(ids[i]);
        assert SetOf(ids[..i + 1]) == SetOf(ids[..i]) + {ids[i]};
        i := i + 1;
      }
      assert ids[..|ids|] == ids;
    }

    method ProcessPendingUnblockedChannels(memory: Memory, reactions: seq<seq<Reaction>>)
      requires Valid() && Known(WorldOf(memory)) && Separate(memory)
      modifies this, memory.Values
      ensures Valid() && WorldOf(memory) == ProcessUnblocked(old(WorldOf(memory)), reactions)
    {
      hide ActiveMap, QueueMap, Half, ValidHalf, AllMessages, Distinct, DrainAll, Objects.Channel.View, Views;
      var unblocked := pendingChannelsUnblock;
      pendingChannelsUnblock := [];
      var invalid := DrainChannels(memory, unblocked, reactions);
      RemoveBlockedQueues(invalid);
    }

    predicate NeedsDisconnect()
      reads this
      ensures NeedsDisconnect() <==> Half().needDisconnect
    {
      needDisconnect
    }

    method Disconnect()
      requires ValidHalf()
      modifies this`hasRequestedService, this`clientIsConnected
      ensures ValidHalf() && Half() == old(Half()).(requested := false, connected := false)
    {
      hasRequestedService, clientIsConnected := false, false;
    }

    method BeginService()
      requires ValidHalf()
      modifies this`hasRequestedService
      ensures ValidHalf() && Half() == old(Half()).(requested := false)
    {
      hasRequestedService := false;
    }

    /** The channel half of a service. */
    method ServiceChannels(memory: Memory, reactions: seq<seq<Reaction>>)
      requires Valid() && Known(WorldOf(memory)) && Separate(memory)
      modifies this, memory.Values
      ensures Valid() && Known(ProcessDeletes(old(WorldOf(memory))))
      ensures WorldOf(memory) == ProcessUnblocked(ProcessDeletes(old(WorldOf(memory))), reactions)
    {
      hide ActiveMap, QueueMap, Half, ValidHalf, AllMessages, Distinct, ProcessUnblocked, ProcessDeletes, Known,
        Objects.Channel.View, Views;
      DeletesStayKnown(WorldOf(memory));
      if pendingChannelsDelete != [] {
        ProcessPendingChannelDeletes(memory);
      }
      ProcessPendingUnblockedChannels(memory, reactions);
    }

    /** What is left of a service once it is begun. */
    method ServiceAndSend(memory: Memory, reactions: seq<seq<Reaction>>, codes: seq<SendCode>) returns (wire: seq<Wire>)
      requires Valid() && Known(WorldOf(memory)) && Separate(memory)
      modifies this, memory.Values
      ensures Valid() && Known(ProcessDeletes(old(WorldOf(memory))))
      ensures var unblocked := ProcessUnblocked(ProcessDeletes(old(WorldOf(memory))), reactions);
        && WorldOf(memory) == unblocked.(s := unblocked.s.(d := SendPhase(unblocked.s.d, codes).0))
        && wire == SendPhase(unblocked.s.d, codes).1
    {
      hide ActiveMap, QueueMap, Half, ValidHalf, AllMessages, Distinct, DistinctPtrs, ProcessUnblocked,
        ProcessDeletes, SendPhase,
        Known, Objects.Channel.View, Views;
      ServiceChannels(memory, reactions);
      wire := SendPending(codes);
    }

    /** One service: a disconnect that is due, or the channels and then the connection. */
    method ProcessPending(memory: Memory, reactions: seq<seq<Reaction>>, codes: seq<SendCode>) returns (wire: seq<Wire>)
      requires Valid() && Known(WorldOf(memory)) && Separate(memory)
      modifies this, memory.Values
      ensures Valid() && (WorldOf(memory), wire) == Sessions.ProcessPending(old(WorldOf(memory)), reactions, codes)
    {
      hide ActiveMap, QueueMap, Half, ValidHalf, AllMessages, Distinct, DistinctPtrs, ProcessUnblocked,
        ProcessDeletes, SendPhase,
        Known, Objects.Channel.View, Views, Sessions.ProcessPending;
      ServiceParts(WorldOf(memory), reactions, codes);
      if NeedsDisconnect() {
        Disconnect();
        wire := [];
      } else {
        BeginService();
        wire := ServiceAndSend(memory, reactions, codes);
      }
    }

    /** The tables are emptied first. */
    method TakeChannels() returns (channels: seq<ChannelInfo>)
      requires Valid()
      modifies this`activeChannels, this`blockedChannelQueues
      ensures Valid() && activeChannels == [] && channels == Infos(old(activeChannels))
    {
      hide ActiveMap, QueueMap, Half, ValidHalf, AllMessages, Distinct, Infos;
      channels := Infos(activeChannels);
      activeChannels, blockedChannelQueues := [], [];
      NoMessages();
    }

    /** The destructor: every channel is let go of. */
    method Destroy(memory: Memory)
      requires Valid() && Separate(memory)
      requires forall i :: 0 <= i < |activeChannels| ==> activeChannels[i].info.ptr in memory
      modifies this, memory.Values
      ensures Views(memory) == LetGo(old(WorldOf(memory))) && !clientIsConnected
    {
      hide ActiveMap, QueueMap, Half, ValidHalf, AllMessages, Distinct, DistinctQueues, UnregisterAll, LetGo,
        Objects.Channel.View, Views;
      ViewsAreOfMemory(memory);
      UnregisteringLetsGo(WorldOf(memory), activeChannels);
      var channels := TakeChannels();
      UnregisterRemoved(memory, channels);
      clientIsConnected := false;
    }
  }
}
