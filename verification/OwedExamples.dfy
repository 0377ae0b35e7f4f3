/** Concrete runs in which a session forgets what it owes its client; the exact condition is
    `PromisedServices.NothingOwedIsForgotten`. */
module OwedExamples {
  import opened Basics
  import opened RouterEvents
  import opened Serials
  import opened Delivery
  import opened DeliveryProtocol
  import opened Channels
  import opened ChannelIds
  import opened Sessions
  import opened SessionInvariant
  import opened SessionSteps
  import opened SessionService
  import opened SessionRuns
  import opened SessionTheorems
  import opened SessionExamples
  import opened ClientStanding
  import opened PromisedServices

  const ITEM := Enhanced(ClientMessage("{}"))

  /** A channel for client messages, before and after it is added. */
  const DATA := RECEIVED.(kind := DataKind)
  const DATA_LISTENED := LISTENED.(kind := DataKind)

  /** A channel for client messages is added, and the service that tells of it blocks the client. */
  const BLOCKING := [ChannelCreated(2, DataKind), ChannelCalled(2, OpRegisterReceiver(3)), ChannelAdded(2, false),
                     Serviced([], [SendOk, SendOkBlocked])]

  /** The client sends a message on the channel, which is held back. */
  const OWING := BLOCKING + [MessageArrived(1, 7, ITEM, Quiet)]

  const ONE_HELD := SENT.(
    d := SENT.d.(incomingSerAck := 7, needsIncomingAck := true), queues := map[1 := [RouterEvent(7, 0, ITEM)]],
    taken := map[2 := [ITEM]])

  lemma DataReceived()
    ensures var w := World(FullStart(1, 16, 2, 8).w.s, map[2 := NewChannel(DataKind)]);
      ForeignNext(w, 2, OpRegisterReceiver(3)) == World(w.s, map[2 := DATA])
  {
    assert RegisterReceiver(NewChannel(DataKind), 3) == DATA;
    assert map[2 := NewChannel(DataKind)][2 := DATA] == map[2 := DATA];
  }

  lemma DataAdded()
    ensures var w := World(FullStart(1, 16, 2, 8).w.s, map[2 := DATA]);
      CanAdd(w, 2) && AddChannel(w, 2, false) == World(ADDED, map[2 := DATA_LISTENED])
  {
    var w := World(FullStart(1, 16, 2, 8).w.s, map[2 := DATA]);
    AnnouncedEvents();
    FirstId();
    assert Register(DATA, 1, false) == DATA_LISTENED;
    assert w.s.active.Keys == {};
    assert w.chans[2 := DATA_LISTENED] == map[2 := DATA_LISTENED];
    assert w.s.active[1 := ChannelInfo(2, false, false, true)] == map[1 := ChannelInfo(2, false, false, true)];
  }

  /** The service does not look at the channel. */
  lemma DataSent()
    ensures Known(World(ADDED, map[2 := DATA_LISTENED]))
    ensures ProcessPending(World(ADDED, map[2 := DATA_LISTENED]), [], [SendOk, SendOkBlocked]).0
      == World(SENT, map[2 := DATA_LISTENED])
  {
    hide SendPhase;
    SentState();
    var w, data := World(ADDED, map[2 := LISTENED]), World(ADDED, map[2 := DATA_LISTENED]);
    IdleService(w, [SendOk, SendOkBlocked]);
    IdleService(data, [SendOk, SendOkBlocked]);
  }

  lemma IdleService(w: World, codes: seq<SendCode>)
    requires Known(w) && !w.s.d.needDisconnect && w.s.pendingDelete == [] && w.s.pendingUnblock == []
    ensures ProcessPending(w, [], codes).0
      == World(w.s.(d := SendPhase(w.s.d.(requested := false), codes).0), w.chans)
  {
    hide SendPhase;
    var begun := w.(s := w.s.(d := w.s.d.(requested := false)));
    assert ProcessDeletes(begun) == begun;
    assert begun.s.queues - {} == begun.s.queues;
    assert ProcessUnblocked(begun, []) == begun;
  }

  lemma BlockingRuns()
    ensures FullLegal(FullStart(1, 16, 2, 8), BLOCKING, 2)
    ensures FullRun(FullStart(1, 16, 2, 8), BLOCKING, 2).w == World(SENT, map[2 := DATA_LISTENED])
  {
    hide ForeignNext, AddChannel, ProcessPending;
    var f0 := FullStart(1, 16, 2, 8);
    var f1 := WithWorld(World(f0.w.s, map[2 := NewChannel(DataKind)]));
    var f2 := WithWorld(World(f0.w.s, map[2 := DATA]));
    var f3 := WithWorld(World(ADDED, map[2 := DATA_LISTENED]));
    assert map[][2 := NewChannel(DataKind)] == map[2 := NewChannel(DataKind)];
    OneFull(f0, BLOCKING[0]);
    DataReceived();
    OneFull(f1, BLOCKING[1]);
    DataAdded();
    OneFull(f2, BLOCKING[2]);
    DataSent();
    OneFull(f3, BLOCKING[3]);
    AppendFull(f2, [BLOCKING[2]], [BLOCKING[3]]);
    AppendFull(f1, [BLOCKING[1]], [BLOCKING[2]] + [BLOCKING[3]]);
    AppendFull(f0, [BLOCKING[0]], [BLOCKING[1]] + ([BLOCKING[2]] + [BLOCKING[3]]));
    assert BLOCKING == [BLOCKING[0]] + ([BLOCKING[1]] + ([BLOCKING[2]] + [BLOCKING[3]]));
  }

  lemma MessageIsHeld()
    ensures Known(World(SENT, map[2 := DATA_LISTENED]))
    ensures ClientData(World(SENT, map[2 := DATA_LISTENED]), 1, 7, ITEM, Quiet) == World(ONE_HELD, map[2 := DATA_LISTENED])
  {
    var w := World(SENT, map[2 := DATA_LISTENED]);
    LockThenUnlock(DATA_LISTENED, 1);
    var received := Receive(w, 1, 7, ITEM);
    assert [] + [ITEM] == [ITEM];
    assert received.s.taken == ONE_HELD.taken;
    assert received.s == ONE_HELD.(queues := map[]);
    assert [] + [RouterEvent(7, 0, ITEM)] == [RouterEvent(7, 0, ITEM)];
    var handled := Handle(received, 1, RouterEvent(7, 0, ITEM), Quiet);
    assert handled.s == ONE_HELD;
    assert Release(handled, 2).chans == map[2 := DATA_LISTENED];
  }

  lemma OwingRuns()
    ensures FullLegal(FullStart(1, 16, 2, 8), OWING, 2)
    ensures FullRun(FullStart(1, 16, 2, 8), OWING, 2).w == World(ONE_HELD, map[2 := DATA_LISTENED])
  {
    hide FullLegal, FullRun, FullStart, ClientData, Known;
    BlockingRuns();
    MessageIsHeld();
    Extend(FullStart(1, 16, 2, 8), BLOCKING, MessageArrived(1, 7, ITEM, Quiet));
  }

  lemma OwingIsKnown()
    ensures Known(World(ONE_HELD, map[2 := DATA_LISTENED]))
  {
  }

  /** A forgetting step at the end of a run is enough. */
  lemma {:induction false} ForgetsAtLast(f: Full, steps: seq<FullStep>, last: FullStep)
    requires FullLegal(f, steps + [last], 2) && FullLegal(f, steps, 2)
    requires var g := FullRun(f, steps, 2); ForgetsAck(g.w.s.d, last) || ForgetsCut(g.w.s, last)
    ensures !NothingForgotten(f, steps + [last], 2)
    decreases steps
  {
    hide FullNext, FullEnabled, Known, ForgetsAck, ForgetsCut;
    if steps == [] {
      assert steps + [last] == [last];
    } else {
      assert (steps + [last])[1..] == steps[1..] + [last];
      ForgetsAtLast(FullNext(f, steps[0], 2), steps[1..], last);
    }
  }

  /** The client unblocks: its message is never acknowledged unless something else happens. */
  lemma AcknowledgementIsForgotten()
    ensures FullLegal(FullStart(1, 16, 2, 8), OWING + [Delivered(ConnectionUnblocks)], 2)
    ensures var d := FullRun(FullStart(1, 16, 2, 8), OWING + [Delivered(ConnectionUnblocks)], 2).w.s.d;
      d.needsIncomingAck && !d.blocked && !d.waitReconnect && !d.needDisconnect && !d.requested
    ensures !NothingForgotten(FullStart(1, 16, 2, 8), OWING + [Delivered(ConnectionUnblocks)], 2)
  {
    hide FullLegal, FullRun, FullStart, NothingForgotten;
    OwingRuns();
    OwingIsKnown();
    Extend(FullStart(1, 16, 2, 8), OWING, Delivered(ConnectionUnblocks));
    ForgetsAtLast(FullStart(1, 16, 2, 8), OWING, Delivered(ConnectionUnblocks));
  }

  /** The client, still blocked, sends a second message and fills the window: it is to be cut off, and nobody has
      asked for the service that does it. */
  lemma CutIsForgotten()
    ensures FullLegal(FullStart(1, 16, 2, 8), OWING + [MessageArrived(1, 8, ITEM, Quiet)], 2)
    ensures !NothingForgotten(FullStart(1, 16, 2, 8), OWING + [MessageArrived(1, 8, ITEM, Quiet)], 2)
  {
    hide FullLegal, FullRun, FullStart, NothingForgotten, ClientData;
    OwingRuns();
    OwingIsKnown();
    Extend(FullStart(1, 16, 2, 8), OWING, MessageArrived(1, 8, ITEM, Quiet));
    ForgetsAtLast(FullStart(1, 16, 2, 8), OWING, MessageArrived(1, 8, ITEM, Quiet));
  }
}
