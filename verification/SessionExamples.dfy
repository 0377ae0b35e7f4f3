/** Concrete runs in which the code does not do what its design intends; the exact conditions are
    `SessionWakeups.NoWakeupIsLost`, `SessionTheorems.RunWires`, `SessionTheorems.IdScanEnds` and
    `ClosingNotices.RunNotices`. */
module SessionExamples {
  import opened Basics
  import opened RouterEvents
  import opened Serials
  import opened Delivery
  import opened DeliveryProtocol
  import opened Channels
  import opened ChannelIds
  import opened Sessions
  import opened SessionInvariant
  import opened SessionSteps
  import opened SessionService
  import opened SessionRuns
  import opened SessionWakeups
  import opened ChannelHistory
  import opened SessionTheorems
  import opened ClosingNotices

  const OPENED := RouterEvent(1, 0, Status(StatusChange(StatusOpen, false, 1)))
  const BLOCKED := RouterEvent(2, 0, Status(StatusChange(StatusBlock, false, 1)))

  /** A text channel with a receiver at address 3, before and after it is added as an inbound channel of
      the session with address 1. */
  const RECEIVED := NewChannel(TextKind).(recvCallback := 3, holders := multiset{3})
  const LISTENED := RECEIVED.(listeners := [1], holders := multiset{1, 1, 3})
  const UNBLOCKED := LISTENED.(blocked := false, lastStatus := FlowOpen, broadcasts := [(FlowOpen, [1])])

  const ADDED_DELIVERY := Initial(16, 2).(
    log := [OPENED, BLOCKED], outgoing := [OPENED, BLOCKED], lastSerial := 2, requested := true)

  const ADDED := Session(1, ADDED_DELIVERY, map[1 := ChannelInfo(2, false, false, true)], map[], [], [], 1, 8, map[])

  const SENT := ADDED.(d := ADDED_DELIVERY.(
    requested := false, outgoing := [], sent := [OPENED, BLOCKED], blocked := true))

  lemma AnnouncedEvents()
    ensures Announce(Initial(16, 2), 1, false, true) == ADDED_DELIVERY
  {
  }

  lemma FirstId()
    ensures IsFree(1, {}, 8) && FirstFree(0, {}, 8) == 1
  {
  }

  lemma Registered()
    ensures Register(RECEIVED, 1, false) == LISTENED
  {
  }

  lemma AddedState()
    ensures var w := World(FullStart(1, 16, 2, 8).w.s, map[2 := RECEIVED]);
      CanAdd(w, 2) && AddChannel(w, 2, false) == World(ADDED, map[2 := LISTENED])
  {
    var w := World(FullStart(1, 16, 2, 8).w.s, map[2 := RECEIVED]);
    AnnouncedEvents();
    FirstId();
    Registered();
    assert w.s.active.Keys == {};
    assert w.chans[2 := LISTENED] == map[2 := LISTENED];
    assert w.s.active[1 := ChannelInfo(2, false, false, true)] == map[1 := ChannelInfo(2, false, false, true)];
  }

  lemma SentState()
    ensures Known(World(ADDED, map[2 := LISTENED]))
    ensures ProcessPending(World(ADDED, map[2 := LISTENED]), [], [SendOk, SendOkBlocked]).0
      == World(SENT, map[2 := LISTENED])
  {
    var codes := [SendOk, SendOkBlocked];
    var d := ADDED_DELIVERY.(requested := false);
    var d1 := d.(sent := [OPENED], outgoing := [BLOCKED]);
    var d2 := d.(sent := [OPENED, BLOCKED], outgoing := [], blocked := true);
    assert SendOne(d, SendOk).0 == d1;
    assert SendOne(d1, SendOkBlocked).0 == d2;
    assert SendLoop(d2, codes, 2).0 == d2;
    assert CodeAt(codes, 0) == SendOk && CodeAt(codes, 1) == SendOkBlocked;
    assert SendLoop(d1, codes, 1).0 == d2;
    assert SendLoop(d, codes, 0).0 == d2;
  }

  /** The channel opens: the session at address 1 schedules its backlog. */
  lemma UnblockedState(s: Session)
    requires s.active == ADDED.active && s.self == 1 && s.pendingUnblock == [] && Ready(s.d)
    ensures Allowed(LISTENED, OpUnblock)
    ensures ForeignNext(World(s, map[2 := LISTENED]), 2, OpUnblock)
      == World(s.(pendingUnblock := [1], d := RequestUnlessBlocked(s.d)), map[2 := UNBLOCKED])
  {
    assert Unblock(LISTENED) == UNBLOCKED;
    assert map[2 := LISTENED][2 := UNBLOCKED] == map[2 := UNBLOCKED];
    assert s.active[1].ptr == 2;
    assert IdOf(s, 2) == 1;
  }

  /** A channel is created, gets a receiver, and is added. */
  const ADDING := [ChannelCreated(2, TextKind), ChannelCalled(2, OpRegisterReceiver(3)), ChannelAdded(2, false)]

  lemma {:induction false} AppendFull(f: Full, first: seq<FullStep>, rest: seq<FullStep>)
    requires FullLegal(f, first, 2) && FullLegal(FullRun(f, first, 2), rest, 2)
    ensures FullLegal(f, first + rest, 2)
    ensures FullRun(f, first + rest, 2) == FullRun(FullRun(f, first, 2), rest, 2)
    decreases first
  {
    hide FullNext, FullEnabled, Known;
    if first == [] {
      assert first + rest == rest;
    } else {
      AppendFull(FullNext(f, first[0], 2), first[1..], rest);
      assert (first + rest)[1..] == first[1..] + rest;
    }
  }

  lemma OneFull(f: Full, step: FullStep)
    requires Known(f.w) && FullEnabled(f, step, 2)
    ensures FullLegal(f, [step], 2) && FullRun(f, [step], 2) == FullNext(f, step, 2)
  {
  }

  function WithWorld(w: World): Full {
    FullStart(1, 16, 2, 8).(w := w)
  }

  lemma ReceivedState()
    ensures var w := World(FullStart(1, 16, 2, 8).w.s, map[2 := NewChannel(TextKind)]);
      ForeignNext(w, 2, OpRegisterReceiver(3)) == World(w.s, map[2 := RECEIVED])
  {
    var s := FullStart(1, 16, 2, 8).w.s;
    assert RegisterReceiver(NewChannel(TextKind), 3) == RECEIVED;
    assert map[2 := NewChannel(TextKind)][2 := RECEIVED] == map[2 := RECEIVED];
  }

  lemma AddingRuns()
    ensures FullLegal(FullStart(1, 16, 2, 8), ADDING, 2)
    ensures FullRun(FullStart(1, 16, 2, 8), ADDING, 2) == WithWorld(World(ADDED, map[2 := LISTENED]))
  {
    var f0 := FullStart(1, 16, 2, 8);
    var f1 := WithWorld(World(f0.w.s, map[2 := NewChannel(TextKind)]));
    var f2 := WithWorld(World(f0.w.s, map[2 := RECEIVED]));
    assert map[][2 := NewChannel(TextKind)] == map[2 := NewChannel(TextKind)];
    OneFull(f0, ADDING[0]);
    ReceivedState();
    OneFull(f1, ADDING[1]);
    AddedState();
    OneFull(f2, ADDING[2]);
    AppendFull(f1, [ADDING[1]], [ADDING[2]]);
    AppendFull(f0, [ADDING[0]], [ADDING[1]] + [ADDING[2]]);
    assert ADDING == [ADDING[0]] + ([ADDING[1]] + [ADDING[2]]);
  }

  lemma Extend(f: Full, steps: seq<FullStep>, step: FullStep)
    requires FullLegal(f, steps, 2) && Known(FullRun(f, steps, 2).w)
    requires FullEnabled(FullRun(f, steps, 2), step, 2)
    ensures FullLegal(f, steps + [step], 2)
    ensures FullRun(f, steps + [step], 2) == FullNext(FullRun(f, steps, 2), step, 2)
  {
    hide FullNext, FullEnabled, Known;
    OneFull(FullRun(f, steps, 2), step);
    AppendFull(f, steps, [step]);
  }

  /** The client blocks, the channel opens, the client unblocks: the backlog of the channel is scheduled,
      nothing stands in its way, and nobody has asked for service. */
  const LOSING := ADDING + [Serviced([], [SendOk, SendOkBlocked])] + [ChannelCalled(2, OpUnblock)]
    + [Delivered(ConnectionUnblocks)]

  lemma SendingStep(f: Full)
    requires f.w == World(ADDED, map[2 := LISTENED])
    ensures var serve := Serviced([], [SendOk, SendOkBlocked]);
      && Known(f.w) && FullEnabled(f, serve, 2) && FullNext(f, serve, 2).w == World(SENT, map[2 := LISTENED])
  {
    SentState();
    ServedNet(f, Serviced([], [SendOk, SendOkBlocked]));
  }

  lemma UnblockingStep(f: Full, s: Session)
    requires f.w == World(s, map[2 := LISTENED]) && Ready(s.d)
    requires s.active == ADDED.active && s.self == 1 && s.pendingUnblock == []
    ensures var call := ChannelCalled(2, OpUnblock);
      && Known(f.w) && FullEnabled(f, call, 2)
      && FullNext(f, call, 2).w
         == World(s.(pendingUnblock := [1], d := RequestUnlessBlocked(s.d)), map[2 := UNBLOCKED])
  {
    UnblockedState(s);
    CalledUnblock(f, f.w);
  }

  lemma ConnectionStep(f: Full)
    requires f.w == World(SENT.(pendingUnblock := [1]), map[2 := UNBLOCKED])
    ensures var step := Delivered(ConnectionUnblocks);
      Known(f.w) && FullEnabled(f, step, 2) && !UnblocksAwake(FullNext(f, step, 2).w.s)
  {
  }

  lemma WakeupIsLost()
    ensures FullLegal(FullStart(1, 16, 2, 8), LOSING, 2)
    ensures !UnblocksAwake(FullRun(FullStart(1, 16, 2, 8), LOSING, 2).w.s)
  {
    hide FullNext, FullEnabled, Known, FullLegal, FullRun, FullStart, UnblocksAwake;
    var f := FullStart(1, 16, 2, 8);
    var serve, call := Serviced([], [SendOk, SendOkBlocked]), ChannelCalled(2, OpUnblock);
    AddingRuns();
    SendingStep(FullRun(f, ADDING, 2));
    Extend(f, ADDING, serve);
    UnblockingStep(FullRun(f, ADDING + [serve], 2), SENT);
    Extend(f, ADDING + [serve], call);
    ConnectionStep(FullRun(f, ADDING + [serve] + [call], 2));
    Extend(f, ADDING + [serve] + [call], Delivered(ConnectionUnblocks));
  }

  /** A service touches the world and the connection only. */
  lemma ServedNet(f: Full, step: FullStep)
    requires Known(f.w) && step.Serviced?
    ensures FullEnabled(f, step, 2) && FullNext(f, step, 2).w == ProcessPending(f.w, step.reactions, step.codes).0
  {
  }

  lemma CalledUnblock(f: Full, w: World)
    requires f.w == w && 2 in w.chans && w.chans[2] == LISTENED && w.s.self == 1 && Known(w)
    ensures FullEnabled(f, ChannelCalled(2, OpUnblock), 2)
    ensures FullNext(f, ChannelCalled(2, OpUnblock), 2).w == ForeignNext(w, 2, OpUnblock)
  {
  }

  /** A message waits, the channel opens, and the receiver closes it while it is handed the message. */
  const HOLDING := ADDING + [MessageArrived(1, 1, Text(TextLine("hello")), Quiet)] + [ChannelCalled(2, OpUnblock)]
  const CLOSING := HOLDING + [Serviced([[Closes]], [])]

  const HELD := ADDED.(
    d := ADDED_DELIVERY.(incomingSerAck := 1, needsIncomingAck := true),
    queues := map[1 := [RouterEvent(1, 0, Text(TextLine("hello")))]], taken := map[2 := [Text(TextLine("hello"))]])

  lemma HeldState()
    ensures Known(World(ADDED, map[2 := LISTENED]))
    ensures ClientData(World(ADDED, map[2 := LISTENED]), 1, 1, Text(TextLine("hello")), Quiet)
      == World(HELD, map[2 := LISTENED])
  {
    var w, item := World(ADDED, map[2 := LISTENED]), Text(TextLine("hello"));
    LockThenUnlock(LISTENED, 1);
    var received := Receive(w, 1, 1, item);
    assert [] + [item] == [item];
    assert received.s.taken == HELD.taken;
    assert received.s == HELD.(queues := map[]);
    assert [] + [RouterEvent(1, 0, item)] == [RouterEvent(1, 0, item)];
    var handled := Handle(received, 1, RouterEvent(1, 0, item), Quiet);
    assert handled.s == HELD;
    assert Release(handled, 2).chans == map[2 := LISTENED];
  }

  lemma OpenedMisreports(s: Session)
    requires s.active == ADDED.active && s.queues == HELD.queues && s.pendingUnblock == [1]
    requires s.pendingDelete == [] && !s.d.needDisconnect
    ensures ServiceMisreports(World(s, map[2 := UNBLOCKED]), [[Closes]])
  {
    var begun := World(s.(d := s.d.(requested := false)), map[2 := UNBLOCKED]);
    assert ProcessDeletes(begun) == begun;
    assert |QueueOf(begun.s, 1)| == 1;
    assert ReactionAt([Closes], 0).Closes?;
    assert Misreports(begun, [1][0], ReactionsFor([[Closes]], 0));
  }

  lemma {:induction false} NoServiceNoMisreport(f: Full, steps: seq<FullStep>)
    requires FullLegal(f, steps, 2) && forall i :: 0 <= i < |steps| ==> !steps[i].Serviced?
    ensures NoMisreport(f, steps, 2)
    decreases steps
  {
    hide FullNext, FullEnabled, Known, ServiceMisreports;
    if steps != [] { NoServiceNoMisreport(FullNext(f, steps[0], 2), steps[1..]); }
  }

  lemma HoldingRuns()
    ensures FullLegal(FullStart(1, 16, 2, 8), HOLDING, 2)
    ensures FullRun(FullStart(1, 16, 2, 8), HOLDING, 2).w
      == World(HELD.(pendingUnblock := [1], d := Request(HELD.d)), map[2 := UNBLOCKED])
  {
    hide FullNext, FullEnabled, Known, FullLegal, FullRun, FullStart;
    var f := FullStart(1, 16, 2, 8);
    var arrive := MessageArrived(1, 1, Text(TextLine("hello")), Quiet);
    AddingRuns();
    ArrivingStep(FullRun(f, ADDING, 2));
    Extend(f, ADDING, arrive);
    UnblockingStep(FullRun(f, ADDING + [arrive], 2), HELD);
    Extend(f, ADDING + [arrive], ChannelCalled(2, OpUnblock));
  }

  /** No service has run yet, so all is well so far. */
  lemma HoldingIsWired()
    requires FullLegal(FullStart(1, 16, 2, 8), HOLDING, 2)
    ensures FullInv(FullRun(FullStart(1, 16, 2, 8), HOLDING, 2), 2)
    ensures WireGood(FullRun(FullStart(1, 16, 2, 8), HOLDING, 2).w.s)
  {
    hide FullNext, FullEnabled, Known, FullLegal, FullRun, FullStart, AllWellFormed, WireGood, FullInv;
    var f := FullStart(1, 16, 2, 8);
    StartIsFull(1, 16, 2, 8, 2);
    FullRunKeeps(f, HOLDING, 2);
    NoServiceNoMisreport(f, HOLDING);
    StartWires(1, 16, 2, 8);
    RunWires(f, HOLDING, 2);
  }

  /** The client is told that a channel it was told is closed has been unblocked. */
  lemma UnblockFollowsClose()
    ensures FullLegal(FullStart(1, 16, 2, 8), CLOSING, 2)
    ensures !AllWellFormed(FullRun(FullStart(1, 16, 2, 8), CLOSING, 2).w.s.d.log)
  {
    hide FullNext, FullEnabled, Known, FullLegal, FullRun, FullStart, AllWellFormed, ServiceMisreports, WireGood,
      FullInv;
    HoldingRuns();
    HoldingIsWired();
    var g, serve := FullRun(FullStart(1, 16, 2, 8), HOLDING, 2), Serviced([[Closes]], []);
    InvIsKnown(g, 2);
    ServedNet(g, serve);
    Extend(FullStart(1, 16, 2, 8), HOLDING, serve);
    OpenedMisreports(g.w.s);
    StepWires(g, serve, 2);
  }

  lemma ArrivingStep(f: Full)
    requires f.w == World(ADDED, map[2 := LISTENED])
    ensures var step := MessageArrived(1, 1, Text(TextLine("hello")), Quiet);
      Known(f.w) && FullEnabled(f, step, 2) && FullNext(f, step, 2).w == World(HELD, map[2 := LISTENED])
  {
    hide ClientData;
    HeldState();
  }

  // ----- A table that fills up -----

  /** With a maximum of 2 there is one usable id, so one channel fills the table. */
  const FILLING := [ChannelCreated(2, TextKind), ChannelAdded(2, false)]

  lemma FillingRuns()
    ensures FullLegal(FullStart(1, 16, 2, 2), FILLING, 2)
    ensures var s := FullRun(FullStart(1, 16, 2, 2), FILLING, 2).w.s; s.maxChannels == 2 && |s.active| == 1
  {
    hide Announce, Register, FirstFree;
    var f0 := FullStart(1, 16, 2, 2);
    var f1 := f0.(w := World(f0.w.s, map[2 := NewChannel(TextKind)]));
    assert map[][2 := NewChannel(TextKind)] == map[2 := NewChannel(TextKind)];
    OneFull(f0, FILLING[0]);
    OneFull(f1, FILLING[1]);
    AppendFull(f0, [FILLING[0]], [FILLING[1]]);
    assert FILLING == [FILLING[0]] + [FILLING[1]];
  }

  /** The guard of the code passes, and the scan for the next id does not end. */
  lemma ScanNeverEnds()
    ensures FullLegal(FullStart(1, 16, 2, 2), FILLING, 2)
    ensures var s := FullRun(FullStart(1, 16, 2, 2), FILLING, 2).w.s;
      |s.active| < s.maxChannels && !ScanEnds(s.lastChannelId, s.active.Keys, s.maxChannels)
  {
    hide FullNext, FullEnabled, Known, FullLegal, FullRun, FullStart, FullInv, ScanEnds;
    FillingRuns();
    StartIsFull(1, 16, 2, 2, 2);
    FullRunKeeps(FullStart(1, 16, 2, 2), FILLING, 2);
    IdScanEnds(FullRun(FullStart(1, 16, 2, 2), FILLING, 2), 2);
  }

  // ----- A channel that closes before it is added -----

  const CLOSED := RECEIVED.(closed := true, lastStatus := FlowClosed, broadcasts := [(FlowClosed, [])])
  const CLOSE_FIRST := [ChannelCreated(2, TextKind), ChannelCalled(2, OpRegisterReceiver(3)), ChannelCalled(2, OpClose)]
  const MISSING := CLOSE_FIRST + [ChannelAdded(2, false)] + [Serviced([], [])]

  lemma CloseFirstRuns()
    ensures FullLegal(FullStart(1, 16, 2, 8), CLOSE_FIRST, 2)
    ensures FullRun(FullStart(1, 16, 2, 8), CLOSE_FIRST, 2) == WithWorld(World(FullStart(1, 16, 2, 8).w.s, map[2 := CLOSED]))
  {
    var f0 := FullStart(1, 16, 2, 8);
    var f1 := WithWorld(World(f0.w.s, map[2 := NewChannel(TextKind)]));
    var f2 := WithWorld(World(f0.w.s, map[2 := RECEIVED]));
    assert map[][2 := NewChannel(TextKind)] == map[2 := NewChannel(TextKind)];
    OneFull(f0, CLOSE_FIRST[0]);
    ReceivedState();
    OneFull(f1, CLOSE_FIRST[1]);
    ClosedState(f2);
    OneFull(f2, CLOSE_FIRST[2]);
    AppendFull(f1, [CLOSE_FIRST[1]], [CLOSE_FIRST[2]]);
    AppendFull(f0, [CLOSE_FIRST[0]], [CLOSE_FIRST[1]] + [CLOSE_FIRST[2]]);
    assert CLOSE_FIRST == [CLOSE_FIRST[0]] + ([CLOSE_FIRST[1]] + [CLOSE_FIRST[2]]);
  }

  lemma ClosedChannel()
    ensures Allowed(RECEIVED, OpClose) && Apply(RECEIVED, OpClose) == CLOSED
  {
    hide InternalClose, NeedDelete;
    ClosedButHeld();
    assert DeleteIfUnused(CLOSED) == CLOSED;
  }

  lemma ClosedButHeld()
    ensures InternalClose(RECEIVED) == CLOSED && !NeedDelete(CLOSED)
  {
    assert [] + [(FlowClosed, [])] == CLOSED.broadcasts;
    assert 3 in CLOSED.holders;
  }

  /** Nobody listens, so the session is not called. */
  lemma ClosedCall(w: World)
    requires w.chans == map[2 := RECEIVED] && w.s.self == 1 && Ready(w.s.d)
    ensures Allowed(RECEIVED, OpClose) && ForeignNext(w, 2, OpClose) == w.(chans := map[2 := CLOSED])
  {
    hide Apply, Allowed, FlowCall;
    ClosedChannel();
    assert !Broadcasts(RECEIVED, CLOSED, 1);
    assert map[2 := RECEIVED][2 := CLOSED] == map[2 := CLOSED];
  }

  lemma ClosedState(f: Full)
    requires f == WithWorld(World(FullStart(1, 16, 2, 8).w.s, map[2 := RECEIVED]))
    ensures Known(f.w) && FullEnabled(f, ChannelCalled(2, OpClose), 2)
    ensures FullNext(f, ChannelCalled(2, OpClose), 2) == WithWorld(World(FullStart(1, 16, 2, 8).w.s, map[2 := CLOSED]))
  {
    hide ForeignNext;
    ClosedCall(f.w);
  }

  lemma AddingClosed(f: Full)
    requires f == WithWorld(World(FullStart(1, 16, 2, 8).w.s, map[2 := CLOSED]))
    ensures var step := ChannelAdded(2, false);
      && Known(f.w) && FullEnabled(f, step, 2) && AddsClosed(f, step) && FullNext(f, step, 2).w.s.lastChannelId == 1
  {
    hide Announce, Register;
    FirstId();
    assert f.w.s.active.Keys == {};
  }

  /** The session works on a closed channel, takes it for an open one, does not mean to let it go, and the client
      has not been told. */
  lemma ClosingIsMissed()
    ensures FullLegal(FullStart(1, 16, 2, 8), MISSING, 2)
    ensures var w := FullRun(FullStart(1, 16, 2, 8), MISSING, 2).w;
      Missed(w, 1, 2) && 1 !in w.s.pendingDelete && Closings(w.s.d.log, 1) == 0
  {
    hide FullNext, FullEnabled, Known, FullLegal, FullRun, FullInv, Closings;
    var f, add, serve := FullStart(1, 16, 2, 8), ChannelAdded(2, false), Serviced([], []);
    CloseFirstRuns();
    var closed := FullRun(f, CLOSE_FIRST, 2);
    StartIsFull(1, 16, 2, 8, 2);
    FullRunKeeps(f, CLOSE_FIRST, 2);
    AddingClosed(closed);
    Extend(f, CLOSE_FIRST, add);
    var added := FullNext(closed, add, 2);
    FullStepKeeps(closed, add, 2);
    InvIsKnown(added, 2);
    ServedNet(added, serve);
    Extend(f, CLOSE_FIRST + [add], serve);
    OneFull(added, serve);
    StepNotices(closed, add, 2, 1, 2);
    AddedIsNew(closed, 2, false, 2);
    MissedStays(added, [serve], 2, 1, 2);
    assert Closings([], 1) == 0 by { NothingTold(); }
  }

  lemma NothingTold()
    ensures Closings([], 1) == 0
  {
  }
}
