/** What the invariant of `DeliveryProtocol` gives: a compliant client is never cut off by the
    acknowledgement logic, the window is respected, when recovery is possible and when it is not. */
module DeliveryTheorems {
  import opened RouterEvents
  import opened Serials
  import opened Delivery
  import opened DeliveryProtocol

  /** In any run, handling what a compliant client sent back never flags a disconnect, whether or not it
      lost its state on the way: every acknowledged serial is in the sent queue, and every reconnect
      reply is expected and is 0, the acknowledged serial, or in the sent queue. */
  lemma CompliantClientStaysConnected(modulus: nat, window: nat, maxWindow: nat, steps: seq<Step>)
    requires window <= maxWindow && maxWindow + 1 < modulus
    requires Legal(Start(modulus, window), steps, maxWindow)
    requires Run(Start(modulus, window), steps, maxWindow).net.up != []
    ensures var s := Run(Start(modulus, window), steps, maxWindow);
      && SessionTakes(s).d.needDisconnect == s.d.needDisconnect
      && (match s.net.up[0]
          case ReplyAck(serial, _) => serial != 0 && FindSerial(s.d.sent, serial) < |s.d.sent|
          case ReplyReconnect(serial, _) =>
            && s.d.waitReconnect
            && (serial == 0 || serial == s.d.outgoingSerAck || FindSerial(s.d.sent, serial) < |s.d.sent|))
  {
    StartIsGood(modulus, window, maxWindow);
    RunKeeps(Start(modulus, window), steps, maxWindow);
    var s := Run(Start(modulus, window), steps, maxWindow);
    ReplyIsExpected(s, maxWindow);
  }

  lemma AckIsExpected(s: System, maxWindow: nat)
    requires Inv(s, maxWindow) && s.net.up != [] && s.net.up[0].ReplyAck?
    ensures SessionTakes(s).d.needDisconnect == s.d.needDisconnect
    ensures var serial := s.net.up[0].serial; serial != 0 && FindSerial(s.d.sent, serial) < |s.d.sent|
  {
    hide Acknowledge, SessionTakes;
    SessionTakesAckKeeps(s, maxWindow);
    AckedSerialIsFound(s.d, s.net.up[0].count);
    SerialRange(s.d.modulus, s.net.up[0].count);
  }

  lemma ReconnectIsExpected(s: System, maxWindow: nat)
    requires Inv(s, maxWindow) && s.net.up != [] && s.net.up[0].ReplyReconnect?
    ensures SessionTakes(s).d.needDisconnect == s.d.needDisconnect && s.d.waitReconnect
    ensures var serial := s.net.up[0].serial;
      serial == 0 || serial == s.d.outgoingSerAck || FindSerial(s.d.sent, serial) < |s.d.sent|
  {
    hide AcknowledgeReconnect, SessionTakes, FindSerial;
    SessionTakesReconnectKeeps(s, maxWindow);
    ReplyNames(s, maxWindow);
    if Acked(s.d) < |s.client.received| { AckedSerialIsFound(s.d, |s.client.received|); }
  }

  lemma ReplyIsExpected(s: System, maxWindow: nat)
    requires Inv(s, maxWindow) && s.net.up != []
    ensures SessionTakes(s).d.needDisconnect == s.d.needDisconnect
    ensures match s.net.up[0]
      case ReplyAck(serial, _) => serial != 0 && FindSerial(s.d.sent, serial) < |s.d.sent|
      case ReplyReconnect(serial, _) =>
        && s.d.waitReconnect
        && (serial == 0 || serial == s.d.outgoingSerAck || FindSerial(s.d.sent, serial) < |s.d.sent|)
  {
    hide Inv, SessionTakes, FindSerial;
    match s.net.up[0]
    case ReplyAck(_, _) => AckIsExpected(s, maxWindow);
    case ReplyReconnect(_, _) => ReconnectIsExpected(s, maxWindow);
  }

  // ----- The window -----

  predicate WindowRespected(d: State) {
    |d.sent| <= d.window || d.waitReconnect || d.needDisconnect
  }

  lemma StepRespectsWindow(s: System, step: Step, maxWindow: nat)
    requires Inv(s, maxWindow) && Enabled(s, step, maxWindow) && WindowRespected(s.d)
    ensures WindowRespected(Next(s, step, maxWindow).d)
  {
    hide InFlight, Service, HostAll, Acknowledge, AcknowledgeReconnect;
    match step
    case HostStep(ops) => HostAllKeeps(s.d, ops);
    case ServiceStep(ops, codes) => ServiceRespectsWindow(s, ops, codes, maxWindow);
    case SessionReceives => RepliesRespectWindow(s.d, s.net.up[0].serial);
    case _ =>
  }

  lemma ServiceRespectsWindow(s: System, ops: seq<HostOp>, codes: seq<SendCode>, maxWindow: nat)
    requires Inv(s, maxWindow) && WindowRespected(s.d)
    ensures Ready(s.d) && WindowRespected(Service(s.d, ops, codes).0)
  {
    hide Inv, TwoCursor, HostAll, SendPhase;
    CursorsIgnoreRequests(s, maxWindow);
    if !s.d.needDisconnect {
      var d := s.d.(requested := false);
      HostAllKeeps(d, ops);
      SendPhaseRespectsWindow(HostAll(d, ops), codes);
    }
  }

  lemma RepliesRespectWindow(d: State, serial: nat)
    requires WindowRespected(d)
    ensures WindowRespected(Acknowledge(d, serial)) && WindowRespected(AcknowledgeReconnect(d, serial))
  {
  }

  lemma SendPhaseRespectsWindow(d: State, codes: seq<SendCode>)
    requires TwoCursor(d) && WindowRespected(d)
    ensures WindowRespected(SendPhase(d, codes).0)
  {
    var t := AfterSend(d.(needsIncomingAck := false), CodeAt(codes, 0));
    Recut(d, t, Acked(d), Handed(d));
    SendLoopKeeps(t, codes, 1);
    SendLoopKeeps(d, codes, 0);
  }

  /** At all times at most a window of events is unacknowledged, unless a reconnect reply is awaited
      or a disconnect is pending. */
  lemma {:induction false} RunRespectsWindow(s: System, steps: seq<Step>, maxWindow: nat)
    requires Inv(s, maxWindow) && WindowRespected(s.d) && Legal(s, steps, maxWindow)
    ensures WindowRespected(Run(s, steps, maxWindow).d)
    decreases steps
  {
    if steps != [] {
      StepKeeps(s, steps[0], maxWindow);
      StepRespectsWindow(s, steps[0], maxWindow);
      RunRespectsWindow(Next(s, steps[0], maxWindow), steps[1..], maxWindow);
    }
  }

  // ----- When a reconnect gets stuck -----

  /** The session waits for a reply the client was never asked for. */
  predicate Stuck(s: System) {
    && s.d.waitReconnect && !s.d.needHandleReconnect
    && s.net.down == [] && s.net.up == []
    && (s.net.live ==> s.client.resuming)
  }

  predicate NeverForgets(steps: seq<Step>) {
    forall i :: 0 <= i < |steps| ==> !steps[i].ClientForgets?
  }

  /** Once stuck, no run without a new connection delivers anything more. */
  lemma {:induction false} StuckUntilNewConnection(s: System, steps: seq<Step>, maxWindow: nat)
    requires Inv(s, maxWindow) && Stuck(s) && Legal(s, steps, maxWindow)
    requires forall i :: 0 <= i < |steps| ==> !steps[i].Reconnects?
    ensures Run(s, steps, maxWindow).client.received <= s.client.received
    ensures NeverForgets(steps) ==> Run(s, steps, maxWindow).client.received == s.client.received
    decreases steps
  {
    hide Inv, Next, Enabled, Stuck;
    if steps != [] {
      StepKeeps(s, steps[0], maxWindow);
      StuckStep(s, steps[0], maxWindow);
      StuckUntilNewConnection(Next(s, steps[0], maxWindow), steps[1..], maxWindow);
    }
  }

  lemma StuckStep(s: System, step: Step, maxWindow: nat)
    requires Inv(s, maxWindow) && Stuck(s) && Enabled(s, step, maxWindow) && !step.Reconnects?
    ensures Stuck(Next(s, step, maxWindow)) && Next(s, step, maxWindow).client.received <= s.client.received
    ensures !step.ClientForgets? ==> Next(s, step, maxWindow).client == s.client
  {
    hide HostAll, InFlight;
    match step
    case HostStep(ops) => HostAllKeeps(s.d, ops);
    case ServiceStep(ops, codes) =>
      assert TwoCursor(s.d.(requested := false));
      HostAllKeeps(s.d.(requested := false), ops);
    case _ =>
  }

  // ----- Recovery -----

  /** Connected, caught up with the acknowledgements, nothing in flight, free to send. */
  predicate Resumed(s: System) {
    && s.net == Net(true, [], [])
    && !s.client.resuming && s.client.acked == |s.client.received|
    && !s.d.needHandleReconnect && !s.d.waitReconnect && !s.d.needDisconnect && !s.d.blocked
    && !s.d.needsIncomingAck && s.d.sent == [] && 1 <= s.d.window
  }

  /** One event is sent, received, acknowledged, and the connection unblocks. */
  function Round(received: nat): seq<Step> {
    [ServiceStep([], [SendOkBlocked]), ClientReceives, ClientAcks(received + 1), SessionReceives,
     ConnectionUnblocks]
  }

  lemma RunCons(s: System, step: Step, rest: seq<Step>, maxWindow: nat)
    requires Enabled(s, step, maxWindow) && Legal(Next(s, step, maxWindow), rest, maxWindow)
    ensures Legal(s, [step] + rest, maxWindow)
    ensures Run(s, [step] + rest, maxWindow) == Run(Next(s, step, maxWindow), rest, maxWindow)
  {
  }

  lemma {:induction false} RunAppend(s: System, first: seq<Step>, rest: seq<Step>, maxWindow: nat)
    requires Legal(s, first, maxWindow) && Legal(Run(s, first, maxWindow), rest, maxWindow)
    ensures Legal(s, first + rest, maxWindow)
    ensures Run(s, first + rest, maxWindow) == Run(Run(s, first, maxWindow), rest, maxWindow)
    decreases first
  {
    if first == [] {
      assert first + rest == rest;
    } else {
      RunAppend(Next(s, first[0], maxWindow), first[1..], rest, maxWindow);
      RunCons(s, first[0], first[1..] + rest, maxWindow);
      assert first + rest == [first[0]] + (first[1..] + rest);
    }
  }

  lemma ServiceSendsOne(d: State)
    requires Ready(d) && d.outgoing != [] && d.sent == [] && 1 <= d.window
    requires !d.needHandleReconnect && !d.waitReconnect && !d.needDisconnect && !d.blocked
    requires !d.needsIncomingAck
    ensures Service(d, [], [SendOkBlocked]) ==
      (d.(requested := false, blocked := true, sent := [d.outgoing[0]], outgoing := d.outgoing[1..]),
       [WireData(d.outgoing[0])])
  {
    var t := d.(requested := false);
    var mid := SendOne(t, SendOkBlocked).0;
    assert HostAll(t, []) == t;
    assert [] + [d.outgoing[0]] == [d.outgoing[0]];
    assert CodeAt([SendOkBlocked], 0) == SendOkBlocked;
    assert SendLoop(mid, [SendOkBlocked], 1) == (mid, []);
    assert [WireData(d.outgoing[0])] + [] == [WireData(d.outgoing[0])];
    assert SendLoop(t, [SendOkBlocked], 0) == (mid, [WireData(d.outgoing[0])]);
  }

  /** The five steps of a round, state by state. */
  lemma RoundStates(s: System, maxWindow: nat)
    requires Resumed(s) && Ready(s.d) && s.d.outgoing != [] && s.d.outgoing[0].serial != 0
    ensures var event, all := s.d.outgoing[0], |s.client.received| + 1;
      var steps := Round(|s.client.received|);
      && Legal(s, steps, maxWindow)
      && var t := Run(s, steps, maxWindow);
        && Resumed(t) && t.d.log == s.d.log && t.d.outgoing == s.d.outgoing[1..]
  {
    var event, r := s.d.outgoing[0], |s.client.received|;
    var received := s.client.received + [event];
    ServiceSendsOne(s.d);
    var d1 := Service(s.d, [], [SendOkBlocked]).0;
    var s1 := s.(d := d1, net := Net(true, [WireData(event)], []));
    var s2 := s1.(net := Net(true, [], []), client := s.client.(received := received));
    var s3 := s2.(net := Net(true, [], [ReplyAck(event.serial, r + 1)]),
                  client := s2.client.(acked := r + 1));
    var s4 := SessionTakes(s3);
    assert FindSerial([event], event.serial) == 0;
    var s5 := s4.(d := Unblocked(s4.d));
    assert s1 == Next(s, ServiceStep([], [SendOkBlocked]), maxWindow);
    assert s2 == Next(s1, ClientReceives, maxWindow);
    assert s3 == Next(s2, ClientAcks(r + 1), maxWindow);
    assert s4 == Next(s3, SessionReceives, maxWindow);
    assert s5 == Next(s4, ConnectionUnblocks, maxWindow);
    RoundRuns(s, s1, s2, s3, s4, s5, r, maxWindow);
  }

  lemma RoundRuns(s: System, s1: System, s2: System, s3: System, s4: System, s5: System, r: nat, maxWindow: nat)
    requires Enabled(s, ServiceStep([], [SendOkBlocked]), maxWindow)
    requires s1 == Next(s, ServiceStep([], [SendOkBlocked]), maxWindow)
    requires Enabled(s1, ClientReceives, maxWindow) && s2 == Next(s1, ClientReceives, maxWindow)
    requires Enabled(s2, ClientAcks(r + 1), maxWindow) && s3 == Next(s2, ClientAcks(r + 1), maxWindow)
    requires Enabled(s3, SessionReceives, maxWindow) && s4 == Next(s3, SessionReceives, maxWindow)
    requires Enabled(s4, ConnectionUnblocks, maxWindow) && s5 == Next(s4, ConnectionUnblocks, maxWindow)
    ensures Legal(s, Round(r), maxWindow) && Run(s, Round(r), maxWindow) == s5
  {
    hide Enabled, Next;
    assert Legal(s5, [], maxWindow) && Run(s5, [], maxWindow) == s5;
    RunCons(s4, ConnectionUnblocks, [], maxWindow);
    RunCons(s3, SessionReceives, [ConnectionUnblocks], maxWindow);
    RunCons(s2, ClientAcks(r + 1), [SessionReceives, ConnectionUnblocks], maxWindow);
    RunCons(s1, ClientReceives, [ClientAcks(r + 1), SessionReceives, ConnectionUnblocks], maxWindow);
    RunCons(s, ServiceStep([], [SendOkBlocked]),
            [ClientReceives, ClientAcks(r + 1), SessionReceives, ConnectionUnblocks], maxWindow);
    assert Round(r) == [ServiceStep([], [SendOkBlocked])]
      + [ClientReceives, ClientAcks(r + 1), SessionReceives, ConnectionUnblocks];
  }

  lemma {:induction false} ResumedCanFinish(s: System, maxWindow: nat) returns (steps: seq<Step>)
    requires Inv(s, maxWindow) && Resumed(s)
    ensures Legal(s, steps, maxWindow) && forall i :: 0 <= i < |steps| ==> !steps[i].Reconnects?
    ensures Run(s, steps, maxWindow).client.received == s.d.log
    decreases |s.d.outgoing|
  {
    if s.d.outgoing == [] {
      steps := [];
      assert s.d.log[..|s.d.log|] == s.d.log;
    } else {
      var round := Round(|s.client.received|);
      assert s.d.outgoing[0] == s.d.log[Handed(s.d)];
      SerialRange(s.d.modulus, Handed(s.d) + 1);
      RoundStates(s, maxWindow);
      RunKeeps(s, round, maxWindow);
      var rest := ResumedCanFinish(Run(s, round, maxWindow), maxWindow);
      RunAppend(s, round, rest, maxWindow);
      steps := round + rest;
    }
  }

  /** What is left of the handshake once the session's greeting is on the wire. */
  const HANDSHAKE: seq<Step> := [ClientReceives, SessionReceives, ConnectionUnblocks]

  lemma HandshakeResumes(s: System, maxWindow: nat)
    requires Inv(s, maxWindow) && s.net.live && s.d.waitReconnect && !s.d.needHandleReconnect
    requires |s.net.down| == 1 && !s.d.needDisconnect && !s.d.needsIncomingAck && 1 <= s.d.window
    ensures Legal(s, HANDSHAKE, maxWindow)
    ensures Resumed(Run(s, HANDSHAKE, maxWindow)) && Run(s, HANDSHAKE, maxWindow).d.log == s.d.log
  {
    hide Names, AcknowledgeReconnect;
    var r, serial := |s.client.received|, LastSerial(Remembered(s.client));
    var s1 := ClientTakes(s);
    assert s1.net.up == [ReplyReconnect(serial, r)];
    ReplyNames(s, maxWindow);
    ReconnectMovesCursor(s.d, serial, r);
    ReconnectLeavesFlags(s.d, serial);
    var s2 := SessionTakes(s1);
    var s3 := s2.(d := Unblocked(s2.d));
    assert Legal(s3, [], maxWindow) && Run(s3, [], maxWindow) == s3;
    RunCons(s2, ConnectionUnblocks, [], maxWindow);
    RunCons(s1, SessionReceives, [ConnectionUnblocks], maxWindow);
    RunCons(s, ClientReceives, [SessionReceives, ConnectionUnblocks], maxWindow);
    assert HANDSHAKE == [ClientReceives] + [SessionReceives, ConnectionUnblocks];
  }

  lemma ReconnectLeavesFlags(d: State, serial: nat)
    ensures var next := AcknowledgeReconnect(d, serial);
      && next.needsIncomingAck == d.needsIncomingAck
      && next.needHandleReconnect == d.needHandleReconnect
      && (next.needDisconnect || next.sent == [])
  {
    AnswerLeavesFlags(d, serial);
  }

  lemma AnswerLeavesFlags(d: State, serial: nat)
    ensures Answer(d, serial).needsIncomingAck == d.needsIncomingAck
    ensures Answer(d, serial).needHandleReconnect == d.needHandleReconnect
  {
  }

  predicate NoReconnects(steps: seq<Step>) {
    forall i :: 0 <= i < |steps| ==> !steps[i].Reconnects?
  }

  /** Some run on the present connection delivers everything queued so far. */
  ghost predicate CanFinish(s: System, maxWindow: nat) {
    exists steps :: Legal(s, steps, maxWindow) && NoReconnects(steps)
      && Run(s, steps, maxWindow).client.received == s.d.log
  }

  lemma GreetedCanFinish(s: System, maxWindow: nat)
    requires Inv(s, maxWindow) && s.net.live && s.d.waitReconnect && !s.d.needHandleReconnect
    requires |s.net.down| == 1 && !s.d.needDisconnect && !s.d.needsIncomingAck && 1 <= s.d.window
    ensures CanFinish(s, maxWindow)
  {
    HandshakeResumes(s, maxWindow);
    RunKeeps(s, HANDSHAKE, maxWindow);
    var rest := ResumedCanFinish(Run(s, HANDSHAKE, maxWindow), maxWindow);
    RunAppend(s, HANDSHAKE, rest, maxWindow);
    assert NoReconnects(HANDSHAKE + rest);
  }

  lemma StuckCanFinish(s: System, maxWindow: nat)
    requires Inv(s, maxWindow) && Stuck(s)
    ensures CanFinish(s, maxWindow) <==> s.client.received == s.d.log
  {
    hide Inv, Stuck;
    forall steps | Legal(s, steps, maxWindow) && NoReconnects(steps)
      ensures Run(s, steps, maxWindow).client.received <= s.client.received
    {
      StuckUntilNewConnection(s, steps, maxWindow);
    }
    ReceivedIsLogged(s, maxWindow);
    if s.client.received == s.d.log {
      assert Legal(s, [], maxWindow) && NoReconnects([]);
    }
  }

  /** While the reconnect acknowledgement is still to be sent, nothing is in flight. */
  lemma NothingInFlight(s: System, maxWindow: nat)
    requires Inv(s, maxWindow) && s.net.live && s.d.needHandleReconnect
    ensures s.net == Net(true, [], []) && s.client.resuming
    ensures Ready(s.d) && TwoCursor(s.d.(requested := false))
  {
  }

  /** The service sends the reconnect acknowledgement and nothing else, and goes on as if it had arrived. */
  lemma GreetingOutcome(s: System, ops: seq<HostOp>, codes: seq<SendCode>, maxWindow: nat)
    requires Inv(s, maxWindow) && s.net.live && s.d.needHandleReconnect && 1 <= s.d.window
    requires !s.d.needDisconnect
    requires !HostAll(s.d.(requested := false), ops).needDisconnect
    ensures var t := Next(s, ServiceStep(ops, codes), maxWindow);
      && t.net.live && t.d.waitReconnect && !t.d.needHandleReconnect && !t.d.needDisconnect && !t.d.needsIncomingAck
      && 1 <= t.d.window
      && (if Accepted(CodeAt(codes, 0)) then |t.net.down| == 1 else Stuck(t))
  {
    hide Inv, TwoCursor, HostAll, SendLoop;
    NothingInFlight(s, maxWindow);
    HostAllKeeps(s.d.(requested := false), ops);
  }

  /** The answer to the reconnect acknowledgement is not looked at
      (comm_ClientSession.cpp:250-254). After the service that sends it, the connection can still
      deliver the rest exactly when that one message was accepted. */
  lemma GreetingDecides(s: System, ops: seq<HostOp>, codes: seq<SendCode>, maxWindow: nat)
    requires Inv(s, maxWindow) && s.net.live && s.d.needHandleReconnect && 1 <= s.d.window
    requires !s.d.needDisconnect
    requires !HostAll(s.d.(requested := false), ops).needDisconnect
    ensures var t := Next(s, ServiceStep(ops, codes), maxWindow);
      CanFinish(t, maxWindow) <==> Accepted(CodeAt(codes, 0)) || t.client.received == t.d.log
  {
    hide Inv, CanFinish, Stuck, Service, HostAll;
    NothingInFlight(s, maxWindow);
    var t := Next(s, ServiceStep(ops, codes), maxWindow);
    ServiceKeeps(s, ops, codes, maxWindow);
    GreetingOutcome(s, ops, codes, maxWindow);
    if Accepted(CodeAt(codes, 0)) {
      GreetedCanFinish(t, maxWindow);
    } else {
      StuckCanFinish(t, maxWindow);
    }
  }

  /** One event is queued, a connection is made, and it refuses the reconnect acknowledgement. */
  const REFUSED: seq<Step> :=
    [HostStep([HostEnqueue(0, Text(TextLine("hello")))]), Reconnects(1), ServiceStep([], [SendBlocked])]

  /** After this run the connection is up, an event waits, and nothing but a new connection ever delivers it. */
  lemma GreetingIsRefused()
    ensures Legal(Start(16, 1), REFUSED, 2)
    ensures var s := Run(Start(16, 1), REFUSED, 2);
      s.net.live && s.client.received == [] && |s.d.log| == 1 && !CanFinish(s, 2)
  {
    hide CanFinish, Service, Inv;
    var s0, op := Start(16, 1), HostEnqueue(0, Text(TextLine("hello")));
    assert [op][1..] == [];
    assert HostAll(s0.d, [op]) == Host(s0.d, op);
    var s1 := Next(s0, HostStep([op]), 2);
    var s2 := Next(s1, Reconnects(1), 2);
    var s3 := Next(s2, ServiceStep([], [SendBlocked]), 2);
    assert Legal(s3, [], 2) && Run(s3, [], 2) == s3;
    StartIsGood(16, 1, 2);
    StepKeeps(s0, HostStep([op]), 2);
    StepKeeps(s1, Reconnects(1), 2);
    assert HostAll(s2.d.(requested := false), []) == s2.d.(requested := false);
    GreetingDecides(s2, [], [SendBlocked], 2);
    RefusedService(s2);
    RunCons(s2, ServiceStep([], [SendBlocked]), [], 2);
    RunCons(s1, Reconnects(1), [ServiceStep([], [SendBlocked])] + [], 2);
    RunCons(s0, HostStep([op]), [Reconnects(1)] + ([ServiceStep([], [SendBlocked])] + []), 2);
    assert REFUSED == [HostStep([op])] + ([Reconnects(1)] + ([ServiceStep([], [SendBlocked])] + []));
  }

  lemma RefusedService(s: System)
    requires Ready(s.d) && s.d.needHandleReconnect && !s.d.needDisconnect && s.net.live
    ensures var t := Next(s, ServiceStep([], [SendBlocked]), 2);
      t.client == s.client && t.d.log == s.d.log && t.net.live
  {
    assert HostAll(s.d.(requested := false), []) == s.d.(requested := false);
  }

  /** A new connection with a non-empty window can deliver everything that was ever queued: no loss, refusal
      or disconnect is final. */
  lemma ConnectionCanFinish(s: System, window: nat, maxWindow: nat)
    requires Inv(s, maxWindow) && 1 <= window <= maxWindow
    ensures CanFinish(Next(s, Reconnects(window), maxWindow), maxWindow)
  {
    hide Inv, Service, CanFinish;
    var s1 := Next(s, Reconnects(window), maxWindow);
    StepKeeps(s, Reconnects(window), maxWindow);
    NothingInFlight(s1, maxWindow);
    assert HostAll(s1.d.(requested := false), []) == s1.d.(requested := false);
    GreetingDecides(s1, [], [SendOk], maxWindow);
    SilentServiceLogs(s1, [SendOk]);
    FinishLater(s1, ServiceStep([], [SendOk]), maxWindow);
  }

  lemma SilentServiceLogs(s: System, codes: seq<SendCode>)
    requires Ready(s.d)
    ensures Service(s.d, [], codes).0.log == s.d.log
  {
    if !s.d.needDisconnect {
      var d := s.d.(requested := false);
      assert HostAll(d, []) == d;
      SendPhaseLogs(d, codes);
    }
  }

  lemma FinishLater(s: System, step: Step, maxWindow: nat)
    requires Enabled(s, step, maxWindow) && !step.Reconnects? && CanFinish(Next(s, step, maxWindow), maxWindow)
    requires Next(s, step, maxWindow).d.log == s.d.log
    ensures CanFinish(s, maxWindow)
  {
    hide Next, Enabled;
    var next := Next(s, step, maxWindow);
    var rest :| Legal(next, rest, maxWindow) && NoReconnects(rest) && Run(next, rest, maxWindow).client.received == next.d.log;
    RunCons(s, step, rest, maxWindow);
    assert NoReconnects([step] + rest);
  }

  /** From every reachable state some run, over a new connection with a non-empty window, delivers everything. */
  lemma NewConnectionRecovers(s: System, window: nat, maxWindow: nat) returns (steps: seq<Step>)
    requires Inv(s, maxWindow) && 1 <= window <= maxWindow
    ensures Legal(s, steps, maxWindow)
    ensures Run(s, steps, maxWindow).client.received == s.d.log
  {
    var s1 := Next(s, Reconnects(window), maxWindow);
    ConnectionCanFinish(s, window, maxWindow);
    var rest :| Legal(s1, rest, maxWindow) && NoReconnects(rest) && Run(s1, rest, maxWindow).client.received == s1.d.log;
    RunCons(s, Reconnects(window), rest, maxWindow);
    steps := [Reconnects(window)] + rest;
  }

  // ----- A window of zero -----

  /** The connection offers no room, and no data is on its way. */
  predicate Roomless(s: System) {
    s.d.window == 0 && DataOf(s.net.down) == []
  }

  lemma RoomlessSends(d: State, codes: seq<SendCode>)
    requires d.window == 0
    ensures SendPhase(d, codes).0.window == 0 && DataOf(SendPhase(d, codes).1) == []
  {
    assert DataOf([WireReconnect(d.incomingSerAck)]) == [] && DataOf([WireAck(d.incomingSerAck)]) == [];
    assert [WireAck(d.incomingSerAck)] + [] == [WireAck(d.incomingSerAck)];
  }

  lemma RoomlessService(s: System, ops: seq<HostOp>, codes: seq<SendCode>, maxWindow: nat)
    requires Inv(s, maxWindow) && Roomless(s)
    ensures Roomless(Next(s, ServiceStep(ops, codes), maxWindow))
  {
    hide Inv, SendPhase, TwoCursor, DataOf, HostAll;
    var d := s.d.(requested := false);
    CursorsIgnoreRequests(s, maxWindow);
    HostAllKeeps(d, ops);
    RoomlessSends(HostAll(d, ops), codes);
    DataOfAppend(s.net.down, Service(s.d, ops, codes).1);
    assert DataOf([]) == [] by { NoData(); }
  }

  lemma CursorsIgnoreRequests(s: System, maxWindow: nat)
    requires Inv(s, maxWindow)
    ensures TwoCursor(s.d.(requested := false)) && Ready(s.d)
  {
  }

  lemma NoData()
    ensures DataOf([]) == []
  {
  }

  lemma RepliesKeepWindow(d: State, serial: nat)
    ensures Acknowledge(d, serial).window == d.window && AcknowledgeReconnect(d, serial).window == d.window
  {
    hide Acknowledge;
    AcknowledgingKeepsWindow(d, serial);
    AcknowledgingKeepsWindow(d.(waitReconnect := false), serial);
  }

  lemma AcknowledgingKeepsWindow(d: State, serial: nat)
    ensures Acknowledge(d, serial).window == d.window
  {
    hide FindSerial;
  }

  lemma RoomlessStep(s: System, step: Step, maxWindow: nat)
    requires Inv(s, maxWindow) && Roomless(s) && Enabled(s, step, maxWindow)
    requires step.Reconnects? ==> step.window == 0
    ensures var next := Next(s, step, maxWindow);
      && Roomless(next) && next.client.received <= s.client.received
      && (!step.ClientForgets? ==> next.client.received == s.client.received)
  {
    hide InFlight, Service, Acknowledge, AcknowledgeReconnect, HostAll;
    match step
    case HostStep(ops) => HostAllKeeps(s.d, ops);
    case ServiceStep(ops, codes) => RoomlessService(s, ops, codes, maxWindow);
    case SessionReceives => RepliesKeepWindow(s.d, s.net.up[0].serial);
    case _ =>
  }

  /** Nothing more is delivered until a connection with a non-empty window is made. */
  lemma {:induction false} ZeroWindowDeliversNothing(s: System, steps: seq<Step>, maxWindow: nat)
    requires Inv(s, maxWindow) && Roomless(s) && Legal(s, steps, maxWindow)
    requires forall i :: 0 <= i < |steps| && steps[i].Reconnects? ==> steps[i].window == 0
    ensures Run(s, steps, maxWindow).client.received <= s.client.received
    ensures NeverForgets(steps) ==> Run(s, steps, maxWindow).client.received == s.client.received
    decreases steps
  {
    hide Inv, Next, Enabled, Roomless;
    if steps != [] {
      StepKeeps(s, steps[0], maxWindow);
      RoomlessStep(s, steps[0], maxWindow);
      ZeroWindowDeliversNothing(Next(s, steps[0], maxWindow), steps[1..], maxWindow);
    }
  }

  /** The code accepts a window of zero. From every reachable state, the exact condition: a new connection can
      deliver what is left if and only if its window is not empty (or nothing is left). */
  lemma WindowDecides(s: System, window: nat, maxWindow: nat)
    requires Inv(s, maxWindow) && window <= maxWindow
    ensures CanFinish(Next(s, Reconnects(window), maxWindow), maxWindow)
      <==> 1 <= window || s.client.received == s.d.log
  {
    hide Inv, CanFinish, Legal, Run;
    var t := Next(s, Reconnects(window), maxWindow);
    if 1 <= window {
      ConnectionCanFinish(s, window, maxWindow);
    } else {
      StepKeeps(s, Reconnects(0), maxWindow);
      assert Roomless(t) by { NoData(); }
      RoomlessCanFinish(t, maxWindow);
    }
  }

  lemma RoomlessCanFinish(s: System, maxWindow: nat)
    requires Inv(s, maxWindow) && Roomless(s)
    ensures CanFinish(s, maxWindow) <==> s.client.received == s.d.log
  {
    forall steps | Legal(s, steps, maxWindow) && NoReconnects(steps)
      ensures Run(s, steps, maxWindow).client.received <= s.client.received
    {
      ZeroWindowDeliversNothing(s, steps, maxWindow);
    }
    ReceivedIsLogged(s, maxWindow);
    if s.client.received == s.d.log {
      assert Legal(s, [], maxWindow) && NoReconnects([]);
    }
  }

  lemma ReceivedIsLogged(s: System, maxWindow: nat)
    requires Inv(s, maxWindow)
    ensures s.client.received <= s.d.log
  {
  }
}
