/** What a session needs from outside to deliver everything: a new connection that answers SendOk, or, on a
    connection that blocked, to be told once that it no longer is. No second event is needed, and without it
    nothing is delivered. */
module SmoothDelivery {
  import opened RouterEvents
  import opened Serials
  import opened Delivery
  import opened DeliveryProtocol
  import opened DeliveryTheorems
  import opened SendForms

  function AllOk(n: nat): seq<SendCode> {
    seq(n, i => SendOk)
  }

  /** The session is serviced, the connection answers n times with SendOk, and the client does its part. Nobody
      unblocks, loses or replaces the connection, and nothing more is queued. */
  predicate IsSmooth(step: Step, n: nat) {
    match step
    case ServiceStep(ops, codes) => ops == [] && codes == AllOk(n)
    case ClientReceives => true
    case ClientAcks(_) => true
    case SessionReceives => true
    case _ => false
  }

  predicate Smooth(steps: seq<Step>, n: nat) {
    forall i :: 0 <= i < |steps| ==> IsSmooth(steps[i], n)
  }

  ghost predicate Reaches(s: System, t: System, n: nat, maxWindow: nat) {
    exists steps :: Legal(s, steps, maxWindow) && Smooth(steps, n) && Run(s, steps, maxWindow) == t
  }

  /** Some smooth run delivers everything. There are fewer events than answers, so every call is answered SendOk. */
  ghost predicate Finishes(s: System, maxWindow: nat) {
    exists steps :: Legal(s, steps, maxWindow) && Smooth(steps, |s.d.log| + 1)
      && Run(s, steps, maxWindow).client.received == s.d.log
  }

  lemma ReachesSelf(s: System, n: nat, maxWindow: nat)
    ensures Reaches(s, s, n, maxWindow)
  {
    assert Legal(s, [], maxWindow) && Smooth([], n) && Run(s, [], maxWindow) == s;
  }

  lemma ReachesFirst(s: System, step: Step, t: System, n: nat, maxWindow: nat)
    requires Enabled(s, step, maxWindow) && IsSmooth(step, n) && Reaches(Next(s, step, maxWindow), t, n, maxWindow)
    ensures Reaches(s, t, n, maxWindow)
  {
    hide Next, Enabled;
    var mid := Next(s, step, maxWindow);
    var rest :| Legal(mid, rest, maxWindow) && Smooth(rest, n) && Run(mid, rest, maxWindow) == t;
    RunCons(s, step, rest, maxWindow);
    assert Smooth([step] + rest, n);
  }

  lemma ReachesOne(s: System, step: Step, n: nat, maxWindow: nat)
    requires Enabled(s, step, maxWindow) && IsSmooth(step, n)
    ensures Reaches(s, Next(s, step, maxWindow), n, maxWindow)
  {
    hide Next, Enabled, Reaches;
    ReachesSelf(Next(s, step, maxWindow), n, maxWindow);
    ReachesFirst(s, step, Next(s, step, maxWindow), n, maxWindow);
  }

  lemma ReachesTwice(s: System, mid: System, t: System, n: nat, maxWindow: nat)
    requires Reaches(s, mid, n, maxWindow) && Reaches(mid, t, n, maxWindow)
    ensures Reaches(s, t, n, maxWindow)
  {
    var first :| Legal(s, first, maxWindow) && Smooth(first, n) && Run(s, first, maxWindow) == mid;
    var rest :| Legal(mid, rest, maxWindow) && Smooth(rest, n) && Run(mid, rest, maxWindow) == t;
    RunAppend(s, first, rest, maxWindow);
    assert Smooth(first + rest, n);
  }

  lemma ReachingFinishes(s: System, t: System, maxWindow: nat)
    requires Reaches(s, t, |s.d.log| + 1, maxWindow) && t.client.received == s.d.log
    ensures Finishes(s, maxWindow)
  {
  }

  // ----- Acknowledgements arrive -----

  function LastCount(up: seq<Reply>, acked: int): int {
    if up == [] then acked else up[|up| - 1].count
  }

  /** While a connection lasts, what the client acknowledged is acknowledged or on its way. */
  ghost predicate AcksArrive(s: System) {
    s.net.live && !s.d.waitReconnect ==> LastCount(s.net.up, Acked(s.d)) == s.client.acked
  }

  lemma ServiceLeavesAcked(s: System, ops: seq<HostOp>, codes: seq<SendCode>, maxWindow: nat)
    requires Inv(s, maxWindow)
    ensures var d := Service(s.d, ops, codes).0;
      Acked(d) == Acked(s.d) && d.window == s.d.window && (!d.waitReconnect ==> !s.d.waitReconnect)
  {
    hide Inv, HostAll, SendLoop;
    CursorsIgnoreRequests(s, maxWindow);
    if !s.d.needDisconnect {
      var d := s.d.(requested := false);
      HostAllKeeps(d, ops);
      SendPhaseLeavesAcked(HostAll(d, ops), codes);
    }
  }

  lemma SendPhaseLeavesAcked(d: State, codes: seq<SendCode>)
    requires TwoCursor(d)
    ensures var next := SendPhase(d, codes).0;
      Acked(next) == Acked(d) && next.window == d.window && (!next.waitReconnect ==> !d.waitReconnect)
  {
    hide SerialOf, SendLoop;
    var t := AfterSend(d.(needsIncomingAck := false), CodeAt(codes, 0));
    SameCursors(d, t);
    SendLoopKeeps(t, codes, 1);
    SendLoopKeeps(d, codes, 0);
  }

  lemma ReplyKeepsArriving(s: System, maxWindow: nat)
    requires Inv(s, maxWindow) && AcksArrive(s) && s.net.up != []
    ensures AcksArrive(SessionTakes(s))
  {
    hide AcknowledgeReconnect, Acknowledge, Names;
    match s.net.up[0]
    case ReplyAck(_, count) => AcknowledgeMovesCursor(s.d, count);
    case ReplyReconnect(serial, count) =>
      ReplyNames(s, maxWindow);
      ReconnectMovesCursor(s.d, serial, count);
  }

  lemma StepKeepsArriving(s: System, step: Step, maxWindow: nat)
    requires Inv(s, maxWindow) && Enabled(s, step, maxWindow) && AcksArrive(s)
    ensures AcksArrive(Next(s, step, maxWindow))
  {
    hide HostAll, Service, SessionTakes, TwoCursor, AcksInFlight;
    match step
    case HostStep(ops) =>
      CursorsAgree(s, maxWindow);
      HostAllKeeps(s.d, ops);
    case ServiceStep(ops, codes) => ServiceLeavesAcked(s, ops, codes, maxWindow);
    case SessionReceives => ReplyKeepsArriving(s, maxWindow);
    case _ =>
  }

  lemma {:induction false} RunKeepsArriving(s: System, steps: seq<Step>, maxWindow: nat)
    requires Inv(s, maxWindow) && Legal(s, steps, maxWindow) && AcksArrive(s)
    ensures AcksArrive(Run(s, steps, maxWindow)) && Inv(Run(s, steps, maxWindow), maxWindow)
    decreases steps
  {
    hide Inv, Next, Enabled, AcksArrive;
    if steps != [] {
      StepKeeps(s, steps[0], maxWindow);
      StepKeepsArriving(s, steps[0], maxWindow);
      RunKeepsArriving(Next(s, steps[0], maxWindow), steps[1..], maxWindow);
    }
  }

  // ----- A connection that works -----

  /** Connected, past the handshake, and not about to be cut off; acknowledgements arrive. */
  ghost predicate Working(s: System, maxWindow: nat) {
    && Inv(s, maxWindow) && AcksArrive(s) && s.net.live && !s.d.waitReconnect && !s.d.needDisconnect
  }

  /** Reached over the same connection with nothing more queued. */
  ghost predicate Goes(s: System, t: System, maxWindow: nat) {
    && Working(t, maxWindow) && Reaches(s, t, |s.d.log| + 1, maxWindow)
    && t.d.log == s.d.log && t.d.window == s.d.window && t.d.blocked == s.d.blocked
    && |s.client.received| <= |t.client.received|
  }

  lemma GoesNowhere(s: System, maxWindow: nat)
    requires Working(s, maxWindow)
    ensures Goes(s, s, maxWindow)
  {
    ReachesSelf(s, |s.d.log| + 1, maxWindow);
  }

  lemma GoesTwice(s: System, mid: System, t: System, maxWindow: nat)
    requires Goes(s, mid, maxWindow) && Goes(mid, t, maxWindow)
    ensures Goes(s, t, maxWindow)
  {
    hide Reaches, Working;
    ReachesTwice(s, mid, t, |s.d.log| + 1, maxWindow);
  }

  /** What is in flight to the client arrives. */
  lemma ClientTakesGoes(s: System, maxWindow: nat)
    requires Working(s, maxWindow) && s.net.down != []
    ensures Goes(s, ClientTakes(s), maxWindow)
    ensures ClientTakes(s).d == s.d && ClientTakes(s).net.up == s.net.up && ClientTakes(s).net.down == s.net.down[1..]
    ensures ClientTakes(s).client.acked == s.client.acked
  {
    hide TwoCursor, AcksInFlight;
    StepKeeps(s, ClientReceives, maxWindow);
    StepKeepsArriving(s, ClientReceives, maxWindow);
    ReachesOne(s, ClientReceives, |s.d.log| + 1, maxWindow);
  }

  lemma {:induction false} DownDrains(s: System, maxWindow: nat) returns (t: System)
    requires Working(s, maxWindow)
    ensures Goes(s, t, maxWindow) && t.net.down == [] && t.net.up == s.net.up && t.d == s.d
    decreases |s.net.down|
  {
    hide Goes, ClientTakes;
    if s.net.down == [] {
      t := s;
      GoesNowhere(s, maxWindow);
    } else {
      ClientTakesGoes(s, maxWindow);
      assert Working(ClientTakes(s), maxWindow) by { GoesToWork(s, ClientTakes(s), maxWindow); }
      t := DownDrains(ClientTakes(s), maxWindow);
      GoesTwice(s, ClientTakes(s), t, maxWindow);
    }
  }

  lemma GoesToWork(s: System, t: System, maxWindow: nat)
    requires Goes(s, t, maxWindow)
    ensures Working(t, maxWindow)
  {
  }

  /** What is in flight to the session arrives. */
  lemma SessionTakesGoes(s: System, maxWindow: nat)
    requires Working(s, maxWindow) && s.net.up != []
    ensures Goes(s, SessionTakes(s), maxWindow)
    ensures var t := SessionTakes(s);
      t.net.down == s.net.down && t.net.up == s.net.up[1..] && t.client == s.client && t.d.outgoing == s.d.outgoing
  {
    hide TwoCursor, FindSerial;
    AckIsExpected(s, maxWindow);
    StepKeeps(s, SessionReceives, maxWindow);
    StepKeepsArriving(s, SessionReceives, maxWindow);
    ReachesOne(s, SessionReceives, |s.d.log| + 1, maxWindow);
  }

  lemma {:induction false} UpDrains(s: System, maxWindow: nat) returns (t: System)
    requires Working(s, maxWindow)
    ensures Goes(s, t, maxWindow) && t.net.down == s.net.down && t.net.up == [] && t.client == s.client
    ensures t.d.outgoing == s.d.outgoing
    decreases |s.net.up|
  {
    hide Goes, SessionTakes;
    if s.net.up == [] {
      t := s;
      GoesNowhere(s, maxWindow);
    } else {
      SessionTakesGoes(s, maxWindow);
      assert Working(SessionTakes(s), maxWindow) by { GoesToWork(s, SessionTakes(s), maxWindow); }
      t := UpDrains(SessionTakes(s), maxWindow);
      GoesTwice(s, SessionTakes(s), t, maxWindow);
    }
  }

  /** Nothing is in flight, and the client has acknowledged all it was sent. */
  predicate Quiet(s: System) {
    s.net.down == [] && s.net.up == [] && s.client.acked == |s.client.received|
  }

  /** Then nothing sent is unacknowledged. */
  lemma QuietIsSettled(s: System, maxWindow: nat)
    requires Working(s, maxWindow) && Quiet(s)
    ensures s.d.sent == [] && |s.client.received| == Handed(s.d) && s.client.received <= s.d.log
  {
  }

  /** The client acknowledges everything it has. */
  lemma AcknowledgingGoes(s: System, maxWindow: nat)
    requires Working(s, maxWindow) && s.client.acked < |s.client.received|
    ensures var t := Next(s, ClientAcks(|s.client.received|), maxWindow);
      && Enabled(s, ClientAcks(|s.client.received|), maxWindow)
      && Goes(s, t, maxWindow) && t.d == s.d && t.net.down == s.net.down
      && t.client == s.client.(acked := |s.client.received|)
  {
    hide TwoCursor, AcksInFlight;
    var step := ClientAcks(|s.client.received|);
    StepKeeps(s, step, maxWindow);
    StepKeepsArriving(s, step, maxWindow);
    ReachesOne(s, step, |s.d.log| + 1, maxWindow);
  }

  /** Everything in flight arrives, and what arrived is acknowledged. */
  lemma Settles(s: System, maxWindow: nat) returns (t: System)
    requires Working(s, maxWindow)
    ensures Goes(s, t, maxWindow) && Quiet(t) && t.d.outgoing == s.d.outgoing
  {
    hide Goes, Working, Next, Enabled;
    var down := DownDrains(s, maxWindow);
    GoesToWork(s, down, maxWindow);
    if down.client.acked < |down.client.received| {
      AcknowledgingGoes(down, maxWindow);
      var told := Next(down, ClientAcks(|down.client.received|), maxWindow);
      GoesToWork(down, told, maxWindow);
      t := UpDrains(told, maxWindow);
      GoesTwice(down, told, t, maxWindow);
    } else {
      t := UpDrains(down, maxWindow);
      WorkingIsBounded(down, maxWindow);
    }
    GoesTwice(s, down, t, maxWindow);
  }

  lemma WorkingIsBounded(s: System, maxWindow: nat)
    requires Working(s, maxWindow)
    ensures s.client.acked <= |s.client.received|
  {
  }

  // ----- A connection that answers SendOk -----

  lemma AllOkNeverStops(n: nat, k: nat)
    requires k <= n
    ensures FirstOther(AllOk(n), k) == n
  {
    assert forall j :: 0 <= j < n ==> CodeAt(AllOk(n), j) == SendOk;
    assert CodeAt(AllOk(n), n) == SendBlocked;
  }

  /** A service of a settled session moves events along, and nothing else. */
  lemma OkServiceSends(d: State, n: nat)
    requires Ready(d) && !d.needHandleReconnect && !d.waitReconnect && !d.needDisconnect && !d.blocked
    requires |d.outgoing| < n && d.sent == []
    ensures var next := Service(d, [], AllOk(n)).0;
      && !next.blocked && !next.needDisconnect && !next.waitReconnect && next.window == d.window && next.log == d.log
      && |next.outgoing| == if |d.outgoing| <= d.window then 0 else |d.outgoing| - d.window
  {
    hide FirstOther, AllOk, CodeAt, SendPhase;
    var t := d.(requested := false);
    assert HostAll(t, []) == t;
    SendPhaseIs(t, AllOk(n));
    SendPhaseLogs(t, AllOk(n));
    SendPhaseLeavesPhase(t, AllOk(n));
    AllOkNeverStops(n, 0);
    AllOkNeverStops(n, 1);
    FirstAnswer(AllOk(n));
  }

  lemma SendPhaseLeavesPhase(d: State, codes: seq<SendCode>)
    requires !d.needHandleReconnect
    ensures SendPhase(d, codes).0.waitReconnect == d.waitReconnect && SendPhase(d, codes).0.window == d.window
  {
    var t := AfterSend(d.(needsIncomingAck := false), CodeAt(codes, 0));
    SendLoopLeavesPhase(t, codes, 1);
    SendLoopLeavesPhase(d, codes, 0);
  }

  lemma {:induction false} SendLoopLeavesPhase(d: State, codes: seq<SendCode>, k: nat)
    ensures SendLoop(d, codes, k).0.waitReconnect == d.waitReconnect && SendLoop(d, codes, k).0.window == d.window
    decreases |d.outgoing|, !d.blocked
  {
    if KeepsSending(d) { SendLoopLeavesPhase(SendOne(d, CodeAt(codes, k)).0, codes, k + 1); }
  }

  lemma ServiceGoes(s: System, maxWindow: nat)
    requires Working(s, maxWindow) && Quiet(s) && !s.d.blocked && 1 <= s.d.window && s.d.outgoing != []
    ensures var step := ServiceStep([], AllOk(|s.d.log| + 1));
      && Enabled(s, step, maxWindow) && Goes(s, Next(s, step, maxWindow), maxWindow)
      && |Next(s, step, maxWindow).d.outgoing| < |s.d.outgoing|
  {
    hide TwoCursor, AcksInFlight, Service, AllOk;
    var step := ServiceStep([], AllOk(|s.d.log| + 1));
    QuietIsSettled(s, maxWindow);
    FlowingFlags(s, maxWindow);
    OkServiceSends(s.d, |s.d.log| + 1);
    StepKeeps(s, step, maxWindow);
    StepKeepsArriving(s, step, maxWindow);
    ReachesOne(s, step, |s.d.log| + 1, maxWindow);
  }

  lemma FlowingFlags(s: System, maxWindow: nat)
    requires Working(s, maxWindow)
    ensures Ready(s.d) && !s.d.needHandleReconnect && |s.d.outgoing| <= |s.d.log|
  {
  }

  lemma {:induction false} QuietFinishes(s: System, maxWindow: nat) returns (t: System)
    requires Working(s, maxWindow) && Quiet(s)
    requires s.d.outgoing == [] || (!s.d.blocked && 1 <= s.d.window)
    ensures Goes(s, t, maxWindow) && t.client.received == s.d.log
    decreases |s.d.outgoing|
  {
    hide Goes, Working, Next, Enabled, AllOk;
    if s.d.outgoing == [] {
      t := s;
      GoesNowhere(s, maxWindow);
      QuietIsSettled(s, maxWindow);
    } else {
      ServiceGoes(s, maxWindow);
      var sent := Next(s, ServiceStep([], AllOk(|s.d.log| + 1)), maxWindow);
      GoesToWork(s, sent, maxWindow);
      var settled := Settles(sent, maxWindow);
      GoesTwice(s, sent, settled, maxWindow);
      GoesToWork(s, settled, maxWindow);
      GoesKeeps(s, settled, maxWindow);
      t := QuietFinishes(settled, maxWindow);
      GoesTwice(s, settled, t, maxWindow);
    }
  }

  lemma GoesKeeps(s: System, t: System, maxWindow: nat)
    requires Goes(s, t, maxWindow)
    ensures t.d.log == s.d.log && t.d.window == s.d.window && t.d.blocked == s.d.blocked
    ensures Reaches(s, t, |s.d.log| + 1, maxWindow)
  {
  }

  /** A working connection that is not blocked delivers everything, and so does one that has nothing to send. */
  lemma WorkingFinishes(s: System, maxWindow: nat)
    requires Working(s, maxWindow) && (s.d.outgoing == [] || (!s.d.blocked && 1 <= s.d.window))
    ensures Finishes(s, maxWindow)
  {
    hide Goes, Working, Reaches, Finishes;
    var settled := Settles(s, maxWindow);
    GoesToWork(s, settled, maxWindow);
    GoesKeeps(s, settled, maxWindow);
    var t := QuietFinishes(settled, maxWindow);
    GoesTwice(s, settled, t, maxWindow);
    GoesKeeps(s, t, maxWindow);
    ReachingFinishes(s, t, maxWindow);
  }

  lemma FinishesLater(s: System, step: Step, maxWindow: nat)
    requires Enabled(s, step, maxWindow) && IsSmooth(step, |s.d.log| + 1)
    requires Finishes(Next(s, step, maxWindow), maxWindow) && Next(s, step, maxWindow).d.log == s.d.log
    ensures Finishes(s, maxWindow)
  {
    hide Next, Enabled;
    var next := Next(s, step, maxWindow);
    var rest :| Legal(next, rest, maxWindow) && Smooth(rest, |s.d.log| + 1)
      && Run(next, rest, maxWindow).client.received == next.d.log;
    RunCons(s, step, rest, maxWindow);
    assert Smooth([step] + rest, |s.d.log| + 1);
  }

  // ----- A new connection -----

  lemma AcknowledgingLeavesBlocked(d: State, serial: nat)
    ensures Acknowledge(d, serial).blocked == d.blocked
  {
    hide FindSerial;
  }

  lemma AnsweringLeavesBlocked(d: State, serial: nat)
    ensures AcknowledgeReconnect(d, serial).blocked == d.blocked
  {
    hide Acknowledge;
    AcknowledgingLeavesBlocked(d.(waitReconnect := false), serial);
  }

  lemma ReplyLeavesBlocked(s: System)
    requires s.net.up != []
    ensures SessionTakes(s).d.blocked == s.d.blocked && SessionTakes(s).d.window == s.d.window
  {
    hide Acknowledge, AcknowledgeReconnect;
    AcknowledgingLeavesBlocked(s.d, s.net.up[0].serial);
    AnsweringLeavesBlocked(s.d, s.net.up[0].serial);
    RepliesKeepWindow(s.d, s.net.up[0].serial);
  }

  /** The greeting is on its way: the client answers it and the session resumes. */
  lemma HandshakeWorks(s: System, maxWindow: nat)
    requires Inv(s, maxWindow) && s.net.live && s.d.waitReconnect && !s.d.needHandleReconnect
    requires |s.net.down| == 1 && !s.d.needDisconnect
    ensures var n, t := |s.d.log| + 1, SessionTakes(ClientTakes(s));
      && ClientTakes(s).net.up != [] && Reaches(s, t, n, maxWindow) && Working(t, maxWindow)
      && t.d.blocked == s.d.blocked && t.d.window == s.d.window && t.d.log == s.d.log
  {
    hide Names, AcknowledgeReconnect, Reaches, TwoCursor;
    var n, r, serial := |s.d.log| + 1, |s.client.received|, LastSerial(Remembered(s.client));
    var s1 := ClientTakes(s);
    assert s1.net.up == [ReplyReconnect(serial, r)];
    StepKeeps(s, ClientReceives, maxWindow);
    StepKeepsArriving(s, ClientReceives, maxWindow);
    ReconnectIsExpected(s1, maxWindow);
    ReplyNames(s, maxWindow);
    CursorsAgree(s, maxWindow);
    ReconnectMovesCursor(s.d, serial, r);
    ReplyLeavesBlocked(s1);
    StepKeeps(s1, SessionReceives, maxWindow);
    StepKeepsArriving(s1, SessionReceives, maxWindow);
    ReachesOne(s1, SessionReceives, n, maxWindow);
    ReachesFirst(s, ClientReceives, SessionTakes(s1), n, maxWindow);
  }

  lemma GreetingLeavesBlocked(s: System, codes: seq<SendCode>, maxWindow: nat)
    requires Ready(s.d) && s.d.needHandleReconnect && !s.d.needDisconnect
    ensures var t := Next(s, ServiceStep([], codes), maxWindow);
      t.d.blocked == s.d.blocked && t.d.log == s.d.log && t.d.window == s.d.window
  {
    assert HostAll(s.d.(requested := false), []) == s.d.(requested := false);
  }

  /** The session greets its new connection, and goes on. */
  lemma GreetedFinishes(s: System, maxWindow: nat)
    requires Inv(s, maxWindow) && s.net.live && s.d.needHandleReconnect && !s.d.needDisconnect
    requires !s.d.blocked && 1 <= s.d.window
    ensures Finishes(s, maxWindow)
  {
    hide Inv, Finishes, Working, Reaches, Service, AllOk, ClientTakes, SessionTakes;
    var n := |s.d.log| + 1;
    var greet := ServiceStep([], AllOk(n));
    NothingInFlight(s, maxWindow);
    assert HostAll(s.d.(requested := false), []) == s.d.(requested := false);
    assert CodeAt(AllOk(n), 0).SendOk? by { FirstIsOk(n); }
    GreetingOutcome(s, [], AllOk(n), maxWindow);
    GreetingLeavesBlocked(s, AllOk(n), maxWindow);
    StepKeeps(s, greet, maxWindow);
    var greeted := Next(s, greet, maxWindow);
    HandshakeWorks(greeted, maxWindow);
    var t := SessionTakes(ClientTakes(greeted));
    WorkingFinishes(t, maxWindow);
    FinishesAfter(greeted, t, maxWindow);
    FinishesLater(s, greet, maxWindow);
  }

  lemma FirstIsOk(n: nat)
    requires 0 < n
    ensures CodeAt(AllOk(n), 0).SendOk?
  {
  }

  lemma FinishesAfter(s: System, t: System, maxWindow: nat)
    requires Reaches(s, t, |s.d.log| + 1, maxWindow) && Finishes(t, maxWindow) && t.d.log == s.d.log
    ensures Finishes(s, maxWindow)
  {
    var rest :| Legal(t, rest, maxWindow) && Smooth(rest, |t.d.log| + 1)
      && Run(t, rest, maxWindow).client.received == t.d.log;
    assert Reaches(t, Run(t, rest, maxWindow), |s.d.log| + 1, maxWindow);
    ReachesTwice(s, t, Run(t, rest, maxWindow), |s.d.log| + 1, maxWindow);
  }

  /** Whatever state the former connection left behind, blocked or not: over a new connection that answers SendOk
      everything is delivered, and nobody has to unblock it. */
  lemma NewConnectionDelivers(s: System, window: nat, maxWindow: nat)
    requires Inv(s, maxWindow) && 1 <= window <= maxWindow
    ensures var t := Next(s, Reconnects(window), maxWindow); t.d.log == s.d.log && Finishes(t, maxWindow)
  {
    hide Inv, Finishes;
    StepKeeps(s, Reconnects(window), maxWindow);
    GreetedFinishes(Next(s, Reconnects(window), maxWindow), maxWindow);
  }

  // ----- A connection that blocked -----

  /** Some run without a new connection and without the client becoming unblocked delivers everything queued so
      far. */
  ghost predicate FinishesUnaided(s: System, maxWindow: nat) {
    exists steps :: Legal(s, steps, maxWindow) && Unaided(steps) && Run(s, steps, maxWindow).client.received == s.d.log
  }

  predicate Unaided(steps: seq<Step>) {
    forall i :: 0 <= i < |steps| ==> !steps[i].Reconnects? && !steps[i].ConnectionUnblocks?
  }

  lemma BlockedServiceSends(s: System, ops: seq<HostOp>, codes: seq<SendCode>, maxWindow: nat)
    requires Inv(s, maxWindow) && s.d.blocked
    ensures var d := Service(s.d, ops, codes).0; d.blocked && Handed(d) == Handed(s.d)
  {
    hide Inv, HostAll;
    CursorsIgnoreRequests(s, maxWindow);
    if !s.d.needDisconnect { HostAllKeeps(s.d.(requested := false), ops); }
  }

  lemma BlockedStep(s: System, step: Step, maxWindow: nat)
    requires Inv(s, maxWindow) && s.d.blocked && Enabled(s, step, maxWindow)
    requires !step.Reconnects? && !step.ConnectionUnblocks?
    ensures var t := Next(s, step, maxWindow); t.d.blocked && Handed(t.d) <= Handed(s.d)
  {
    hide HostAll, Service, InFlight, AcknowledgeReconnect, Acknowledge, Names;
    match step
    case HostStep(ops) => HostAllKeeps(s.d, ops);
    case ServiceStep(ops, codes) => BlockedServiceSends(s, ops, codes, maxWindow);
    case SessionReceives => ReplyNeverHands(s, maxWindow);
    case _ =>
  }

  lemma ReplyNeverHands(s: System, maxWindow: nat)
    requires Inv(s, maxWindow) && s.net.up != []
    ensures SessionTakes(s).d.blocked == s.d.blocked && Handed(SessionTakes(s).d) <= Handed(s.d)
  {
    hide AcknowledgeReconnect, Acknowledge, Names;
    CursorsAgree(s, maxWindow);
    match s.net.up[0]
    case ReplyAck(_, count) =>
      AcknowledgeMovesCursor(s.d, count);
      ReplyLeavesBlocked(s);
    case ReplyReconnect(serial, count) =>
      ReplyNames(s, maxWindow);
      ReconnectMovesCursor(s.d, serial, count);
      ReplyLeavesBlocked(s);
  }

  /** While the client is blocked nothing more is handed to the connection. */
  lemma {:induction false} BlockedDeliversNothing(s: System, steps: seq<Step>, maxWindow: nat)
    requires Inv(s, maxWindow) && s.d.blocked && Legal(s, steps, maxWindow) && Unaided(steps)
    ensures |Run(s, steps, maxWindow).client.received| <= Handed(s.d)
    decreases steps
  {
    hide Next, Enabled, InFlight;
    if steps != [] {
      StepKeeps(s, steps[0], maxWindow);
      BlockedStep(s, steps[0], maxWindow);
      BlockedDeliversNothing(Next(s, steps[0], maxWindow), steps[1..], maxWindow);
    }
  }

  lemma SmoothIsUnaided(s: System, maxWindow: nat)
    requires Finishes(s, maxWindow)
    ensures FinishesUnaided(s, maxWindow)
  {
    var steps :| Legal(s, steps, maxWindow) && Smooth(steps, |s.d.log| + 1)
      && Run(s, steps, maxWindow).client.received == s.d.log;
    assert Unaided(steps);
  }

  /** On a connection that works, the rest can be delivered without a new connection and without the client becoming
      unblocked if and only if it is not blocked, or everything was handed over already. */
  lemma BlockedDecides(s: System, maxWindow: nat)
    requires Working(s, maxWindow) && 1 <= s.d.window
    ensures FinishesUnaided(s, maxWindow) <==> !s.d.blocked || s.d.outgoing == []
  {
    hide InFlight, AcksArrive, Finishes, Legal, Run;
    if !s.d.blocked || s.d.outgoing == [] {
      WorkingFinishes(s, maxWindow);
      SmoothIsUnaided(s, maxWindow);
    } else {
      forall steps | Legal(s, steps, maxWindow) && Unaided(steps)
        ensures |Run(s, steps, maxWindow).client.received| < |s.d.log|
      {
        BlockedDeliversNothing(s, steps, maxWindow);
      }
    }
  }

  /** And once the client is unblocked, nothing more is needed. */
  lemma UnblockingDelivers(s: System, maxWindow: nat)
    requires Working(s, maxWindow) && 1 <= s.d.window
    ensures Finishes(Next(s, ConnectionUnblocks, maxWindow), maxWindow)
  {
    hide Inv, Finishes;
    StepKeeps(s, ConnectionUnblocks, maxWindow);
    StepKeepsArriving(s, ConnectionUnblocks, maxWindow);
    WorkingFinishes(Next(s, ConnectionUnblocks, maxWindow), maxWindow);
  }

  /** In every run, a connection past its handshake that is not about to be cut off is one that works. */
  lemma ConnectionsWork(modulus: nat, window: nat, maxWindow: nat, steps: seq<Step>)
    requires window <= maxWindow && maxWindow + 1 < modulus
    requires Legal(Start(modulus, window), steps, maxWindow)
    ensures var s := Run(Start(modulus, window), steps, maxWindow);
      Working(s, maxWindow) <==> s.net.live && !s.d.waitReconnect && !s.d.needDisconnect
  {
    hide Inv, Legal, Run;
    StartIsGood(modulus, window, maxWindow);
    RunKeepsArriving(Start(modulus, window), steps, maxWindow);
  }
}
