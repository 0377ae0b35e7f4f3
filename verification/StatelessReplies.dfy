/** What an answer of 0 to a reconnect does, whatever else is called on the session and whoever calls it: the
    client is sent everything it has not acknowledged, and the session forgets which serial was acknowledged
    last. A client that lost its state gets on with that (`DeliveryProtocol`); one that kept it and names that
    serial later is cut off. */
module StatelessReplies {
  import opened RouterEvents
  import opened Serials
  import opened Delivery
  import opened DeliveryProtocol

  /** A call on the delivery half; nothing is assumed about the serials that come in. */
  datatype Call =
    | CallHost(ops: seq<HostOp>)
    | CallService(ops: seq<HostOp>, codes: seq<SendCode>)
    | CallAcknowledge(serial: nat)
    | CallAnswer(serial: nat)
    | CallConnection(window: nat)
    | CallDisconnected
    | CallUnblocked
    | CallDisconnect

  function After(d: State, call: Call): State
    requires Ready(d)
  {
    match call
    case CallHost(ops) => HostAll(d, ops)
    case CallService(ops, codes) => Service(d, ops, codes).0
    case CallAcknowledge(serial) => Acknowledge(d, serial)
    case CallAnswer(serial) => AcknowledgeReconnect(d, serial)
    case CallConnection(window) => SetConnection(d, window)
    case CallDisconnected => Disconnected(d)
    case CallUnblocked => Unblocked(d)
    case CallDisconnect => MarkDisconnect(d)
  }

  /** The session's own serial is that of the acknowledged position, or 0. */
  ghost predicate Sound(d: State, maxWindow: nat) {
    && TwoCursor(d) && maxWindow + 1 < d.modulus && d.window <= maxWindow && |d.sent| <= maxWindow
    && (d.outgoingSerAck == 0 || d.outgoingSerAck == SerialOf(d.modulus, Acked(d)))
  }

  /** Something was acknowledged, and the session does not know what. */
  predicate Forgot(d: State) {
    0 < Acked(d) && d.outgoingSerAck == 0
  }

  /** An acknowledgement or an answer that is accepted, other than 0. */
  predicate Confirms(d: State, call: Call) {
    match call
    case CallAcknowledge(serial) => serial != 0 && FindSerial(d.sent, serial) < |d.sent|
    case CallAnswer(serial) =>
      d.waitReconnect && serial != 0 && (serial == d.outgoingSerAck || FindSerial(d.sent, serial) < |d.sent|)
    case _ => false
  }

  /** An answer of 0, after something was acknowledged. */
  predicate StartsOver(d: State, call: Call) {
    call == CallAnswer(0) && d.waitReconnect && 0 < Acked(d)
  }

  // ----- Every call -----

  /** The first cursor and the serial stand still. */
  predicate SameMemory(d: State, next: State) {
    Acked(next) == Acked(d) && next.outgoingSerAck == d.outgoingSerAck && next.modulus == d.modulus
  }

  lemma SoundIsReady(d: State, maxWindow: nat)
    requires Sound(d, maxWindow)
    ensures Ready(d) && d.window <= maxWindow
  {
  }

  lemma ServiceKeepsMemory(d: State, ops: seq<HostOp>, codes: seq<SendCode>, maxWindow: nat)
    requires Sound(d, maxWindow)
    ensures Ready(d) && Sound(Service(d, ops, codes).0, maxWindow) && SameMemory(d, Service(d, ops, codes).0)
  {
    hide SendPhase, HostAll, Sound, Acked;
    SoundIsReady(d, maxWindow);
    var begun := d.(requested := false);
    UnmovedKeepsSound(d, begun, maxWindow);
    UnmovedKeepsSound(d, begun.(connected := false), maxWindow);
    if !d.needDisconnect {
      HostKeepsSound(begun, ops, maxWindow);
      SendPhaseKeepsMemory(HostAll(begun, ops), codes, maxWindow);
    }
  }

  lemma SendPhaseKeepsMemory(d: State, codes: seq<SendCode>, maxWindow: nat)
    requires Sound(d, maxWindow)
    ensures Sound(SendPhase(d, codes).0, maxWindow) && SameMemory(d, SendPhase(d, codes).0)
  {
    hide SendLoop, Sound, Acked;
    SoundIsReady(d, maxWindow);
    var t := AfterSend(d.(needsIncomingAck := false), CodeAt(codes, 0));
    UnmovedKeepsSound(d, t, maxWindow);
    UnmovedKeepsSound(d, d.(needsIncomingAck := false, needHandleReconnect := false, waitReconnect := true), maxWindow);
    SendLoopKeepsMemory(t, codes, 1, maxWindow);
    SendLoopKeepsMemory(d, codes, 0, maxWindow);
  }

  lemma SendLoopKeepsMemory(d: State, codes: seq<SendCode>, k: nat, maxWindow: nat)
    requires Sound(d, maxWindow)
    ensures Sound(SendLoop(d, codes, k).0, maxWindow) && SameMemory(d, SendLoop(d, codes, k).0)
  {
    hide SendLoop, SerialOf;
    SendLoopKeeps(d, codes, k);
  }

  /** The queues stand still, and the serial does or is forgotten. */
  lemma UnmovedKeepsSound(d: State, next: State, maxWindow: nat)
    requires Sound(d, maxWindow) && next.window <= maxWindow
    requires next.modulus == d.modulus && next.log == d.log && next.lastSerial == d.lastSerial
    requires next.sent == d.sent && next.outgoing == d.outgoing
    requires next.outgoingSerAck == 0 || next.outgoingSerAck == d.outgoingSerAck
    ensures Sound(next, maxWindow) && Acked(next) == Acked(d)
  {
    hide SerialOf;
    Recut(d, next, Acked(d), Handed(d));
  }

  /** An event that was sent is where it is in the log. */
  lemma SentIsLogged(d: State, index: nat)
    requires TwoCursor(d) && index < |d.sent|
    ensures var at := Acked(d) + index;
      && 0 <= at < Handed(d) <= |d.log| && d.sent[index].serial == SerialOf(d.modulus, at + 1)
      && d.sent[index + 1..] == d.log[at + 1..Handed(d)] && d.outgoing == d.log[Handed(d)..]
  {
    assert d.sent[index] == d.log[Acked(d) + index];
  }

  /** What is found moves the acknowledged boundary to its own position; what is not found moves nothing. */
  lemma AcknowledgeKeepsSound(d: State, serial: nat, maxWindow: nat)
    requires Sound(d, maxWindow)
    ensures var next := Acknowledge(d, serial);
      && Sound(next, maxWindow)
      && (if Confirms(d, CallAcknowledge(serial)) then Acked(d) < Acked(next) && next.outgoingSerAck == serial
          else SameMemory(d, next))
  {
    hide SerialOf, FindSerial, TwoCursor, Acked, Handed;
    var index, next := FindSerial(d.sent, serial), Acknowledge(d, serial);
    if serial != 0 && index < |d.sent| {
      SentIsLogged(d, index);
      Recut(d, next, Acked(d) + index + 1, Handed(d));
    } else {
      UnmovedKeepsSound(d, next, maxWindow);
    }
  }

  /** How an answer changes what is remembered. */
  ghost predicate AnswerRemembers(d: State, serial: nat, next: State) {
    if StartsOver(d, CallAnswer(serial)) then Acked(next) == Acked(d) && next.outgoingSerAck == 0
    else if Confirms(d, CallAnswer(serial)) then Acked(d) <= Acked(next) && next.outgoingSerAck != 0
    else Forgot(next) <==> Forgot(d)
  }

  lemma JudgingKeepsSound(d: State, serial: nat, maxWindow: nat)
    requires Sound(d, maxWindow)
    ensures Sound(Answer(d, serial), maxWindow) && AnswerRemembers(d, serial, Answer(d, serial))
  {
    hide Sound, Acknowledge, FindSerial, Acked;
    var resumed, next := d.(waitReconnect := false), Answer(d, serial);
    SoundIsReady(d, maxWindow);
    UnmovedKeepsSound(d, resumed, maxWindow);
    if !d.waitReconnect || serial == 0 || serial == d.outgoingSerAck {
      UnmovedKeepsSound(d, next, maxWindow);
    } else {
      AcknowledgeKeepsSound(resumed, serial, maxWindow);
    }
  }

  lemma RequeueKeepsSound(d: State, maxWindow: nat)
    requires Sound(d, maxWindow)
    ensures Sound(Requeue(d), maxWindow) && SameMemory(d, Requeue(d))
  {
    hide SerialOf, Requeue;
    RequeueKeeps(d);
  }

  lemma AnswerKeepsSound(d: State, serial: nat, maxWindow: nat)
    requires Sound(d, maxWindow)
    ensures var next := AcknowledgeReconnect(d, serial); Sound(next, maxWindow) && AnswerRemembers(d, serial, next)
  {
    hide Sound, Requeue, Answer, Confirms, StartsOver;
    JudgingKeepsSound(d, serial, maxWindow);
    RequeueKeepsSound(Answer(d, serial), maxWindow);
  }

  /** Calls that are neither an acknowledgement nor an answer. */
  predicate IsSilent(call: Call) {
    !call.CallAcknowledge? && !call.CallAnswer?
  }

  lemma HostKeepsSound(d: State, ops: seq<HostOp>, maxWindow: nat)
    requires Sound(d, maxWindow)
    ensures Sound(HostAll(d, ops), maxWindow) && SameMemory(d, HostAll(d, ops))
  {
    hide SerialOf, HostAll;
    HostAllKeeps(d, ops);
  }

  /** Calls that only set flags. */
  lemma FlagKeepsSound(d: State, call: Call, maxWindow: nat)
    requires Sound(d, maxWindow) && (call.CallConnection? ==> call.window <= maxWindow)
    requires IsSilent(call) && !call.CallHost? && !call.CallService?
    ensures Sound(After(d, call), maxWindow) && SameMemory(d, After(d, call))
  {
    hide Sound, Acked;
    SoundIsReady(d, maxWindow);
    UnmovedKeepsSound(d, After(d, call), maxWindow);
  }

  lemma SilentCallKeeps(d: State, call: Call, maxWindow: nat)
    requires Sound(d, maxWindow) && (call.CallConnection? ==> call.window <= maxWindow) && IsSilent(call)
    ensures Sound(After(d, call), maxWindow) && SameMemory(d, After(d, call))
  {
    hide TwoCursor, HostAll, Service, SameMemory, SerialOf;
    match call
    case CallHost(ops) => HostKeepsSound(d, ops, maxWindow);
    case CallService(ops, codes) => ServiceKeepsMemory(d, ops, codes, maxWindow);
    case _ => FlagKeepsSound(d, call, maxWindow);
  }

  /** Whatever is called, with whatever serials: the serial of the session stays that of the acknowledged position
      or 0; and the session has forgotten afterwards if and only if it was just told to start over, or had
      forgotten before and nothing was confirmed. */
  lemma CallRemembers(d: State, call: Call, maxWindow: nat)
    requires Sound(d, maxWindow) && (call.CallConnection? ==> call.window <= maxWindow)
    ensures Ready(d) && Sound(After(d, call), maxWindow)
    ensures Forgot(After(d, call)) <==> StartsOver(d, call) || (Forgot(d) && !Confirms(d, call))
  {
    hide Sound, FindSerial, Acknowledge, AcknowledgeReconnect, Acked, After;
    SoundIsReady(d, maxWindow);
    if IsSilent(call) {
      SilentCallKeeps(d, call, maxWindow);
    } else {
      ReplyRemembers(d, call, maxWindow);
    }
  }

  lemma ReplyRemembers(d: State, call: Call, maxWindow: nat)
    requires Sound(d, maxWindow) && !IsSilent(call)
    ensures Sound(After(d, call), maxWindow)
    ensures Forgot(After(d, call)) <==> StartsOver(d, call) || (Forgot(d) && !Confirms(d, call))
  {
    hide SerialOf, FindSerial, Acknowledge, AcknowledgeReconnect;
    match call
    case CallAcknowledge(serial) => AcknowledgeKeepsSound(d, serial, maxWindow);
    case CallAnswer(serial) => AnswerKeepsSound(d, serial, maxWindow);
  }

  // ----- Which answers are accepted -----

  lemma FoundIsSent(d: State, serial: nat)
    requires TwoCursor(d)
    ensures FindSerial(d.sent, serial) < |d.sent|
      <==> exists k :: Acked(d) < k <= Handed(d) && SerialOf(d.modulus, k) == serial
  {
    hide SerialOf;
    var index := FindSerial(d.sent, serial);
    if index < |d.sent| {
      assert d.sent[index] == d.log[Acked(d) + index];
      assert SerialOf(d.modulus, Acked(d) + index + 1) == serial;
    }
    if k :| Acked(d) < k <= Handed(d) && SerialOf(d.modulus, k) == serial {
      assert d.sent[k - Acked(d) - 1] == d.log[k - 1];
    }
  }

  /** In every state, exactly these answers to a reconnect are accepted: 0, the serial of an event that was sent
      and not acknowledged, and the serial that was acknowledged last, unless the session has forgotten it. */
  lemma AcceptedAnswers(d: State, serial: nat, maxWindow: nat)
    requires Sound(d, maxWindow) && d.waitReconnect && !d.needDisconnect
    ensures AcknowledgeReconnect(d, serial).needDisconnect
      <==> && serial != 0
           && (forall k :: Acked(d) < k <= Handed(d) ==> SerialOf(d.modulus, k) != serial)
           && (Forgot(d) || serial != SerialOf(d.modulus, Acked(d)))
  {
    hide SerialOf, FindSerial;
    SerialRange(d.modulus, Acked(d));
    FoundIsSent(d, serial);
  }

  /** An answer that was not asked for cuts the client off, and moves nothing. */
  lemma UnexpectedAnswer(d: State, serial: nat)
    requires !d.waitReconnect
    ensures var next := AcknowledgeReconnect(d, serial);
      && next.needDisconnect && next.requested
      && next.sent == d.sent && next.outgoing == d.outgoing && next.outgoingSerAck == d.outgoingSerAck
  {
  }

  /** An acknowledgement is accepted if and only if its serial is that of an event sent and not acknowledged; any
      other cuts the client off and moves nothing. */
  lemma AcceptedAcknowledgements(d: State, serial: nat, maxWindow: nat)
    requires Sound(d, maxWindow) && !d.needDisconnect
    ensures var next := Acknowledge(d, serial);
      && (next.needDisconnect <==> forall k :: Acked(d) < k <= Handed(d) ==> SerialOf(d.modulus, k) != serial)
      && (next.needDisconnect ==>
            next.requested && next.sent == d.sent && next.outgoing == d.outgoing
            && next.outgoingSerAck == d.outgoingSerAck)
  {
    hide SerialOf, FindSerial;
    FoundIsSent(d, serial);
    forall k | Acked(d) < k <= Handed(d) ensures SerialOf(d.modulus, k) != 0 { SerialRange(d.modulus, k); }
  }

  /** So a client that names the serial it acknowledged last is cut off if and only if the session has forgotten
      it. */
  lemma ForgottenIsCutOff(d: State, maxWindow: nat)
    requires Sound(d, maxWindow) && d.waitReconnect && !d.needDisconnect && 0 < Acked(d)
    ensures AcknowledgeReconnect(d, SerialOf(d.modulus, Acked(d))).needDisconnect <==> Forgot(d)
  {
    var acked := Acked(d);
    SerialRange(d.modulus, acked);
    forall k | acked < k <= Handed(d) ensures SerialOf(d.modulus, k) != SerialOf(d.modulus, acked) {
      NearbySerialsDiffer(d.modulus, acked, k);
    }
    AcceptedAnswers(d, SerialOf(d.modulus, acked), maxWindow);
  }

  /** An answer of 0: everything that is not acknowledged is sent again, in order, and nothing that is. */
  lemma AnswerStartsOver(d: State)
    requires TwoCursor(d) && d.waitReconnect && !d.needDisconnect
    ensures var next := AcknowledgeReconnect(d, 0);
      && TwoCursor(next) && next.log == d.log && Acked(next) == Acked(d) && Handed(next) == Acked(d)
      && next.sent == [] && next.outgoing == d.log[Acked(d)..]
      && !next.waitReconnect && !next.needDisconnect && next.requested && next.outgoingSerAck == 0
  {
    assert d.log[Acked(d)..] == d.sent + d.outgoing;
  }

  // ----- Whole lists of calls -----

  predicate AllCallable(calls: seq<Call>, maxWindow: nat) {
    forall i :: 0 <= i < |calls| && calls[i].CallConnection? ==> calls[i].window <= maxWindow
  }

  /** The state after the calls; `Initial` and every state reached from it by calls is ready. */
  ghost function Result(d: State, calls: seq<Call>): State {
    if calls == [] then d
    else
      var before := Result(d, calls[..|calls| - 1]);
      if Ready(before) then After(before, calls[|calls| - 1]) else before
  }

  /** The i-th call is an answer of 0 after something was acknowledged, and nothing is confirmed from then on. */
  ghost predicate StartedOverAt(d: State, calls: seq<Call>, i: nat) {
    && i < |calls| && StartsOver(Result(d, calls[..i]), calls[i])
    && forall j :: i < j < |calls| ==> !Confirms(Result(d, calls[..j]), calls[j])
  }

  lemma StartedOverLater(d: State, calls: seq<Call>, call: Call, i: nat)
    ensures StartedOverAt(d, calls + [call], i)
      <==> if i < |calls| then StartedOverAt(d, calls, i) && !Confirms(Result(d, calls), call)
           else i == |calls| && StartsOver(Result(d, calls), call)
  {
    hide Result, Confirms, StartsOver;
    var more := calls + [call];
    assert more[..|calls|] == calls;
    assert forall j :: 0 <= j <= |calls| ==> more[..j] == calls[..j];
    if StartedOverAt(d, more, i) && i < |calls| {
      assert !Confirms(Result(d, more[..|calls|]), more[|calls|]);
    }
  }

  /** Over every list of calls: the session has forgotten if and only if, after something was acknowledged, it was
      told to start over and nothing was confirmed since. */
  lemma {:induction false} ForgotSinceStartingOver(modulus: nat, window: nat, maxWindow: nat, calls: seq<Call>)
    requires window <= maxWindow && maxWindow + 1 < modulus && AllCallable(calls, maxWindow)
    ensures var d := Result(Initial(modulus, window), calls);
      Sound(d, maxWindow) && (Forgot(d) <==> exists i: nat :: StartedOverAt(Initial(modulus, window), calls, i))
    decreases |calls|
  {
    hide After, Sound, Confirms, StartsOver, StartedOverAt;
    var start := Initial(modulus, window);
    if calls == [] {
      InitialIsSound(modulus, window, maxWindow);
      assert forall i: nat :: !StartedOverAt(start, calls, i) by { NothingYet(start); }
    } else {
      var earlier, last := calls[..|calls| - 1], calls[|calls| - 1];
      assert calls == earlier + [last];
      ForgotSinceStartingOver(modulus, window, maxWindow, earlier);
      var d := Result(start, earlier);
      CallRemembers(d, last, maxWindow);
      forall i: nat ensures StartedOverAt(start, calls, i)
        <==> if i < |earlier| then StartedOverAt(start, earlier, i) && !Confirms(d, last)
             else i == |earlier| && StartsOver(d, last)
      {
        StartedOverLater(start, earlier, last, i);
      }
      if i: nat :| StartedOverAt(start, earlier, i) { assert i < |earlier| by { StartedBefore(start, earlier, i); } }
      if StartsOver(d, last) { assert StartedOverAt(start, calls, |earlier|); }
    }
  }

  lemma InitialIsSound(modulus: nat, window: nat, maxWindow: nat)
    requires window <= maxWindow && maxWindow + 1 < modulus
    ensures Sound(Initial(modulus, window), maxWindow) && !Forgot(Initial(modulus, window))
  {
  }

  lemma NothingYet(d: State)
    ensures forall i: nat :: !StartedOverAt(d, [], i)
  {
  }

  lemma StartedBefore(d: State, calls: seq<Call>, i: nat)
    requires StartedOverAt(d, calls, i)
    ensures i < |calls|
  {
  }

  /** The exact condition, over every list of calls and whatever the peer sends: naming the serial acknowledged
      last is answered by a disconnect if and only if the session was told to start over after something was
      acknowledged, and nothing was confirmed since, however much was sent again and however often the
      connection was replaced. */
  lemma CutOffAfterStartingOver(modulus: nat, window: nat, maxWindow: nat, calls: seq<Call>)
    requires window <= maxWindow && maxWindow + 1 < modulus && AllCallable(calls, maxWindow)
    requires var d := Result(Initial(modulus, window), calls); d.waitReconnect && !d.needDisconnect && 0 < Acked(d)
    ensures var d := Result(Initial(modulus, window), calls);
      && 2 <= d.modulus
      && (AcknowledgeReconnect(d, SerialOf(d.modulus, Acked(d))).needDisconnect
          <==> exists i: nat :: StartedOverAt(Initial(modulus, window), calls, i))
  {
    hide Result, StartedOverAt, AcknowledgeReconnect, SerialOf, Forgot;
    ForgotSinceStartingOver(modulus, window, maxWindow, calls);
    ForgottenIsCutOff(Result(Initial(modulus, window), calls), maxWindow);
  }

  // ----- A concrete list of calls -----

  const HELLO := Text(TextLine("hello"))
  const FIRST := RouterEvent(1, 0, HELLO)
  const SECOND := RouterEvent(2, 0, HELLO)

  /** Two events are queued and sent, the first is acknowledged, the connection is replaced, the client answers 0
      and is sent the second event again, and the connection is replaced once more. */
  const SENT_AGAIN: seq<Call> := [
    CallHost([HostEnqueue(0, HELLO), HostEnqueue(0, HELLO)]),
    CallService([], [SendOk, SendOk]),
    CallAcknowledge(1),
    CallConnection(2),
    CallService([], [SendOk]),
    CallAnswer(0),
    CallService([], [SendOk]),
    CallConnection(2),
    CallService([], [SendOk])]

  const QUEUED_STATE := Initial(16, 2).(log := [FIRST, SECOND], outgoing := [FIRST, SECOND], lastSerial := 2)
  const ACKED_STATE := QUEUED_STATE.(outgoing := [], sent := [SECOND], outgoingSerAck := 1)
  const WAITING_STATE := ACKED_STATE.(waitReconnect := true)
  const RESENT_STATE := ACKED_STATE.(outgoingSerAck := 0)

  lemma Queuing()
    ensures After(Initial(16, 2), SENT_AGAIN[0]) == QUEUED_STATE
  {
    var op := HostEnqueue(0, HELLO);
    var d1 := Host(Initial(16, 2), op);
    assert d1 == Initial(16, 2).(log := [FIRST], outgoing := [FIRST], lastSerial := 1);
    assert Host(d1, op) == QUEUED_STATE by { assert [FIRST] + [SECOND] == [FIRST, SECOND]; }
    assert [op, op][1..] == [op] && [op][1..] == [];
    assert HostAll(QUEUED_STATE, []) == QUEUED_STATE;
    assert HostAll(d1, [op]) == QUEUED_STATE;
  }

  lemma SendingOne(d: State)
    requires Ready(d) && |d.outgoing| == 1 && |d.sent| < d.window
    requires !d.needHandleReconnect && !d.waitReconnect && !d.needDisconnect && !d.blocked && !d.needsIncomingAck
    ensures Service(d, [], [SendOk]).0 == d.(requested := false, sent := d.sent + d.outgoing, outgoing := [])
  {
    var t := d.(requested := false);
    assert HostAll(t, []) == t;
    assert CodeAt([SendOk], 0) == SendOk && d.outgoing == [d.outgoing[0]];
    var mid := SendOne(t, SendOk).0;
    assert SendLoop(mid, [SendOk], 1) == (mid, []);
    assert SendLoop(t, [SendOk], 0).0 == mid;
  }

  lemma SendingBoth()
    ensures After(QUEUED_STATE, SENT_AGAIN[1]) == QUEUED_STATE.(outgoing := [], sent := [FIRST, SECOND])
  {
    var codes := [SendOk, SendOk];
    var d := QUEUED_STATE;
    var d1 := d.(sent := [FIRST], outgoing := [SECOND]);
    var d2 := d.(sent := [FIRST, SECOND], outgoing := []);
    assert HostAll(d, []) == d;
    assert CodeAt(codes, 0) == SendOk && CodeAt(codes, 1) == SendOk;
    assert SendOne(d, SendOk).0 == d1;
    assert SendOne(d1, SendOk).0 == d2;
    assert SendLoop(d2, codes, 2).0 == d2;
    assert SendLoop(d1, codes, 1).0 == d2;
    assert SendLoop(d, codes, 0).0 == d2;
  }

  lemma AcknowledgingFirst()
    ensures Acknowledge(QUEUED_STATE.(outgoing := [], sent := [FIRST, SECOND]), 1) == ACKED_STATE
  {
    assert FindSerial([FIRST, SECOND], 1) == 0;
  }

  lemma Greeting(d: State)
    requires Ready(d) && d.connected && !d.needDisconnect && !d.requested && !d.blocked && !d.needsIncomingAck && d.window == 2
    requires !d.needHandleReconnect
    ensures Service(SetConnection(d, 2), [], [SendOk]).0 == d.(waitReconnect := true)
  {
    var t := SetConnection(d, 2).(requested := false);
    assert HostAll(t, []) == t;
  }

  lemma AnsweringZero()
    ensures Ready(AcknowledgeReconnect(WAITING_STATE, 0))
    ensures Service(AcknowledgeReconnect(WAITING_STATE, 0), [], [SendOk]).0 == RESENT_STATE
  {
    var d := AcknowledgeReconnect(WAITING_STATE, 0);
    assert d == ACKED_STATE.(outgoingSerAck := 0, outgoing := [SECOND], sent := [], requested := true);
    SendingOne(d);
    assert [] + [SECOND] == [SECOND];
  }

  lemma AppendCall(d: State, calls: seq<Call>, call: Call)
    requires Ready(Result(d, calls))
    ensures Result(d, calls + [call]) == After(Result(d, calls), call)
  {
    assert (calls + [call])[..|calls|] == calls;
  }

  /** The client still has its state: it acknowledged the first event and has the second. Naming the first, which
      is the serial it acknowledged last, it is cut off; naming the second it would not be, nor with another 0. */
  lemma KeptStateIsCutOff()
    ensures var d := Result(Initial(16, 2), SENT_AGAIN);
      && Sound(d, 2) && d.waitReconnect && !d.needDisconnect && Acked(d) == 1 && SerialOf(d.modulus, 1) == 1
      && AcknowledgeReconnect(d, 1).needDisconnect
      && !AcknowledgeReconnect(d, 2).needDisconnect && !AcknowledgeReconnect(d, 0).needDisconnect
  {
    hide Service, Acknowledge, AcknowledgeReconnect, HostAll;
    SentAgainResult();
    ForgotSinceStartingOver(16, 2, 2, SENT_AGAIN);
    var d := Result(Initial(16, 2), SENT_AGAIN);
    DivModUnique(0, 15, 0, 0);
    DivModUnique(1, 15, 0, 1);
    assert SerialOf(16, 1) == 1 && SerialOf(16, 2) == 2;
    ForgottenIsCutOff(d, 2);
    AcceptedAnswers(d, 2, 2);
    AcceptedAnswers(d, 0, 2);
  }

  lemma SentAgainResult()
    ensures Result(Initial(16, 2), SENT_AGAIN) == RESENT_STATE.(waitReconnect := true)
  {
    hide Service, Acknowledge, AcknowledgeReconnect, HostAll, Result;
    var d, calls := Initial(16, 2), SENT_AGAIN;
    assert Result(d, calls[..0]) == d by { NoCalls(d); }
    Queuing();
    SendingBoth();
    AcknowledgingFirst();
    Greeting(ACKED_STATE);
    AnsweringZero();
    Greeting(RESENT_STATE);
    forall i | 0 <= i < 9 ensures calls[..i + 1] == calls[..i] + [calls[i]] {}
    AppendCall(d, calls[..0], calls[0]);
    AppendCall(d, calls[..1], calls[1]);
    AppendCall(d, calls[..2], calls[2]);
    AppendCall(d, calls[..3], calls[3]);
    AppendCall(d, calls[..4], calls[4]);
    AppendCall(d, calls[..5], calls[5]);
    AppendCall(d, calls[..6], calls[6]);
    AppendCall(d, calls[..7], calls[7]);
    AppendCall(d, calls[..8], calls[8]);
    assert calls[..9] == calls;
  }

  lemma NoCalls(d: State)
    ensures Result(d, []) == d
  {
  }
}
