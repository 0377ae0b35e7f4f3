/** What one service sends, in closed form: how many events go out, what stops it, and what the connection's
    answers do to the session's flags. */
module SendForms {
  import opened RouterEvents
  import opened Delivery

  /** The first of the answers, from the k-th on, other than SendOk. A connection that has used up its answers
      refuses, so there is one. */
  function FirstOther(codes: seq<SendCode>, k: nat): (i: nat)
    ensures k <= i && !CodeAt(codes, i).SendOk?
    ensures forall j :: k <= j < i ==> CodeAt(codes, j).SendOk?
    decreases if k < |codes| then |codes| - k else 0
  {
    if k < |codes| && codes[k].SendOk? then FirstOther(codes, k + 1) else k
  }

  /** How many events there are to send and room for. */
  function Room(d: State): nat {
    if |d.sent| >= d.window then 0
    else if |d.outgoing| <= d.window - |d.sent| then |d.outgoing|
    else d.window - |d.sent|
  }

  /** How many events go out: as many as there is room for, up to the first answer that stops the loop; an answer
      that accepts and blocks counts for one more. */
  function Sent(d: State, codes: seq<SendCode>, k: nat): nat {
    var stop := FirstOther(codes, k) - k;
    if d.blocked then 0
    else if Room(d) <= stop then Room(d)
    else stop + (if CodeAt(codes, k + stop).SendOkBlocked? then 1 else 0)
  }

  /** The connection gave an answer other than SendOk. */
  predicate Stopped(d: State, codes: seq<SendCode>, k: nat) {
    !d.blocked && FirstOther(codes, k) - k < Room(d)
  }

  function Wires(events: seq<RouterEvent>): seq<Wire> {
    seq(|events|, i requires 0 <= i < |events| => WireData(events[i]))
  }

  /** The flags after the answer that stopped the service. */
  predicate FlagsAfter(d: State, next: State, stopped: bool, code: SendCode) {
    && next.blocked == (d.blocked || stopped)
    && next.connected == (d.connected && !(stopped && code.SendDisconnected?))
    && next.needDisconnect == (d.needDisconnect || (stopped && code.SendNotSupported?))
    && next.requested == (d.requested || (stopped && code.SendNotSupported?))
  }

  lemma SentIsSendable(d: State, codes: seq<SendCode>, k: nat)
    ensures Sent(d, codes, k) <= Room(d) <= |d.outgoing|
  {
  }

  lemma WiresCons(events: seq<RouterEvent>, n: nat)
    requires 0 < n <= |events|
    ensures Wires(events[..n]) == [WireData(events[0])] + Wires(events[1..][..n - 1])
  {
    assert events[..n] == [events[0]] + events[1..][..n - 1];
  }

  /** One turn of the loop leaves one event less for the rest of it, or ends it. */
  lemma SendTurn(d: State, codes: seq<SendCode>, k: nat)
    requires KeepsSending(d)
    ensures var mid, n := SendOne(d, CodeAt(codes, k)).0, Sent(d, codes, k);
      && (CodeAt(codes, k).SendOk? ==>
            && !mid.blocked && Room(mid) == Room(d) - 1 && Sent(mid, codes, k + 1) == n - 1
            && Stopped(mid, codes, k + 1) == Stopped(d, codes, k)
            && FirstOther(codes, k) == FirstOther(codes, k + 1))
      && (!CodeAt(codes, k).SendOk? ==>
            && mid.blocked && FirstOther(codes, k) == k && Stopped(d, codes, k)
            && n == (if CodeAt(codes, k).SendOkBlocked? then 1 else 0))
  {
  }

  /** What the loop comes to, from the k-th answer on. */
  predicate Outcome(d: State, next: State, wire: seq<Wire>, codes: seq<SendCode>, k: nat) {
    var n := Sent(d, codes, k);
    && n <= |d.outgoing|
    && wire == Wires(d.outgoing[..n]) && next.outgoing == d.outgoing[n..] && next.sent == d.sent + d.outgoing[..n]
    && FlagsAfter(d, next, Stopped(d, codes, k), CodeAt(codes, FirstOther(codes, k)))
  }

  lemma LoopGoesOn(d: State, next: State, rest: seq<Wire>, codes: seq<SendCode>, k: nat)
    requires KeepsSending(d) && CodeAt(codes, k).SendOk? && Outcome(SendOne(d, SendOk).0, next, rest, codes, k + 1)
    ensures Outcome(d, next, [WireData(d.outgoing[0])] + rest, codes, k)
  {
    hide Sent, Stopped, FirstOther, Wires, CodeAt;
    SentIsSendable(d, codes, k);
    SendTurn(d, codes, k);
    var mid, n := SendOne(d, SendOk).0, Sent(d, codes, k);
    WiresCons(d.outgoing, n);
    assert d.outgoing[..n] == [d.outgoing[0]] + mid.outgoing[..n - 1];
    assert FlagsAfter(mid, next, Stopped(d, codes, k), CodeAt(codes, FirstOther(codes, k)));
  }

  /** A blocked client is sent nothing more. */
  lemma LoopEnds(d: State, codes: seq<SendCode>, k: nat)
    requires KeepsSending(d) && !CodeAt(codes, k).SendOk?
    ensures var (mid, first) := SendOne(d, CodeAt(codes, k));
      SendLoop(d, codes, k) == (mid, first) && Outcome(d, mid, first, codes, k)
  {
    hide Sent, Stopped, FirstOther, CodeAt;
    SendTurn(d, codes, k);
    var (mid, first) := SendOne(d, CodeAt(codes, k));
    assert SendLoop(mid, codes, k + 1) == (mid, []);
    assert first + [] == first;
  }

  lemma LoopRests(d: State, codes: seq<SendCode>, k: nat)
    requires !KeepsSending(d)
    ensures SendLoop(d, codes, k) == (d, []) && Outcome(d, d, [], codes, k)
  {
    hide FirstOther, CodeAt;
    NothingToSend(d, codes, k);
    assert d.outgoing[..0] == [];
  }

  lemma Unfolds(d: State, codes: seq<SendCode>, k: nat)
    requires KeepsSending(d) && CodeAt(codes, k).SendOk?
    ensures var rest := SendLoop(SendOne(d, SendOk).0, codes, k + 1);
      SendLoop(d, codes, k) == (rest.0, [WireData(d.outgoing[0])] + rest.1)
  {
  }

  /** The loop, call by call, comes to the closed form. */
  lemma {:induction false} SendLoopIs(d: State, codes: seq<SendCode>, k: nat)
    ensures Outcome(d, SendLoop(d, codes, k).0, SendLoop(d, codes, k).1, codes, k)
    decreases |d.outgoing|, !d.blocked
  {
    hide Outcome, SendLoop;
    if !KeepsSending(d) {
      LoopRests(d, codes, k);
    } else if CodeAt(codes, k).SendOk? {
      var mid := SendOne(d, SendOk).0;
      SendLoopIs(mid, codes, k + 1);
      Unfolds(d, codes, k);
      LoopGoesOn(d, SendLoop(mid, codes, k + 1).0, SendLoop(mid, codes, k + 1).1, codes, k);
    } else {
      LoopEnds(d, codes, k);
    }
  }

  lemma NothingToSend(d: State, codes: seq<SendCode>, k: nat)
    requires !KeepsSending(d)
    ensures Sent(d, codes, k) == 0 && !Stopped(d, codes, k)
  {
  }

  /** How many events a whole service sends when nothing stands in its way: none when the client's own messages are
      to be acknowledged first and that blocks. */
  function SentInPhase(d: State, codes: seq<SendCode>): nat {
    if !d.needsIncomingAck then Sent(d, codes, 0)
    else if CodeAt(codes, 0).SendOk? then Sent(d, codes, 1)
    else 0
  }

  /** The connection is called for the acknowledgement and then for each event there is room for, up to the first
      answer other than SendOk, and that one alone changes the flags. */
  lemma SendPhaseIs(d: State, codes: seq<SendCode>)
    requires !d.needHandleReconnect && !d.waitReconnect && !d.blocked
    ensures var (next, wire) := SendPhase(d, codes);
      var n, calls := SentInPhase(d, codes), Room(d) + (if d.needsIncomingAck then 1 else 0);
      && n <= |d.outgoing| && next.outgoing == d.outgoing[n..] && next.sent == d.sent + d.outgoing[..n]
      && wire == (if d.needsIncomingAck && Accepted(CodeAt(codes, 0)) then [WireAck(d.incomingSerAck)] else [])
                 + Wires(d.outgoing[..n])
      && FlagsAfter(d, next, FirstOther(codes, 0) < calls, CodeAt(codes, FirstOther(codes, 0)))
  {
    hide FirstOther, CodeAt, Wires, SendLoop;
    if d.needsIncomingAck {
      AcknowledgingPhase(d, codes);
    } else {
      SendLoopIs(d, codes, 0);
    }
  }

  lemma AcknowledgingPhase(d: State, codes: seq<SendCode>)
    requires !d.needHandleReconnect && !d.waitReconnect && !d.blocked && d.needsIncomingAck
    ensures var (next, wire) := SendPhase(d, codes);
      var n := SentInPhase(d, codes);
      && n <= |d.outgoing| && next.outgoing == d.outgoing[n..] && next.sent == d.sent + d.outgoing[..n]
      && wire == (if Accepted(CodeAt(codes, 0)) then [WireAck(d.incomingSerAck)] else []) + Wires(d.outgoing[..n])
      && FlagsAfter(d, next, FirstOther(codes, 0) < Room(d) + 1, CodeAt(codes, FirstOther(codes, 0)))
  {
    hide CodeAt, Wires, SendLoop, FirstOther;
    var t := AfterSend(d.(needsIncomingAck := false), CodeAt(codes, 0));
    SendLoopIs(t, codes, 1);
    FirstAnswer(codes);
    assert Room(t) == Room(d);
  }

  lemma FirstAnswer(codes: seq<SendCode>)
    ensures FirstOther(codes, 0) == if CodeAt(codes, 0).SendOk? then FirstOther(codes, 1) else 0
  {
  }
}
