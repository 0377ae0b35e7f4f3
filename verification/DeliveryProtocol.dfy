/** The delivery protocol as a whole: the session, one connection that is FIFO but loses
    everything in flight when it goes down, and a client that follows the rules of
    comm_ClientConnection.h. The client may lose its state while it has no working connection, so one
    that never keeps any over a reconnect is covered too. */
module DeliveryProtocol {
  import opened RouterEvents
  import opened Serials
  import opened Delivery

  /** What the client sends back. `count` is history: how many events the acknowledgement covers. */
  datatype Reply =
    | ReplyAck(serial: nat, count: nat)
    | ReplyReconnect(serial: nat, count: nat)

  /** The connection; `live` turns false when it goes down. */
  datatype Net = Net(live: bool, down: seq<Wire>, up: seq<Reply>)

  /** The client keeps what it received, how much of it it has acknowledged so far, and whether it
      has reconnected without having seen the session's reconnect acknowledgement yet. It remembers what it
      received from position `from` on; what came before was received and acknowledged by a client that has
      lost its state since. */
  datatype Client = Client(received: seq<RouterEvent>, acked: nat, resuming: bool, from: nat)

  datatype System = System(d: State, net: Net, client: Client)

  function LastSerial(received: seq<RouterEvent>): nat {
    if received == [] then 0 else received[|received| - 1].serial
  }

  function Remembered(client: Client): seq<RouterEvent> {
    if client.from <= |client.received| then client.received[client.from..] else []
  }

  /** How much of what the client received the session knows it has. */
  function Confirmed(s: System): nat {
    if 0 <= Acked(s.d) <= |s.client.received| then Acked(s.d) else 0
  }

  datatype Step =
    | HostStep(ops: seq<HostOp>)
    | ServiceStep(ops: seq<HostOp>, codes: seq<SendCode>)
    | ClientReceives
    | ClientAcks(count: nat)
    | SessionReceives
    | ConnectionUnblocks
    | ConnectionLost
    | SessionToldOfLoss
    | DisconnectRequested
    | Reconnects(window: nat)
    | ClientForgets

  /** A compliant client acknowledges only what it received, in strictly increasing order, and on a
      new connection only after the reconnect handshake reached it. It loses its state only while no connection
      works for it. */
  predicate Enabled(s: System, step: Step, maxWindow: nat) {
    match step
    case HostStep(_) => Ready(s.d)
    case ServiceStep(_, _) => Ready(s.d)
    case ClientReceives => s.net.down != []
    case ClientAcks(count) => s.net.live && !s.client.resuming && s.client.acked < count <= |s.client.received|
    case SessionReceives => s.net.up != []
    case Reconnects(window) => window <= maxWindow
    case ClientForgets => !s.net.live || s.client.resuming
    case _ => true
  }

  function ClientTakes(s: System): System
    requires s.net.down != []
  {
    var net := s.net.(down := s.net.down[1..]);
    match s.net.down[0]
    case WireAck(_) => s.(net := net)
    case WireData(event) => s.(net := net, client := s.client.(received := s.client.received + [event]))
    case WireReconnect(_) =>
      var all := |s.client.received|;
      s.(net := net.(up := net.up + [ReplyReconnect(LastSerial(Remembered(s.client)), all)]),
         client := s.client.(acked := all, resuming := false))
  }

  function SessionTakes(s: System): System
    requires s.net.up != []
  {
    var d := match s.net.up[0]
      case ReplyAck(serial, _) => Acknowledge(s.d, serial)
      case ReplyReconnect(serial, _) => AcknowledgeReconnect(s.d, serial);
    s.(d := d, net := s.net.(up := s.net.up[1..]))
  }

  function Carry(net: Net, wire: seq<Wire>): Net {
    if net.live then net.(down := net.down + wire) else net
  }

  function Next(s: System, step: Step, maxWindow: nat): System
    requires Enabled(s, step, maxWindow)
  {
    match step
    case HostStep(ops) => s.(d := HostAll(s.d, ops))
    case ServiceStep(ops, codes) =>
      var (d, wire) := Service(s.d, ops, codes);
      s.(d := d, net := Carry(s.net, wire))
    case ClientReceives => ClientTakes(s)
    case ClientAcks(count) =>
      var reply := ReplyAck(s.client.received[count - 1].serial, count);
      s.(net := s.net.(up := s.net.up + [reply]), client := s.client.(acked := count))
    case SessionReceives => SessionTakes(s)
    case ConnectionUnblocks => s.(d := Unblocked(s.d))
    case ConnectionLost => s.(net := Net(false, [], []))
    case SessionToldOfLoss => s.(d := Disconnected(s.d))
    case DisconnectRequested => s.(d := MarkDisconnect(s.d))
    case Reconnects(window) => s.(d := SetConnection(s.d, window), net := Net(true, [], []), client := s.client.(resuming := true))
    case ClientForgets =>
      s.(client := s.client.(received := s.client.received[..Confirmed(s)], acked := Confirmed(s), from := Confirmed(s)))
  }

  function Start(modulus: nat, window: nat): System {
    System(Initial(modulus, window), Net(true, [], []), Client([], 0, false, 0))
  }

  ghost predicate Legal(s: System, steps: seq<Step>, maxWindow: nat)
    decreases steps
  {
    steps == [] ||
    (Enabled(s, steps[0], maxWindow) && Legal(Next(s, steps[0], maxWindow), steps[1..], maxWindow))
  }

  ghost function Run(s: System, steps: seq<Step>, maxWindow: nat): System
    requires Legal(s, steps, maxWindow)
    decreases steps
  {
    if steps == [] then s else Run(Next(s, steps[0], maxWindow), steps[1..], maxWindow)
  }

  // ----- The invariant -----

  function DataOf(wire: seq<Wire>): seq<RouterEvent> {
    if wire == [] then []
    else (if wire[0].WireData? then [wire[0].event] else []) + DataOf(wire[1..])
  }

  predicate NoReconnect(wire: seq<Wire>) {
    forall i :: 0 <= i < |wire| ==> !wire[i].WireReconnect?
  }

  ghost predicate Cursors(s: System, maxWindow: nat) {
    && TwoCursor(s.d)
    && maxWindow + 1 < s.d.modulus
    && s.d.window <= maxWindow
    && |s.d.sent| <= maxWindow
    && (s.d.outgoingSerAck == SerialOf(s.d.modulus, Acked(s.d))
        || (s.d.outgoingSerAck == 0 && Acked(s.d) == s.client.from))
    && s.client.from <= Acked(s.d) <= s.client.acked <= |s.client.received| <= Handed(s.d)
    && s.client.received == s.d.log[..|s.client.received|]
  }

  /** Acknowledgements in flight name strictly increasing positions past the acknowledged one. */
  ghost predicate AcksInFlight(up: seq<Reply>, modulus: nat, acked: int, clientAcked: nat)
    requires 2 <= modulus
    decreases up
  {
    up == [] ||
    (&& up[0].ReplyAck?
     && acked < up[0].count <= clientAcked
     && up[0].serial == SerialOf(modulus, up[0].count)
     && AcksInFlight(up[1..], modulus, up[0].count, clientAcked))
  }

  /** The data in flight is the part of the log that follows what the client has. */
  ghost predicate Continues(s: System) {
    var r, data := |s.client.received|, DataOf(s.net.down);
    r + |data| <= Handed(s.d) <= |s.d.log| && data == s.d.log[r..r + |data|]
  }

  /** Everything handed to this connection is either with the client or in flight. */
  ghost predicate Complete(s: System) {
    s.net.live && !s.d.waitReconnect ==>
      |s.client.received| + |DataOf(s.net.down)| == Handed(s.d)
  }

  /** Not reconnecting: data flows down, acknowledgements flow up. */
  ghost predicate Flowing(s: System)
    requires 2 <= s.d.modulus
  {
    !s.d.needHandleReconnect && !s.client.resuming && NoReconnect(s.net.down) && Continues(s)
    && AcksInFlight(s.net.up, s.d.modulus, Acked(s.d), s.client.acked)
  }

  /** Reconnecting: nothing but the handshake is in flight. */
  ghost predicate Handshaking(s: System) {
    || (s.client.resuming && s.net.down == [] && s.net.up == [])
    || (s.client.resuming && !s.d.needHandleReconnect && s.net.up == [] && |s.net.down| == 1 && s.net.down[0].WireReconnect?)
    || (!s.d.needHandleReconnect && s.net.down == [] && |s.net.up| == 1
        && !s.client.resuming && s.client.acked == |s.client.received|
        && s.net.up[0] == ReplyReconnect(LastSerial(Remembered(s.client)), |s.client.received|))
  }

  ghost predicate InFlight(s: System)
    requires 2 <= s.d.modulus
  {
    && (s.d.needHandleReconnect ==> s.d.waitReconnect)
    && (!s.net.live ==> s.net.down == [] && s.net.up == [])
    && (s.net.live ==> if s.d.waitReconnect then Handshaking(s) else Flowing(s))
    && (!s.d.needDisconnect ==> Complete(s))
  }

  ghost predicate Inv(s: System, maxWindow: nat) {
    Cursors(s, maxWindow) && InFlight(s)
  }

  // ----- What the session's operations do to the two cursors -----

  /** Only the back of the log grew; the cursors stand. */
  ghost predicate OnlyQueued(d: State, next: State) {
    && d.log <= next.log
    && next.sent == d.sent
    && Handed(next) == Handed(d)
    && next == d.(log := next.log, outgoing := next.outgoing, lastSerial := next.lastSerial,
                  requested := next.requested, needDisconnect := next.needDisconnect,
                  incomingSerAck := next.incomingSerAck, needsIncomingAck := next.needsIncomingAck)
    && (d.needDisconnect ==> next.needDisconnect)
  }

  lemma EnqueueKeeps(d: State, channelId: nat, data: EventData)
    requires TwoCursor(d)
    ensures TwoCursor(Enqueue(d, channelId, data)) && OnlyQueued(d, Enqueue(d, channelId, data))
  {
    hide NextSerial, SerialOf;
    NextIsConsecutive(d.modulus, |d.log|);
  }

  lemma HostKeeps(d: State, op: HostOp)
    requires TwoCursor(d)
    ensures TwoCursor(Host(d, op)) && OnlyQueued(d, Host(d, op))
  {
    hide NextSerial, Enqueue, SerialOf;
    if op.HostEnqueue? {
      EnqueueKeeps(d, op.channelId, op.data);
    }
  }

  lemma QueuedTwice(d: State, mid: State, next: State)
    requires OnlyQueued(d, mid) && OnlyQueued(mid, next)
    ensures OnlyQueued(d, next)
  {
  }

  lemma {:induction false} HostAllKeeps(d: State, ops: seq<HostOp>)
    requires TwoCursor(d)
    ensures TwoCursor(HostAll(d, ops)) && OnlyQueued(d, HostAll(d, ops))
    decreases ops
  {
    if ops != [] {
      var mid := Host(d, ops[0]);
      HostKeeps(d, ops[0]);
      HostAllKeeps(mid, ops[1..]);
      QueuedTwice(d, mid, HostAll(mid, ops[1..]));
    }
  }

  /** Only the cursor between sent and unsent moved forward, and the wire carries exactly the
      events it passed over. */
  ghost predicate OnlySent(d: State, next: State, wire: seq<Wire>) {
    && next.modulus == d.modulus && next.log == d.log && next.lastSerial == d.lastSerial
    && next.outgoingSerAck == d.outgoingSerAck && next.window == d.window
    && next.needHandleReconnect == d.needHandleReconnect && next.waitReconnect == d.waitReconnect
    && Acked(next) == Acked(d)
    && 0 <= Handed(d) <= Handed(next) <= |d.log|
    && NoReconnect(wire)
    && DataOf(wire) == d.log[Handed(d)..Handed(next)]
    && (|next.sent| <= |d.sent| || |next.sent| <= d.window)
    && (d.needDisconnect ==> next.needDisconnect)
  }

  lemma {:induction false} DataOfAppend(a: seq<Wire>, b: seq<Wire>)
    ensures DataOf(a + b) == DataOf(a) + DataOf(b)
  {
    if a == [] {
      assert a + b == b;
    } else {
      assert (a + b)[0] == a[0] && (a + b)[1..] == a[1..] + b;
      DataOfAppend(a[1..], b);
      Associative(if a[0].WireData? then [a[0].event] else [], DataOf(a[1..]), DataOf(b));
    }
  }

  lemma SentTwice(d: State, mid: State, next: State, first: seq<Wire>, rest: seq<Wire>)
    requires OnlySent(d, mid, first) && OnlySent(mid, next, rest)
    ensures OnlySent(d, next, first + rest)
  {
    DataOfAppend(first, rest);
    assert d.log[Handed(d)..Handed(next)] == d.log[Handed(d)..Handed(mid)] + d.log[Handed(mid)..Handed(next)];
  }

  /** Moving the cursors over an unchanged log keeps the two-cursor form. */
  lemma Recut(d: State, next: State, acked: nat, handed: nat)
    requires TwoCursor(d) && acked <= handed <= |d.log|
    requires next.modulus == d.modulus && next.log == d.log && next.lastSerial == d.lastSerial
    requires next.sent == d.log[acked..handed] && next.outgoing == d.log[handed..]
    ensures TwoCursor(next) && Acked(next) == acked && Handed(next) == handed
  {
  }

  lemma SendOneKeepsCursors(d: State, code: SendCode)
    requires TwoCursor(d) && KeepsSending(d)
    ensures TwoCursor(SendOne(d, code).0)
  {
    hide SerialOf;
    var next, at := SendOne(d, code).0, Handed(d);
    if Accepted(code) {
      assert d.sent + [d.outgoing[0]] == d.log[Acked(d)..at + 1];
      Recut(d, next, Acked(d), at + 1);
    } else {
      SameCursors(d, next);
    }
  }

  /** An event crosses the cursor, or stays. */
  lemma SendOneKeeps(d: State, code: SendCode)
    requires TwoCursor(d) && KeepsSending(d)
    ensures TwoCursor(SendOne(d, code).0)
    ensures OnlySent(d, SendOne(d, code).0, SendOne(d, code).1)
  {
    SendOneKeepsCursors(d, code);
    var at := Handed(d);
    assert d.outgoing[0] == d.log[at];
    assert DataOf([WireData(d.log[at])]) == [d.log[at]] + DataOf([]);
    assert d.log[at..at + 1] == [d.log[at]];
  }

  lemma {:induction false} SendLoopKeeps(d: State, codes: seq<SendCode>, k: nat)
    requires TwoCursor(d)
    ensures TwoCursor(SendLoop(d, codes, k).0) && !KeepsSending(SendLoop(d, codes, k).0)
    ensures OnlySent(d, SendLoop(d, codes, k).0, SendLoop(d, codes, k).1)
    decreases |d.outgoing|, !d.blocked
  {
    if KeepsSending(d) {
      var (mid, first) := SendOne(d, CodeAt(codes, k));
      SendOneKeeps(d, CodeAt(codes, k));
      SendLoopKeeps(mid, codes, k + 1);
      SentTwice(d, mid, SendLoop(mid, codes, k + 1).0, first, SendLoop(mid, codes, k + 1).1);
    }
  }

  // ----- Every step keeps the invariant -----

  lemma QueuingKeepsCursors(s: System, next: State, maxWindow: nat)
    requires Cursors(s, maxWindow) && TwoCursor(next) && OnlyQueued(s.d, next)
    ensures Cursors(s.(d := next), maxWindow)
  {
  }

  lemma QueuingKeepsInFlight(s: System, next: State)
    requires 2 <= s.d.modulus && InFlight(s) && OnlyQueued(s.d, next)
    ensures InFlight(s.(d := next)) && (Complete(s) ==> Complete(s.(d := next)))
  {
  }

  lemma QueuingKeeps(s: System, ops: seq<HostOp>, maxWindow: nat)
    requires Inv(s, maxWindow)
    ensures var t := s.(d := HostAll(s.d, ops));
      Inv(t, maxWindow) && (Complete(s) ==> Complete(t))
  {
    HostAllKeeps(s.d, ops);
    QueuingKeepsCursors(s, HostAll(s.d, ops), maxWindow);
    QueuingKeepsInFlight(s, HostAll(s.d, ops));
  }

  lemma SendingKeepsCursors(s: System, next: State, wire: seq<Wire>, maxWindow: nat)
    requires Cursors(s, maxWindow) && TwoCursor(next) && OnlySent(s.d, next, wire)
    ensures Cursors(s.(d := next, net := Carry(s.net, wire)), maxWindow)
  {
  }

  /** What goes on the wire in the normal phase continues what is already in flight. */
  lemma SendingKeepsInFlight(s: System, next: State, wire: seq<Wire>)
    requires 2 <= s.d.modulus && InFlight(s) && Complete(s) && !s.d.waitReconnect
    requires OnlySent(s.d, next, wire)
    ensures var t := s.(d := next, net := Carry(s.net, wire)); InFlight(t) && Complete(t)
  {
    hide TwoCursor, AcksInFlight, SerialOf;
    if s.net.live {
      DataOfAppend(s.net.down, wire);
      var r, n := |s.client.received|, |DataOf(s.net.down)|;
      assert s.d.log[r..Handed(next)] == s.d.log[r..r + n] + s.d.log[r + n..Handed(next)];
    }
  }

  /** The acknowledgement of the client's own messages that precedes the events. */
  function AckFirst(s: System, code: SendCode): System {
    s.(d := AfterSend(s.d.(needsIncomingAck := false), code),
       net := Carry(s.net, AckWire(s.d, code)))
  }

  function AckWire(d: State, code: SendCode): seq<Wire> {
    if Accepted(code) then [WireAck(d.incomingSerAck)] else []
  }

  lemma AckFirstKeeps(s: System, code: SendCode, maxWindow: nat)
    requires Inv(s, maxWindow) && Complete(s) && !s.d.waitReconnect
    ensures Inv(AckFirst(s, code), maxWindow) && Complete(AckFirst(s, code))
  {
    var t, wire := AckFirst(s, code), AckWire(s.d, code);
    assert DataOf(wire) == [];
    assert OnlySent(s.d, t.d, wire);
    SendingKeepsCursors(s, t.d, wire, maxWindow);
    SendingKeepsInFlight(s, t.d, wire);
  }

  lemma SendLoopStepKeeps(s: System, codes: seq<SendCode>, k: nat, maxWindow: nat)
    requires Inv(s, maxWindow) && Complete(s) && !s.d.waitReconnect
    ensures var (d, wire) := SendLoop(s.d, codes, k);
      Inv(s.(d := d, net := Carry(s.net, wire)), maxWindow)
  {
    SendLoopKeeps(s.d, codes, k);
    var (d, wire) := SendLoop(s.d, codes, k);
    SendingKeepsCursors(s, d, wire, maxWindow);
    SendingKeepsInFlight(s, d, wire);
  }

  lemma ReconnectGreetingKeeps(s: System, code: SendCode, maxWindow: nat)
    requires Inv(s, maxWindow) && s.d.needHandleReconnect
    ensures var wire := if Accepted(code) then [WireReconnect(s.d.incomingSerAck)] else [];
      var d := s.d.(needsIncomingAck := false, needHandleReconnect := false, waitReconnect := true);
      Inv(s.(d := d, net := Carry(s.net, wire)), maxWindow)
  {
  }

  lemma CarryTwice(net: Net, first: seq<Wire>, rest: seq<Wire>)
    ensures Carry(Carry(net, first), rest) == Carry(net, first + rest)
  {
  }

  lemma AckThenLoopKeeps(s: System, codes: seq<SendCode>, maxWindow: nat)
    requires Inv(s, maxWindow) && Complete(s) && !s.d.waitReconnect
    ensures var t := AckFirst(s, CodeAt(codes, 0));
      var (d, wire) := SendLoop(t.d, codes, 1);
      Inv(s.(d := d, net := Carry(s.net, AckWire(s.d, CodeAt(codes, 0)) + wire)), maxWindow)
  {
    var t := AckFirst(s, CodeAt(codes, 0));
    AckFirstKeeps(s, CodeAt(codes, 0), maxWindow);
    SendLoopStepKeeps(t, codes, 1, maxWindow);
    CarryTwice(s.net, AckWire(s.d, CodeAt(codes, 0)), SendLoop(t.d, codes, 1).1);
  }

  lemma SilentServiceKeeps(s: System, next: State, maxWindow: nat)
    requires Inv(s, maxWindow)
    requires next == s.d.(requested := next.requested, connected := next.connected)
    ensures Inv(s.(d := next, net := Carry(s.net, [])), maxWindow)
    ensures Complete(s) ==> Complete(s.(d := next))
  {
    assert s.net.down + [] == s.net.down;
  }

  lemma SendPhaseKeeps(s: System, codes: seq<SendCode>, maxWindow: nat)
    requires Inv(s, maxWindow) && Complete(s)
    ensures var (d, wire) := SendPhase(s.d, codes);
      Inv(s.(d := d, net := Carry(s.net, wire)), maxWindow)
  {
    if s.d.needHandleReconnect {
      ReconnectGreetingKeeps(s, CodeAt(codes, 0), maxWindow);
    } else if s.d.waitReconnect || s.d.blocked {
      SilentServiceKeeps(s, s.d, maxWindow);
    } else if s.d.needsIncomingAck {
      AckThenLoopKeeps(s, codes, maxWindow);
    } else {
      SendLoopStepKeeps(s, codes, 0, maxWindow);
    }
  }

  lemma ServiceKeeps(s: System, ops: seq<HostOp>, codes: seq<SendCode>, maxWindow: nat)
    requires Inv(s, maxWindow)
    ensures Inv(Next(s, ServiceStep(ops, codes), maxWindow), maxWindow)
  {
    if s.d.needDisconnect {
      SilentServiceKeeps(s, s.d.(requested := false, connected := false), maxWindow);
    } else {
      var t := s.(d := s.d.(requested := false));
      SilentServiceKeeps(s, t.d, maxWindow);
      QueuingKeeps(t, ops, maxWindow);
      SendPhaseKeeps(t.(d := HostAll(t.d, ops)), codes, maxWindow);
    }
  }

  lemma DataArrives(s: System, maxWindow: nat)
    requires Inv(s, maxWindow) && s.net.down != [] && s.net.down[0].WireData?
    ensures Inv(ClientTakes(s), maxWindow)
  {
    hide AcksInFlight, SerialOf;
    var head, rest := s.net.down[0], s.net.down[1..];
    assert head.event == DataOf(s.net.down)[0] == s.d.log[|s.client.received|];
    assert DataOf(rest) == DataOf(s.net.down)[1..];
  }

  lemma GreetingArrives(s: System, maxWindow: nat)
    requires Inv(s, maxWindow) && s.net.down != [] && s.net.down[0].WireReconnect?
    ensures Inv(ClientTakes(s), maxWindow)
  {
  }

  lemma AcknowledgementArrives(s: System, maxWindow: nat)
    requires Inv(s, maxWindow) && s.net.down != [] && s.net.down[0].WireAck?
    ensures Inv(ClientTakes(s), maxWindow)
  {
    hide TwoCursor, AcksInFlight, SerialOf;
    var rest := s.net.down[1..];
    assert ClientTakes(s) == s.(net := s.net.(down := rest));
    assert s.net.down == [s.net.down[0]] + rest;
    assert DataOf(s.net.down) == DataOf(rest);
  }

  lemma ClientReceivesKeeps(s: System, maxWindow: nat)
    requires Inv(s, maxWindow) && s.net.down != []
    ensures Inv(ClientTakes(s), maxWindow)
  {
    hide Inv;
    match s.net.down[0]
    case WireData(_) => DataArrives(s, maxWindow);
    case WireReconnect(_) => GreetingArrives(s, maxWindow);
    case WireAck(_) => AcknowledgementArrives(s, maxWindow);
  }

  lemma {:induction false} AcksAppend(up: seq<Reply>, modulus: nat, acked: int, clientAcked: nat, count: nat)
    requires 2 <= modulus && AcksInFlight(up, modulus, acked, clientAcked)
    requires acked <= clientAcked < count
    ensures AcksInFlight(up + [ReplyAck(SerialOf(modulus, count), count)], modulus, acked, count)
    decreases up
  {
    var last := ReplyAck(SerialOf(modulus, count), count);
    if up == [] {
      assert up + [last] == [last];
      assert AcksInFlight([], modulus, count, count);
    } else {
      assert (up + [last])[1..] == up[1..] + [last];
      AcksAppend(up[1..], modulus, up[0].count, clientAcked, count);
    }
  }

  lemma ClientAcksKeeps(s: System, count: nat, maxWindow: nat)
    requires Inv(s, maxWindow) && Enabled(s, ClientAcks(count), maxWindow)
    ensures Inv(Next(s, ClientAcks(count), maxWindow), maxWindow)
  {
    assert s.client.received[count - 1] == s.d.log[count - 1];
    assert !s.d.waitReconnect;
    AcksAppend(s.net.up, s.d.modulus, Acked(s.d), s.client.acked, count);
  }

  // ----- What the client sends back always names a position -----

  /** Inside the window an acknowledged serial is found, at the position it was meant for. */
  lemma AckedSerialIsFound(d: State, count: nat)
    requires TwoCursor(d) && |d.sent| + 1 < d.modulus && Acked(d) < count <= Handed(d)
    ensures FindSerial(d.sent, SerialOf(d.modulus, count)) == count - Acked(d) - 1
  {
    var index := FindSerial(d.sent, SerialOf(d.modulus, count));
    var target := count - Acked(d) - 1;
    assert d.sent[target] == d.log[count - 1];
    if index < target {
      assert d.sent[index] == d.log[Acked(d) + index];
      NearbySerialsDiffer(d.modulus, Acked(d) + index + 1, count);
    }
  }

  /** The acknowledgement handlers leave everything but the cursors and `requested` alone. */
  ghost predicate OnlyAcknowledged(d: State, next: State, serial: nat, count: nat) {
    && 2 <= d.modulus && TwoCursor(next) && Acked(next) == count && |next.sent| <= |d.sent|
    && next.outgoingSerAck == serial
    && next.modulus == d.modulus && next.log == d.log && next.window == d.window
    && next.needDisconnect == d.needDisconnect && next.needHandleReconnect == d.needHandleReconnect
  }

  /** A good acknowledgement moves the first cursor and nothing else. */
  lemma AcknowledgeMovesCursor(d: State, count: nat)
    requires TwoCursor(d) && |d.sent| + 1 < d.modulus && Acked(d) < count <= Handed(d)
    ensures var next := Acknowledge(d, SerialOf(d.modulus, count));
      && OnlyAcknowledged(d, next, SerialOf(d.modulus, count), count) && Handed(next) == Handed(d)
      && next.waitReconnect == d.waitReconnect
  {
    hide FindSerial, SerialOf;
    AckedSerialIsFound(d, count);
    SerialRange(d.modulus, count);
    var next := Acknowledge(d, SerialOf(d.modulus, count));
    assert next.sent == d.log[count..Handed(d)];
    Recut(d, next, count, Handed(d));
  }

  lemma RequeueKeeps(d: State)
    requires TwoCursor(d)
    ensures TwoCursor(Requeue(d)) && Acked(Requeue(d)) == Acked(d)
    ensures Handed(Requeue(d)) == if d.needDisconnect then Handed(d) else Acked(d)
    ensures var next := Requeue(d);
      && next == d.(outgoing := next.outgoing, sent := next.sent, requested := next.requested) && |next.sent| <= |d.sent|
  {
    if !d.needDisconnect {
      assert d.sent + d.outgoing == d.log[Acked(d)..];
      Recut(d, Requeue(d), Acked(d), Acked(d));
    }
  }

  /** What a client answers a reconnect with: 0 if it remembers nothing past the acknowledged position, and else
      the serial of the position it reached, which is past the acknowledged one or was acknowledged last. */
  predicate Names(d: State, serial: nat, count: nat)
    requires 2 <= d.modulus
  {
    || (serial == 0 && count == Acked(d))
    || (0 < count && serial == SerialOf(d.modulus, count) && (Acked(d) < count || d.outgoingSerAck == serial))
  }

  /** Reconnecting names the position the client reached, whether or not it is the acknowledged
      one; nothing is lost by requeueing from there. */
  lemma AnswerMovesCursor(d: State, serial: nat, count: nat)
    requires TwoCursor(d) && |d.sent| + 1 < d.modulus && Acked(d) <= count <= Handed(d)
    requires d.waitReconnect && (d.outgoingSerAck == 0 || d.outgoingSerAck == SerialOf(d.modulus, Acked(d)))
    requires Names(d, serial, count)
    ensures var next := Answer(d, serial);
      OnlyAcknowledged(d, next, serial, count) && Handed(next) == Handed(d) && !next.waitReconnect
  {
    hide Acknowledge, SerialOf;
    var resumed := d.(waitReconnect := false);
    SerialRange(d.modulus, count);
    if serial != 0 && Acked(d) < count {
      NearbySerialsDiffer(d.modulus, Acked(d), count);
      AcknowledgeMovesCursor(resumed, count);
    }
  }

  lemma ReconnectMovesCursor(d: State, serial: nat, count: nat)
    requires TwoCursor(d) && |d.sent| + 1 < d.modulus && Acked(d) <= count <= Handed(d)
    requires d.waitReconnect && (d.outgoingSerAck == 0 || d.outgoingSerAck == SerialOf(d.modulus, Acked(d)))
    requires Names(d, serial, count)
    ensures var next := AcknowledgeReconnect(d, serial);
      && OnlyAcknowledged(d, next, serial, count) && !next.waitReconnect
      && Handed(next) == (if d.needDisconnect then Handed(d) else count)
  {
    hide Requeue, Answer, TwoCursor, SerialOf, Acked, Handed, Names;
    AnswerMovesCursor(d, serial, count);
    RequeueKeeps(Answer(d, serial));
  }

  lemma SessionTakesAckKeeps(s: System, maxWindow: nat)
    requires Inv(s, maxWindow) && s.net.up != [] && s.net.up[0].ReplyAck?
    ensures Inv(SessionTakes(s), maxWindow) && SessionTakes(s).d.needDisconnect == s.d.needDisconnect
  {
    AcknowledgeMovesCursor(s.d, s.net.up[0].count);
  }

  /** A client that follows the rules names its position. */
  lemma ReplyNames(s: System, maxWindow: nat)
    requires Cursors(s, maxWindow)
    ensures Names(s.d, LastSerial(Remembered(s.client)), |s.client.received|)
    ensures LastSerial(Remembered(s.client))
      == if |s.client.received| == s.client.from then 0 else SerialOf(s.d.modulus, |s.client.received|)
  {
    var r := |s.client.received|;
    if s.client.from < r {
      assert s.client.received[r - 1] == s.d.log[r - 1];
      assert Remembered(s.client)[r - s.client.from - 1] == s.client.received[r - 1];
    }
  }

  lemma SessionTakesReconnectKeeps(s: System, maxWindow: nat)
    requires Inv(s, maxWindow) && s.net.up != [] && s.net.up[0].ReplyReconnect?
    ensures Inv(SessionTakes(s), maxWindow) && SessionTakes(s).d.needDisconnect == s.d.needDisconnect
  {
    hide AcknowledgeReconnect, Names;
    ReplyNames(s, maxWindow);
    ReconnectMovesCursor(s.d, s.net.up[0].serial, |s.client.received|);
  }

  lemma ForgettingKeeps(s: System, maxWindow: nat)
    requires Inv(s, maxWindow) && Enabled(s, ClientForgets, maxWindow)
    ensures Inv(Next(s, ClientForgets, maxWindow), maxWindow)
  {
  }

  /** What the two-cursor form does not look at. */
  lemma SameCursors(d: State, next: State)
    requires TwoCursor(d) && next.modulus == d.modulus && next.log == d.log && next.lastSerial == d.lastSerial
    requires next.sent == d.sent && next.outgoing == d.outgoing
    ensures TwoCursor(next) && Acked(next) == Acked(d) && Handed(next) == Handed(d)
  {
    hide SerialOf;
  }

  lemma LosingKeeps(s: System, maxWindow: nat)
    requires Inv(s, maxWindow)
    ensures Inv(Next(s, ConnectionLost, maxWindow), maxWindow)
  {
    hide TwoCursor, AcksInFlight, DataOf;
  }

  lemma ReconnectingKeeps(s: System, window: nat, maxWindow: nat)
    requires Inv(s, maxWindow) && window <= maxWindow
    ensures Inv(Next(s, Reconnects(window), maxWindow), maxWindow)
  {
    hide AcksInFlight, DataOf, TwoCursor, Acked, Handed, SerialOf, Flowing;
    CursorsAgree(s, maxWindow);
    SameCursors(s.d, SetConnection(s.d, window));
  }

  lemma CursorsAgree(s: System, maxWindow: nat)
    requires Inv(s, maxWindow)
    ensures TwoCursor(s.d) && 2 <= s.d.modulus && 0 <= Acked(s.d) <= Handed(s.d)
  {
    hide SerialOf;
  }

  // ----- Whole runs -----

  lemma StepKeeps(s: System, step: Step, maxWindow: nat)
    requires Inv(s, maxWindow) && Enabled(s, step, maxWindow)
    ensures Inv(Next(s, step, maxWindow), maxWindow)
  {
    hide Inv, HostAll, Service, ClientTakes, SessionTakes, Unblocked, Disconnected, MarkDisconnect, SetConnection, Carry;
    match step
    case HostStep(ops) => QueuingKeeps(s, ops, maxWindow);
    case ServiceStep(ops, codes) => ServiceKeeps(s, ops, codes, maxWindow);
    case ClientReceives => ClientReceivesKeeps(s, maxWindow);
    case ClientAcks(count) => ClientAcksKeeps(s, count, maxWindow);
    case SessionReceives =>
      if s.net.up[0].ReplyAck? {
        SessionTakesAckKeeps(s, maxWindow);
      } else {
        SessionTakesReconnectKeeps(s, maxWindow);
      }
    case ConnectionUnblocks => FlagStepKeeps(s, step, maxWindow);
    case ConnectionLost => LosingKeeps(s, maxWindow);
    case SessionToldOfLoss => FlagStepKeeps(s, step, maxWindow);
    case DisconnectRequested => FlagStepKeeps(s, step, maxWindow);
    case Reconnects(window) => ReconnectingKeeps(s, window, maxWindow);
    case ClientForgets => ForgettingKeeps(s, maxWindow);
  }

  lemma FlagStepKeeps(s: System, step: Step, maxWindow: nat)
    requires Inv(s, maxWindow) && (step.ConnectionUnblocks? || step.SessionToldOfLoss? || step.DisconnectRequested?)
    ensures Inv(Next(s, step, maxWindow), maxWindow)
  {
    hide Inv;
    FlagsKeep(s, Next(s, step, maxWindow).d, maxWindow);
  }

  lemma FlagsKeep(s: System, next: State, maxWindow: nat)
    requires Inv(s, maxWindow)
    requires next == s.d.(blocked := next.blocked, connected := next.connected,
                          requested := next.requested, needDisconnect := next.needDisconnect)
    requires s.d.needDisconnect ==> next.needDisconnect
    ensures Inv(s.(d := next), maxWindow)
  {
  }

  lemma {:induction false} RunKeeps(s: System, steps: seq<Step>, maxWindow: nat)
    requires Inv(s, maxWindow) && Legal(s, steps, maxWindow)
    ensures Inv(Run(s, steps, maxWindow), maxWindow)
    decreases steps
  {
    if steps != [] {
      StepKeeps(s, steps[0], maxWindow);
      RunKeeps(Next(s, steps[0], maxWindow), steps[1..], maxWindow);
    }
  }

  lemma StartIsGood(modulus: nat, window: nat, maxWindow: nat)
    requires window <= maxWindow && maxWindow + 1 < modulus
    ensures Inv(Start(modulus, window), maxWindow)
  {
  }

  /** An event without its serial: what the caller asked to have delivered. */
  function Body(event: RouterEvent): (nat, EventData) {
    (event.channelId, event.data)
  }

  function Bodies(events: seq<RouterEvent>): seq<(nat, EventData)> {
    seq(|events|, i requires 0 <= i < |events| => Body(events[i]))
  }

  function QueuedByOne(op: HostOp): seq<(nat, EventData)> {
    if op.HostEnqueue? then [(op.channelId, op.data)] else []
  }

  /** What a list of operations queues, in order. */
  function QueuedBy(ops: seq<HostOp>): seq<(nat, EventData)> {
    if ops == [] then [] else QueuedByOne(ops[0]) + QueuedBy(ops[1..])
  }

  /** What a step queues. A service that only disconnects runs no channel work. */
  function QueuedInStep(s: System, step: Step): seq<(nat, EventData)> {
    match step
    case HostStep(ops) => QueuedBy(ops)
    case ServiceStep(ops, _) => if s.d.needDisconnect then [] else QueuedBy(ops)
    case _ => []
  }

  /** What a run queues, in order. */
  ghost function QueuedIn(s: System, steps: seq<Step>, maxWindow: nat): seq<(nat, EventData)>
    requires Legal(s, steps, maxWindow)
    decreases steps
  {
    if steps == [] then []
    else QueuedInStep(s, steps[0]) + QueuedIn(Next(s, steps[0], maxWindow), steps[1..], maxWindow)
  }

  lemma BodiesAppend(events: seq<RouterEvent>, event: RouterEvent)
    ensures Bodies(events + [event]) == Bodies(events) + [Body(event)]
  {
  }

  lemma EnqueueLogs(d: State, channelId: nat, data: EventData)
    requires Ready(d)
    ensures Bodies(Enqueue(d, channelId, data).log) == Bodies(d.log) + [(channelId, data)]
    ensures Enqueue(d, channelId, data).modulus == d.modulus
  {
    hide NextSerial, Bodies;
    BodiesAppend(d.log, RouterEvent(NextSerial(d.modulus, d.lastSerial), channelId, data));
  }

  lemma HostLogs(d: State, op: HostOp)
    requires Ready(d)
    ensures Bodies(Host(d, op).log) == Bodies(d.log) + QueuedByOne(op)
    ensures Host(d, op).modulus == d.modulus
  {
    hide NextSerial, Bodies, Enqueue;
    if op.HostEnqueue? { EnqueueLogs(d, op.channelId, op.data); }
  }

  lemma {:induction false} HostAllLogs(d: State, ops: seq<HostOp>)
    requires Ready(d)
    ensures Bodies(HostAll(d, ops).log) == Bodies(d.log) + QueuedBy(ops)
    ensures HostAll(d, ops).modulus == d.modulus
    decreases ops
  {
    if ops != [] {
      HostLogs(d, ops[0]);
      var mid, first, rest := Host(d, ops[0]), QueuedByOne(ops[0]), QueuedBy(ops[1..]);
      HostAllLogs(mid, ops[1..]);
      Associative(Bodies(d.log), first, rest);
      assert QueuedBy(ops) == first + rest;
      assert HostAll(d, ops) == HostAll(mid, ops[1..]);
    }
  }

  lemma Associative<T>(a: seq<T>, b: seq<T>, c: seq<T>)
    ensures (a + b) + c == a + (b + c)
  {
  }

  /** Sending does not touch the log. */
  lemma ServiceLogs(s: System, ops: seq<HostOp>, codes: seq<SendCode>, maxWindow: nat)
    requires Inv(s, maxWindow)
    ensures Bodies(Service(s.d, ops, codes).0.log) == Bodies(s.d.log) + QueuedInStep(s, ServiceStep(ops, codes))
    ensures Service(s.d, ops, codes).0.modulus == s.d.modulus
  {
    if !s.d.needDisconnect {
      var d := s.d.(requested := false);
      HostAllLogs(d, ops);
      SendPhaseLogs(HostAll(d, ops), codes);
    }
  }

  lemma {:induction false} SendLoopLogs(d: State, codes: seq<SendCode>, k: nat)
    ensures SendLoop(d, codes, k).0.log == d.log && SendLoop(d, codes, k).0.modulus == d.modulus
    decreases |d.outgoing|, !d.blocked
  {
    if KeepsSending(d) {
      SendLoopLogs(SendOne(d, CodeAt(codes, k)).0, codes, k + 1);
    }
  }

  lemma SendPhaseLogs(d: State, codes: seq<SendCode>)
    ensures SendPhase(d, codes).0.log == d.log && SendPhase(d, codes).0.modulus == d.modulus
  {
    SendLoopLogs(AfterSend(d.(needsIncomingAck := false), CodeAt(codes, 0)), codes, 1);
    SendLoopLogs(d, codes, 0);
  }

  lemma AcknowledgingLeavesLog(d: State, serial: nat)
    ensures Acknowledge(d, serial).log == d.log && Acknowledge(d, serial).modulus == d.modulus
    ensures Answer(d, serial).log == d.log && Answer(d, serial).modulus == d.modulus
  {
    hide FindSerial;
  }

  lemma OtherStepsLeaveLog(s: System, step: Step, maxWindow: nat)
    requires Enabled(s, step, maxWindow) && !step.HostStep? && !step.ServiceStep?
    ensures Next(s, step, maxWindow).d.log == s.d.log
    ensures Next(s, step, maxWindow).d.modulus == s.d.modulus
  {
    if step.SessionReceives? {
      AcknowledgingLeavesLog(s.d, s.net.up[0].serial);
    }
  }

  lemma StepLogs(s: System, step: Step, maxWindow: nat)
    requires Inv(s, maxWindow) && Enabled(s, step, maxWindow)
    ensures Bodies(Next(s, step, maxWindow).d.log) == Bodies(s.d.log) + QueuedInStep(s, step)
    ensures Next(s, step, maxWindow).d.modulus == s.d.modulus
  {
    if step.HostStep? {
      HostAllLogs(s.d, step.ops);
    } else if step.ServiceStep? {
      ServiceLogs(s, step.ops, step.codes, maxWindow);
    } else {
      OtherStepsLeaveLog(s, step, maxWindow);
      assert Bodies(s.d.log) + [] == Bodies(s.d.log);
    }
  }

  lemma {:induction false} RunLogs(s: System, steps: seq<Step>, maxWindow: nat)
    requires Inv(s, maxWindow) && Legal(s, steps, maxWindow)
    ensures Bodies(Run(s, steps, maxWindow).d.log) == Bodies(s.d.log) + QueuedIn(s, steps, maxWindow)
    ensures Run(s, steps, maxWindow).d.modulus == s.d.modulus
    decreases steps
  {
    if steps != [] {
      var t := Next(s, steps[0], maxWindow);
      StepKeeps(s, steps[0], maxWindow);
      StepLogs(s, steps[0], maxWindow);
      RunLogs(t, steps[1..], maxWindow);
      Associative(Bodies(s.d.log), QueuedInStep(s, steps[0]), QueuedIn(t, steps[1..], maxWindow));
    }
  }

  /** Exactly-once, in-order delivery, over every run, any number of reconnects, and a client that may lose
      its state between connections: what has been received is, event by event and with consecutive
      serials, a prefix of what the session was ever asked to queue; acknowledged <= received <= handed to
      a connection. What a client has received since it lost its state begins no later than after what was
      acknowledged, so nothing is lost by that. */
  lemma ExactlyOnceInOrder(modulus: nat, window: nat, maxWindow: nat, steps: seq<Step>)
    requires window <= maxWindow && maxWindow + 1 < modulus
    requires Legal(Start(modulus, window), steps, maxWindow)
    ensures var s := Run(Start(modulus, window), steps, maxWindow);
      var queued := QueuedIn(Start(modulus, window), steps, maxWindow);
      var received := s.client.received;
      && Bodies(received) <= queued
      && (forall i :: 0 <= i < |received| ==> received[i].serial == SerialOf(modulus, i + 1))
      && 0 <= s.client.from <= Acked(s.d) <= |received| <= Handed(s.d) <= |queued|
      && Bodies(Remembered(s.client)) == queued[s.client.from..|received|]
  {
    hide Inv, Bodies, Remembered, QueuedIn, Legal, Run, SerialOf;
    var start := Start(modulus, window);
    StartIsGood(modulus, window, maxWindow);
    RunKeeps(start, steps, maxWindow);
    RunLogs(start, steps, maxWindow);
    NothingLogged(start);
    ReceivedIsQueued(Run(start, steps, maxWindow), maxWindow);
  }

  lemma NothingLogged(s: System)
    requires s.d.log == []
    ensures Bodies(s.d.log) == [] && forall more :: Bodies(s.d.log) + more == more
  {
  }

  /** What has been received, against the log. */
  lemma ReceivedIsQueued(s: System, maxWindow: nat)
    requires Inv(s, maxWindow)
    ensures var received, queued := s.client.received, Bodies(s.d.log);
      && 2 <= s.d.modulus && Bodies(received) <= queued
      && (forall i :: 0 <= i < |received| ==> received[i].serial == SerialOf(s.d.modulus, i + 1))
      && 0 <= s.client.from <= Acked(s.d) <= |received| <= Handed(s.d) <= |queued|
      && Bodies(Remembered(s.client)) == queued[s.client.from..|received|]
  {
    hide InFlight, SerialOf;
    var r := |s.client.received|;
    assert forall i :: 0 <= i < r ==> s.client.received[i] == s.d.log[i];
    assert Remembered(s.client) == s.d.log[s.client.from..r];
  }

}
