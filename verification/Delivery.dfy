/** The delivery half of a client session (comm_ClientSession.cpp) as a value: the two event
    queues towards the client, the acknowledgement state and the connection-phase flags, with one
    function per operation. `ClientSessions.ClientSession` proves its methods against these
    functions; `DeliveryProtocol` proves what they guarantee together. */
module Delivery {
  import opened RouterEvents
  import opened Serials

  /** `log` is history, not state of the source: every event ever queued, oldest first. */
  datatype State = State(
    modulus: nat,
    log: seq<RouterEvent>,
    outgoing: seq<RouterEvent>,
    sent: seq<RouterEvent>,
    lastSerial: nat,
    outgoingSerAck: nat,
    incomingSerAck: nat,
    needsIncomingAck: bool,
    requested: bool,
    needHandleReconnect: bool,
    needDisconnect: bool,
    waitReconnect: bool,
    blocked: bool,
    connected: bool,
    window: nat)

  /** A session as its constructor leaves it. */
  function Initial(modulus: nat, window: nat): State {
    State(modulus, [], [], [], 0, 0, 0, false, false, false, false, false, false, true, window)
  }

  datatype SendCode = SendOk | SendOkBlocked | SendBlocked | SendDisconnected | SendNotSupported

  /** What a connection accepted for sending. */
  datatype Wire =
    | WireAck(serial: nat)
    | WireReconnect(serial: nat)
    | WireData(event: RouterEvent)

  predicate Accepted(code: SendCode) {
    code.SendOk? || code.SendOkBlocked?
  }

  function Request(d: State): State {
    d.(requested := true)
  }

  /** Most callers ask for service only while the client accepts data. */
  function RequestUnlessBlocked(d: State): State {
    if d.blocked then d else Request(d)
  }

  function MarkDisconnect(d: State): State {
    Request(d.(needDisconnect := true))
  }

  predicate Ready(d: State) {
    2 <= d.modulus && d.lastSerial < d.modulus
  }

  /** Numbers an event and appends it to the outgoing queue. */
  function Enqueue(d: State, channelId: nat, data: EventData): State
    requires Ready(d)
  {
    var serial := NextSerial(d.modulus, d.lastSerial);
    var event := RouterEvent(serial, channelId, data);
    d.(lastSerial := serial, log := d.log + [event], outgoing := d.outgoing + [event])
  }

  /** Position of the first event carrying the serial, or the length when none does. */
  function FindSerial(queue: seq<RouterEvent>, serial: nat): (index: nat)
    ensures index <= |queue|
    ensures forall i :: 0 <= i < index ==> queue[i].serial != serial
    ensures index < |queue| ==> queue[index].serial == serial
  {
    if queue == [] then 0
    else if queue[0].serial == serial then 0
    else 1 + FindSerial(queue[1..], serial)
  }

  /** `client_data_acknowledge` */
  function Acknowledge(d: State, serial: nat): State {
    var index := FindSerial(d.sent, serial);
    if serial == 0 || index == |d.sent| then
      MarkDisconnect(d)
    else
      var acked := d.(outgoingSerAck := serial, sent := d.sent[index + 1..]);
      if d.outgoing == [] then acked else Request(acked)
  }

  /** How a reconnect reply is judged: unexpected, from a client that keeps no state, at a later
      position than the acknowledged one, or exactly there. */
  function Answer(d: State, serial: nat): State {
    if !d.waitReconnect then d.(needDisconnect := true)
    else if serial == 0 then d.(waitReconnect := false, outgoingSerAck := 0)
    else if serial != d.outgoingSerAck then Acknowledge(d.(waitReconnect := false), serial)
    else d.(waitReconnect := false)
  }

  /** Everything sent but not acknowledged goes back to the front of the outgoing queue. */
  function Requeue(d: State): State {
    Request(if d.needDisconnect then d else d.(outgoing := d.sent + d.outgoing, sent := []))
  }

  /** `client_data_acknowledge_reconnect` */
  function AcknowledgeReconnect(d: State, serial: nat): State {
    Requeue(Answer(d, serial))
  }

  /** `set_client_connection`, for a connection with the given window. */
  function SetConnection(d: State, window: nat): State {
    Request(d.(
      window := window, blocked := false, connected := true, needDisconnect := false,
      needHandleReconnect := true, waitReconnect := true, needsIncomingAck := false))
  }

  /** `client_disconnected` */
  function Disconnected(d: State): State {
    d.(connected := false)
  }

  /** `client_unblocked` */
  function Unblocked(d: State): State {
    var open := d.(blocked := false);
    if d.outgoing == [] then open else Request(open)
  }

  /** The bookkeeping of `client_data` before the channel is looked at. */
  function NoteIncoming(d: State, serial: nat): State {
    RequestUnlessBlocked(d.(incomingSerAck := serial, needsIncomingAck := true))
  }

  /** `process_send_return_code`; the boolean it returns is `Accepted(code)`. */
  function AfterSend(d: State, code: SendCode): State {
    d.(blocked := d.blocked || !code.SendOk?,
       connected := d.connected && !code.SendDisconnected?,
       needDisconnect := d.needDisconnect || code.SendNotSupported?,
       requested := d.requested || code.SendNotSupported?)
  }

  /** The connection's answers in one service are an input. A run that uses up the list is refused
      from there on, so every finite behaviour of a connection is some list. */
  function CodeAt(codes: seq<SendCode>, k: nat): SendCode {
    if k < |codes| then codes[k] else SendBlocked
  }

  predicate KeepsSending(d: State) {
    !d.blocked && d.outgoing != [] && |d.sent| < d.window
  }

  /** One turn of the send loop: an accepted event moves from the outgoing to the sent queue. */
  function SendOne(d: State, code: SendCode): (State, seq<Wire>)
    requires d.outgoing != []
  {
    if Accepted(code) then
      (AfterSend(d, code).(sent := d.sent + [d.outgoing[0]], outgoing := d.outgoing[1..]),
       [WireData(d.outgoing[0])])
    else (AfterSend(d, code), [])
  }

  /** The send loop, from its k-th call on the connection on. Returns the state and what the
      connection accepted. It ends because a refused event blocks the client. */
  function SendLoop(d: State, codes: seq<SendCode>, k: nat): (State, seq<Wire>)
    decreases |d.outgoing|, !d.blocked
  {
    if !KeepsSending(d) then (d, [])
    else
      var (mid, first) := SendOne(d, CodeAt(codes, k));
      var (done, rest) := SendLoop(mid, codes, k + 1);
      (done, first + rest)
  }

  /** The last part of `process_pending`: the reconnect acknowledgement, or the pending
      acknowledgement followed by the send loop. */
  function SendPhase(d: State, codes: seq<SendCode>): (State, seq<Wire>) {
    if d.needHandleReconnect then
      (d.(needsIncomingAck := false, needHandleReconnect := false, waitReconnect := true),
       if Accepted(CodeAt(codes, 0)) then [WireReconnect(d.incomingSerAck)] else [])
    else if d.waitReconnect || d.blocked then (d, [])
    else if d.needsIncomingAck then
      var code := CodeAt(codes, 0);
      var (done, wire) := SendLoop(AfterSend(d.(needsIncomingAck := false), code), codes, 1);
      (done, (if Accepted(code) then [WireAck(d.incomingSerAck)] else []) + wire)
    else SendLoop(d, codes, 0)
  }

  /** What the channel half of the session does to this half: queue an event, ask for service,
      flag a disconnect, note a serial that came in. */
  datatype HostOp =
    | HostEnqueue(channelId: nat, data: EventData)
    | HostRequest
    | HostNeedDisconnect
    | HostIncoming(serial: nat)

  function Host(d: State, op: HostOp): (next: State)
    requires Ready(d)
    ensures Ready(next)
  {
    match op
    case HostEnqueue(channelId, data) => Enqueue(d, channelId, data)
    case HostRequest => Request(d)
    case HostNeedDisconnect => d.(needDisconnect := true)
    case HostIncoming(serial) => d.(incomingSerAck := serial, needsIncomingAck := true)
  }

  function HostAll(d: State, ops: seq<HostOp>): (next: State)
    requires Ready(d)
    ensures Ready(next)
    decreases ops
  {
    if ops == [] then d else HostAll(Host(d, ops[0]), ops[1..])
  }

  /** `process_pending`; `ops` is what the channel deletes and unblocks of this service do. */
  function Service(d: State, ops: seq<HostOp>, codes: seq<SendCode>): (State, seq<Wire>)
    requires Ready(d)
  {
    if d.needDisconnect then (d.(requested := false, connected := false), [])
    else SendPhase(HostAll(d.(requested := false), ops), codes)
  }

  /** How many events have been acknowledged, and how many have been handed to a connection. */
  function Acked(d: State): int {
    |d.log| - |d.outgoing| - |d.sent|
  }

  function Handed(d: State): int {
    |d.log| - |d.outgoing|
  }

  /** The two-cursor form: the queues are the unacknowledged suffix of the log, cut in two, and the
      log's serials are consecutive. */
  ghost predicate TwoCursor(d: State) {
    && 2 <= d.modulus
    && 0 <= Acked(d)
    && d.sent == d.log[Acked(d)..Handed(d)]
    && d.outgoing == d.log[Handed(d)..]
    && d.lastSerial == SerialOf(d.modulus, |d.log|)
    && d.lastSerial < d.modulus
    && (forall i :: 0 <= i < |d.log| ==> d.log[i].serial == SerialOf(d.modulus, i + 1))
  }
}
