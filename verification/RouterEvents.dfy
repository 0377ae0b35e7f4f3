/** The events a session queues (comm_RouterEvent.h) and the move-style transfer the event
    queues rely on. */
module RouterEvents {

  datatype TextLine = TextLine(text: string)
  datatype ClientMessage = ClientMessage(json: string)

  datatype ChannelStatus = StatusOpen | StatusClose | StatusBlock | StatusUnblock

  /** What a client is told about a channel. */
  datatype StatusChange = StatusChange(status: ChannelStatus, channelOut: bool, about: nat)

  /** The union inside an event: which member is set is the event's type. */
  datatype EventData =
    | Nothing
    | Text(line: TextLine)
    | Enhanced(message: ClientMessage)
    | Status(change: StatusChange)

  datatype RouterEvent = RouterEvent(serial: nat, channelId: nat, data: EventData)

  const INVALID_EVENT := RouterEvent(0, 0, Nothing)

  /** One of the three kinds the send loop knows how to send. */
  predicate Sendable(event: RouterEvent) {
    !event.data.Nothing?
  }

  /** `target.transfer(source)`: the target drops what it had, takes over the source's event, and
      the source is left invalid. Returns target and source as they are afterwards. */
  function Transfer(target: RouterEvent, source: RouterEvent): (RouterEvent, RouterEvent) {
    (RouterEvent(source.serial, source.channelId, source.data), INVALID_EVENT)
  }
}
