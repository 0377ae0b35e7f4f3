# Client sessions, channels, the router and lock tokens

This project models how a MUTGOS server keeps a client's session going across connections, and proves what
that is for.

* **Delivery** (`Basics`, `Serials`, `RouterEvents`, `Delivery`, `DeliveryProtocol`, `DeliveryTheorems`,
  `StatelessReplies`, `SendForms`, `SmoothDelivery`). A session numbers every event for its client and keeps it
  queued or sent-but-unacknowledged. `Delivery` gives each operation as a function on values; `DeliveryProtocol` puts the session together with a FIFO connection that loses everything
  in flight when it goes down and with a client that follows the rules in the comments of
  comm_ClientConnection.h and may lose its state between connections, and proves exactly-once, in-order delivery over every run.
* **Channels** (`Channels`, `ChannelRuns`, `ChannelMembers`, `ChannelObjects`). The status machine, the holders, listeners and
  receivers, and self-deletion. `ChannelObjects.Channel` is the object with its fields and search loops, proved against `Channels`.
* **Sessions** (`ChannelIds`, `Sessions`, `SessionTables`, `SessionSides`, `ClientSessions`). Messages from the client, flow
  callbacks, held-back queues, servicing. `ClientSessions.ClientSession` is the object with its deques, vectors and
  flags, proved against `Delivery` and `Sessions`; methods that reach channels take the channel objects by address.
* **What sessions and channels agree on** (`SessionInvariant`, `SessionSteps`, `SessionService`, `SessionHosting`,
  `ChannelHistory`, `SessionRuns`, `SessionWakeups`, `ClosingNotices`, `SessionTheorems`, `SessionExamples`). Inbound
  conservation and order, flow agreement, ownership, what the client is told about each channel, closings that go
  unnoticed, and wake-ups, over whole runs of session, channels, everybody who calls them, connection and client.
* **What the steps of a run bring about** (`SessionEffects`, `StepEffects`, `InboundItems`, `OutboundItems`,
  `Acknowledgements`, `ChannelClosings`, `ChannelFlow`, `ChannelLocks`, `IdRounds`, `ClientStanding`, `PromisedServices`, `OwedExamples`). Items end
  to end in both directions, what is acknowledged and when, closings, flow, locks, ids, disconnects and the services they
  need, read off the steps of the run.
* **The router** (`Router`, `RouterInvariant`, `RouterTheorems`, `RouterEffects`, `RouterObjects`, `JointRuns`). Three maps, the service
  queue and the list of sessions to destroy; `JointRuns` runs it together with a session.
* **Lock tokens** (`LockTokens`, `LockThreads`). What a token calls while it lives, and threads taking tokens.

Serial modulus, window and `MAX_CHANNELS` are parameters. Each method is one atomic step under its lock; a
channel's synchronous calls of its listeners happen inside the step that changes the channel. What others do is
an input: how a connection answers each send, what a receiving callback does to its channel, which objects refuse
a lock, which sessions a service or a destruction wakes. Fields marked as history (`log`, `taken`, `accepted`,
`broadcasts`, `destroyed`, the router's counts) are not state of the source; they say what happened.

## What does not hold as designed

Each of these has a lemma with the exact condition, and where it helps a concrete run.

* The return code of the reconnect acknowledgement is ignored: if that message is refused the connection never
  delivers again (`DeliveryTheorems.GreetingDecides`, `DeliveryTheorems.GreetingIsRefused`). A window of zero is accepted
  (`DeliveryTheorems.WindowDecides`).
* A client that becomes unblocked is not serviced for scheduled backlogs when no event is queued
  (`SessionWakeups.NoWakeupIsLost`, `SessionExamples.WakeupIsLost`), nor for an acknowledgement that came due while it
  was blocked (`PromisedServices.NothingOwedIsForgotten`, `OwedExamples.AcknowledgementIsForgotten`).
* A blocked client that fills the window of a blocked channel with messages that are not text is not disconnected
  until something else asks for service (`PromisedServices.NothingOwedIsForgotten`, `OwedExamples.CutIsForgotten`).
* An acknowledgement of a client's message that the connection refuses is not sent again
  (`Acknowledgements.ConfirmedOnce`).
* A receiver that closes its channel while it is handed the last held-back message makes the client see an
  unblock after the close (`SessionTheorems.RunWires`, `SessionExamples.UnblockFollowsClose`).
* A channel that is closed already when it is added is never reported closed nor let go
  (`ClosingNotices.ClosedOnArrival`, `ClosingNotices.RunNotices`, `SessionExamples.ClosingIsMissed`).
* Registering as receiver a second time leaves a reference that is never given back, so the channel is never
  destroyed (`ChannelRuns.RegisteringAgainLeaks`, `ChannelRuns.RegisteredTwice`).
* The guard in get_next_channel_id is one too loose: with one id less in use than it tests for, the scan does not
  end (`ChannelIds.ScanEndsUnlessFull`, `SessionTheorems.IdScanEnds`, `SessionExamples.ScanNeverEnds`).
* An answer of 0 to a reconnect makes the session forget which serial was acknowledged last. A client that lost
  its state gets on with that (`DeliveryTheorems.CompliantClientStaysConnected`), but one that kept it and names
  that serial later, before anything else is acknowledged, is cut off (`StatelessReplies.CutOffAfterStartingOver`,
  `StatelessReplies.KeptStateIsCutOff`).
* Destroying a session can queue another one that is destroyed right after it (`RouterTheorems.ServiceKeeps`,
  `RouterTheorems.DestroyedSessionIsQueued`).
* The rollback of a multi-lock dereferences a null pointer in the set (`LockTokens.LockToken.Multi`), and a writer
  token whose object refuses to be unlocked unlocks it a second time as a reader's
  (`LockTokens.SingleTokenReleasesOnce`).

## Model

| member | source | states |
|---|---|---|
| `DeliveryProtocol.ExactlyOnceInOrder` | src/comminterface/comm_ClientSession.cpp:242-464 | In every run of the session, a FIFO connection that loses everything in flight when it goes down, and a compliant client that may lose its state between connections, over any number of reconnects: what has been received is, event by event and with consecutive serials, a prefix of what the session was ever asked to queue; acknowledged <= received <= handed over; and what a client has received since it lost its state begins no later than after what was acknowledged |
| `DeliveryProtocol.StepKeeps` | src/comminterface/comm_ClientSession.cpp:204-478 | Every step keeps the protocol invariant: the two queues are the unacknowledged suffix of one log cut in two, data in flight continues what the client has, acknowledgements in flight name increasing positions, and while reconnecting nothing but the handshake is in flight |
| `DeliveryProtocol.RunKeeps` | src/comminterface/comm_ClientSession.cpp:204-478 | The protocol invariant holds in every state of every run |
| `DeliveryProtocol.HostAllKeeps` | src/comminterface/comm_ClientSession.cpp:953-986 | Queuing only extends the log at its end; both cursors stand |
| `DeliveryProtocol.SendLoopKeeps` | src/comminterface/comm_ClientSession.cpp:278-339 | The send loop moves exactly one boundary, puts exactly the events it passes on the wire, stays inside the window, and stops only for a full window, an empty queue or a blocked client |
| `DeliveryProtocol.AckedSerialIsFound` | src/comminterface/comm_ClientSession.cpp:366-382 | Inside a window smaller than the serial range, an acknowledged serial is found at the one position it was meant for |
| `DeliveryProtocol.AcknowledgeMovesCursor` | src/comminterface/comm_ClientSession.cpp:346-412 | A good acknowledgement moves the acknowledged boundary there and leaves everything else alone |
| `DeliveryProtocol.ReconnectMovesCursor` | src/comminterface/comm_ClientSession.cpp:415-464 | A reconnect reply moves the acknowledged boundary to where the client is and everything after it back to be sent again; nothing is lost, copied or reordered |
| `DeliveryProtocol.RunLogs` | src/comminterface/comm_ClientSession.cpp:944-986 | The log is exactly what was asked to be queued, in order, over every run |
| `DeliveryTheorems.CompliantClientStaysConnected` | src/comminterface/comm_ClientSession.cpp:350-447 | In every run, what a compliant client sends back, one that lost its state and answers 0 included, never flags a disconnect: every acknowledged serial is in the sent queue, every reconnect reply is expected and is 0, the acknowledged serial, or in the sent queue |
| `DeliveryTheorems.RunRespectsWindow` | src/comminterface/comm_ClientSession.cpp:278-280 | At all times at most a window of events is unacknowledged, unless a reconnect reply is awaited or a disconnect is pending |
| `DeliveryTheorems.GreetingDecides` | src/comminterface/comm_ClientSession.cpp:242-255 | The return code of the reconnect acknowledgement is not looked at: after the service that sends it, the connection can still deliver the rest if and only if that one message was accepted (or nothing is left) |
| `DeliveryTheorems.GreetingIsRefused` | src/comminterface/comm_ClientSession.cpp:250-254 | A concrete run (an event is queued, a connection is made, the reconnect acknowledgement is refused) after which the connection is up, the event waits, and nothing but a new connection ever delivers it |
| `DeliveryTheorems.StuckUntilNewConnection` | src/comminterface/comm_ClientSession.cpp:242-259 | Once that message was refused, no run without a new connection delivers anything more |
| `DeliveryTheorems.NewConnectionRecovers` | src/comminterface/comm_ClientSession.cpp:118-146 | From every reachable state a new connection with a non-empty window can deliver everything ever queued, however little was acknowledged before |
| `SmoothDelivery.NewConnectionDelivers` | src/comminterface/comm_ClientSession.cpp:118-146 | From every reachable state, a client that was blocked included: over a new connection with a non-empty window that answers every call SendOk everything is delivered, without anybody unblocking, losing or replacing it |
| `SmoothDelivery.BlockedDecides` | src/comminterface/comm_ClientSession.cpp:278-280 | On a connection that works, the rest can be delivered without a new connection and without client_unblocked if and only if the client is not blocked, or everything was handed over already |
| `SmoothDelivery.UnblockingDelivers` | src/comminterface/comm_ClientSession.cpp:467-478 | Once client_unblocked is called on a connection that works, everything is delivered with nothing more from outside |
| `SmoothDelivery.ConnectionsWork` | src/comminterface/comm_ClientSession.cpp:204-478 | In every run a connection is one that works if and only if it is up, past the handshake and not about to be cut off |
| `SendForms.SendLoopIs` | src/comminterface/comm_ClientSession.cpp:278-339 | The send loop in closed form: as many events go out, oldest first, as there is room for, up to the first answer other than SendOk, and one more if that one accepts; it alone changes the flags |
| `SendForms.SendPhaseIs` | src/comminterface/comm_ClientSession.cpp:259-340 | The same for the whole phase, with the acknowledgement of the client's own messages as the first call |
| `Acknowledgements.ServiceConfirms` | src/comminterface/comm_ClientSession.cpp:242-272 | Over every run, read off its steps: a service first puts an acknowledgement or a reconnect acknowledgement on the wire exactly if a message was taken on an inbound channel since the last one, or a connection is to be greeted, and the phase allows it and the connection accepts; it carries the serial of the last message taken, 0 before the first; all else on the wire is events |
| `Acknowledgements.RunNotes` | src/comminterface/comm_ClientSession.cpp:118-272 | What is to be acknowledged, and with which serial, whether the connection is to be greeted and whether the client has answered, are in every state what the steps of the run say |
| `Acknowledgements.ConfirmedOnce` | src/comminterface/comm_ClientSession.cpp:261-272 | Once a service may confirm, nothing is confirmed again until another message comes or a connection is made, whatever the connection answered: an acknowledgement that is refused is lost |
| `ClientStanding.StandingIsEarned` | src/comminterface/comm_ClientSession.cpp:118-896 | Over every run, read off its steps: a client is about to be cut off exactly if since the last connection it sent on a channel that leads to itself, too much on a blocked one or the wrong kind on another, a disconnect was requested, or the connection answered that it does not support what it was sent; and it counts as connected exactly until the session is told of the loss, is answered that it is disconnected, or cuts it off |
| `ClientStanding.ArrivalCuts` | src/comminterface/comm_ClientSession.cpp:548-655 | A message flags a disconnect exactly if it breaks the rules, and exactly when the source asks for service with it |
| `PromisedServices.NothingOwedIsForgotten` | src/comminterface/comm_ClientSession.cpp:467-896 | In every state of every run a connection that is to be greeted is going to be serviced; and acknowledgements that can go out and disconnects that are due have been asked for, in every state of a run, if and only if no step of it is one of two: the client becomes unblocked with an acknowledgement due and nothing queued, or, while blocked, fills the window of a blocked channel with messages that are not text |
| `OwedExamples.AcknowledgementIsForgotten` | src/comminterface/comm_ClientSession.cpp:473-477 | A concrete run after which an acknowledgement could go out and nobody has asked for service |
| `OwedExamples.CutIsForgotten` | src/comminterface/comm_ClientSession.cpp:797-805 | A concrete run after which the client is to be cut off and nobody has asked for service |
| `StatelessReplies.AnswerStartsOver` | src/comminterface/comm_ClientSession.cpp:432-463 | An answer of 0: everything that is not acknowledged is sent again, in order, and nothing that is |
| `StatelessReplies.AcceptedAnswers` | src/comminterface/comm_ClientSession.cpp:415-464 | In every state exactly these answers to a reconnect are accepted: 0, the serial of an event sent and not acknowledged, and the serial acknowledged last unless the session has forgotten it |
| `StatelessReplies.UnexpectedAnswer` | src/comminterface/comm_ClientSession.cpp:421-429 | An answer that is not awaited flags a disconnect and moves nothing |
| `StatelessReplies.AcceptedAcknowledgements` | src/comminterface/comm_ClientSession.cpp:346-412 | In every state an acknowledgement is accepted if and only if its serial is that of an event sent and not acknowledged; any other flags a disconnect and moves nothing |
| `StatelessReplies.CallRemembers` | src/comminterface/comm_ClientSession.cpp:118-478 | Whatever is called and whatever serials come in: the serial of the session stays that of the acknowledged position or 0, and it is forgotten after a call if and only if that was an answer of 0 after something was acknowledged, or it was forgotten before and the call confirmed nothing |
| `StatelessReplies.CutOffAfterStartingOver` | src/comminterface/comm_ClientSession.cpp:415-464 | Over every list of calls: naming the serial acknowledged last is answered by a disconnect if and only if there was an answer of 0 after something was acknowledged and nothing was confirmed since, however much was sent again and however often the connection was replaced |
| `StatelessReplies.KeptStateIsCutOff` | src/comminterface/comm_ClientSession.cpp:432-447 | A concrete list of calls (queue, send, acknowledge, reconnect, answer 0, send again, reconnect) after which naming the acknowledged serial is answered by a disconnect |
| `DeliveryTheorems.ZeroWindowDeliversNothing` | src/comminterface/comm_ClientSession.cpp:131-137 | Once a connection with a window of zero is made, from whatever state, nothing more is delivered until one with a larger window is |
| `DeliveryTheorems.WindowDecides` | src/comminterface/comm_ClientSession.cpp:131-137 | From every reachable state: a new connection can deliver what is left if and only if its window is not zero (or nothing is left); the code accepts a window of zero |
| `Serials.NextSerial` | src/comminterface/comm_ClientSession.cpp:1820-1835 | The next serial is in range and never zero |
| `Serials.NextIsConsecutive` | src/comminterface/comm_ClientSession.cpp:1827-1832 | Stepping the wrapping, zero-skipping counter yields the closed form of the n-th serial |
| `Serials.NearbySerialsDiffer` | src/comminterface/comm_CommonTypes.h:20-21 | Serials fewer than modulus - 1 messages apart differ, so in a smaller window an acknowledgement names one message |
| `Serials.SerialsRepeat` | src/comminterface/comm_ClientSession.cpp:1820-1835 | The bound is tight: modulus - 1 messages later the serial repeats |
| `Delivery.FindSerial` | src/comminterface/comm_ClientSession.cpp:366-382 | The first event with the serial, or none |
| `Channels.OpKeepsGood` | src/channels/events_Channel.cpp:36-333 | Every call on a live channel keeps: the status is the computed one and the last one broadcast, no status is broadcast twice in a row and nothing after the closing, process and callback receivers are never both present, listeners and receivers are counted as holders, and the channel deletes itself at most once and only when nobody refers to it |
| `Channels.OthersLeaveMeAlone` | src/channels/events_Channel.cpp:210-333 | A call made by others leaves a party its references and accepted items, keeps a channel alive that the party refers to, and is broadcast to it exactly when it listens and the status changed |
| `Channels.SendChangesOnlyItems` | src/channels/events_TextChannel.cpp:39-87 | Handing over an item appends it exactly when the channel is open, and otherwise changes only what the receiver does |
| `Channels.ClosedIsSilent` | src/channels/events_Channel.cpp:360-374 | Closing is permanent, and a closed channel calls nobody any more |
| `ChannelRuns.GoesIfUnheld` | src/channels/events_Channel.cpp:298-333 | Whatever others call, a channel a party refers to stays; and if it refers to it no longer, there is a list of calls by others after which the channel has deleted itself |
| `ChannelRuns.RegisteringAgainLeaks` | src/channels/events_TextChannel.cpp:90-136 | A party that registers as receiver and unregisters again leaves the channel free to go if and only if it was not the receiver already; otherwise the channel is never destroyed, whatever others do |
| `ChannelRuns.RegisteredTwice` | src/channels/events_TextChannel.cpp:90-136 | A concrete list of calls: register, register, unregister; the channel is closed and without receiver, and stays for good |
| `ChannelMembers.GoesIfNoMember` | src/channels/events_Channel.cpp:458-489 | Without a process being taken off it, a channel can be brought to delete itself if and only if the process is neither its receiver nor one of its senders |
| `ChannelMembers.AddingKeepsAlive` | src/channels/events_Channel.cpp:36-89 | Adding a process keeps the channel alive until it is taken off again, unless it was announced as the receiver and there is another one |
| `ChannelMembers.RemovingLetsGo` | src/channels/events_Channel.cpp:92-137 | Taking a process off closes the channel and, unless the process had come both to receive and to send, leaves nothing that keeps the channel alive for it |
| `ChannelMembers.StatusIsEarned` | src/channels/events_Channel.cpp:92-207 | Over any list of calls on a new channel: it is open, blocked or closed as the calls say, where it is closed by being asked to, by its receiver or a process leaving, or by its receiver while it is handed an item, and then stays so; that is the status broadcast last |
| `ChannelMembers.AnnouncedLast` | src/channels/events_Channel.cpp:140-145 | Over any list of calls the process expected as receiver is the one announced last |
| `ChannelObjects.Channel.constructor` | src/channels/events_Channel.cpp:336-357 | A new channel is blocked, open for registration and unused |
| `ChannelObjects.Channel.CheckStatus` | src/channels/events_Channel.cpp:492-552 | Equals the specified status check; who is called is the listeners when the status changed, nobody otherwise |
| `ChannelObjects.Channel.BroadcastStatus` | src/channels/events_Channel.cpp:555-660 | Calls every listener of the copied list once, in order |
| `ChannelObjects.Channel.BlockChannel` | src/channels/events_Channel.cpp:174-186 | Equals the specified operation, calls included |
| `ChannelObjects.Channel.UnblockChannel` | src/channels/events_Channel.cpp:189-207 | Equals the specified operation, calls included; fails exactly on a closed channel |
| `ChannelObjects.Channel.CloseChannel` | src/channels/events_Channel.cpp:164-171 | Equals the specified closing, with self-deletion and calls |
| `ChannelObjects.Channel.InternalCloseChannel` | src/channels/events_Channel.cpp:360-374 | Closes, checks the status and reports whether the channel is unused |
| `ChannelObjects.Channel.NeedDeleteInstance` | src/channels/events_Channel.cpp:458-472 | True exactly when nobody refers to the channel and no callback or lock is in progress |
| `ChannelObjects.Channel.DeleteInstance` | src/channels/events_Channel.cpp:475-489 | The channel deletes itself exactly when it is unused |
| `ChannelObjects.Channel.ResourceAdded` | src/channels/events_Channel.cpp:36-89 | Equals the specified addition of a process; fails exactly for a receiver that cannot be added |
| `ChannelObjects.Channel.ResourceRemoved` | src/channels/events_Channel.cpp:92-137 | Equals the specified removal of a process, which closes the channel |
| `ChannelObjects.Channel.NextResourceAddIsReceiver` | src/channels/events_Channel.cpp:140-145 | Only notes the process |
| `ChannelObjects.Channel.RegisterPointerHolder` | src/channels/events_Channel.cpp:282-295 | Adds one reference for a non-null holder |
| `ChannelObjects.Channel.UnregisterPointerHolder` | src/channels/events_Channel.cpp:298-333 | Search and erase of one reference, then deletion of an unused channel |
| `ChannelObjects.Channel.RegisterControlListener` | src/channels/events_Channel.cpp:210-243 | Adds a listener once, with a reference |
| `ChannelObjects.Channel.UnregisterControlListener` | src/channels/events_Channel.cpp:246-279 | Search and erase of the listener, and of its reference only if it was found |
| `ChannelObjects.Channel.RegisterReceiverCallback` | src/channels/events_TextChannel.cpp:90-112 | Succeeds exactly when no process and no other callback receives |
| `ChannelObjects.Channel.UnregisterReceiverCallback` | src/channels/events_ClientDataChannel.cpp:109-130 | The receiver leaves, the channel closes, and the reference is given back |
| `ChannelObjects.Channel.Lock` | src/channels/events_Channel.cpp:673-688 | Counts the external lock |
| `ChannelObjects.Channel.Unlock` | src/channels/events_Channel.cpp:727-745 | Gives the lock back and deletes an unused channel |
| `ChannelObjects.Channel.AboutToSendItem` | src/channels/events_Channel.cpp:419-455 | Sending is possible exactly when the last status is open |
| `ChannelObjects.Channel.SendItem` | src/channels/events_TextChannel.cpp:39-87 | Equals the specified hand-over for process, callback and absent receivers; succeeds exactly when the channel is open |
| `ChannelIds.FirstFree` | src/comminterface/comm_ClientSession.cpp:1838-1868 | The id found is usable, unused, and the first such id the wrapping scan meets |
| `ChannelIds.FreeIdExists` | src/comminterface/comm_ClientSession.cpp:1842-1866 | Pigeonhole: with fewer than MAX_CHANNELS - 1 ids in use there is a free one |
| `ChannelIds.ScanEndsUnlessFull` | src/comminterface/comm_ClientSession.cpp:1842-1866 | For any usable ids in use: there is a free id, and the scan ends, if and only if fewer than MAX_CHANNELS - 1 are in use; otherwise every candidate of any number of turns is in use, and still the guard passes |
| `SessionTheorems.IdScanEnds` | src/comminterface/comm_ClientSession.cpp:1842-1866 | The same for the active channels of every reachable state: the guard passes in all of them, and the scan ends if and only if fewer than MAX_CHANNELS - 1 are active |
| `SessionExamples.ScanNeverEnds` | src/comminterface/comm_ClientSession.cpp:1842-1866 | A concrete run after which the guard passes and the scan does not end |
| `IdRounds.IdsGoRound` | src/comminterface/comm_ClientSession.cpp:1838-1868 | Over every run: between two times an id is given to a channel, every other id has been in use |
| `SessionTheorems.InboundInOrder` | src/comminterface/comm_ClientSession.cpp:510-896 | In every run, for every active channel: what the client sent on an open inbound one is what the channel accepted from it followed by what is held back, in order; held-back messages mean the session counts it as blocked, as it does every channel that is blocked or would refuse; one that opened meanwhile is scheduled; the channel is alive and the session holds exactly its two or three references |
| `InboundItems.SentIsAcceptedOrHeld` | src/comminterface/comm_ClientSession.cpp:510-896 | End to end, read off the steps of the run: what the client sent on an open inbound channel, of its kind and in order, is what the channel accepted from the session followed by what is held back |
| `OutboundItems.OutboundInOrder` | src/comminterface/comm_ClientSession.cpp:1144-1222 | End to end, read off the steps of the run: what was queued of a channel id is each opening followed by exactly the items that reached the session on that channel while it lasted, in order and under that id; what the client has received of it, over any number of reconnects, is a beginning of that, and all of it once everything is received; statuses are told outside any channel, and every event is of a kind that can be sent |
| `OutboundItems.ReceiverStays` | src/comminterface/comm_ClientSession.cpp:1000-1024 | In every run the session receives from a channel it works on if and only if the channel leads to the client and had no receiver when it was added |
| `SessionTheorems.ChannelLives` | src/channels/events_Channel.cpp:298-333 | In every run every channel has deleted itself at most once and only when nobody referred to it, its broadcasts alternate and end at closed, and the session refers to a channel exactly while it is active |
| `SessionTheorems.DeliveredInOrder` | src/comminterface/comm_ClientSession.cpp:204-343 | The exactly-once theorem for the whole session with all its channels: every step of the whole is one step of the delivery protocol |
| `SessionTheorems.ClientSeesChannelLives` | src/comminterface/comm_ClientSession.cpp:1334-1346 | What the client has received, over any number of reconnects, is for every channel id a sequence of lives (open, first block or unblock, alternating flow or data, at most one close), and the session's own view is what the whole history ends with |
| `SessionTheorems.RunWires` | src/comminterface/comm_ClientSession.cpp:1488-1505 | All channel histories of a run are well-formed if and only if no service lets a receiver close its channel while it is handed the last message held back for it |
| `SessionExamples.UnblockFollowsClose` | src/comminterface/comm_ClientSession.cpp:1484-1505 | A concrete run in which the client is told that a channel it was told is closed has been unblocked |
| `SessionTheorems.DestructorLetsGo` | src/comminterface/comm_ClientSession.cpp:77-100 | On destruction every call on every channel is made while the channel is alive, nothing of the session remains behind, and a channel goes with it exactly when nobody else refers to it |
| `ClosingNotices.ClosedOnArrival` | src/comminterface/comm_ClientSession.cpp:944-1024 | From every reachable state, a channel is added and any legal continuation follows: if it was closed already, it keeps its id, counts as open, is never due to be let go and no closing is told, in every state; and while the session works on it, session and channel agree on the closing if and only if it was open when added |
| `ClosingNotices.RunNotices` | src/comminterface/comm_ClientSession.cpp:1096-1131 | Over whole runs session and channels agree on what is closed if and only if no channel was added that was closed already |
| `ClosingNotices.StepNotices` | src/comminterface/comm_ClientSession.cpp:204-1131 | The only step that makes the session miss a closing is adding a channel that is closed; what was missed stays missed through every step, and the client is told of no closing |
| `SessionExamples.ClosingIsMissed` | src/comminterface/comm_ClientSession.cpp:944-1024 | A concrete run (create, receive, close, add, service) after which the session takes a closed channel for an open one |
| `SessionRuns.FullRunKeeps` | src/comminterface/comm_ClientSession.cpp:204-1868 | The whole invariant of session, channels, connection and client holds in every state of every run |
| `SessionRuns.StepSimulates` | src/comminterface/comm_ClientSession.cpp:204-1222 | Every step of session, channels, connection and client is one step of the delivery protocol |
| `SessionHosting.ServiceIsHosted` | src/comminterface/comm_ClientSession.cpp:204-343 | Whatever the channels do during a service, for the delivery half it is queuing, requesting and flagging followed by the send phase |
| `SessionWakeups.NoWakeupIsLost` | src/comminterface/comm_ClientSession.cpp:467-478 | In every state of every run: if something is queued, the client is unblocked, the window has room and nothing is pending, service has been asked for, and channels due to be let go are not forgotten either; and scheduled backlogs have been asked for in every state of a run if and only if the client never becomes unblocked while one is scheduled and nothing is queued |
| `JointRuns.SendableIsQueued` | src/comminterface/comm_RouterSessionManager.cpp:645-669 | For session and router together, over every joint run with services and with the destruction of other sessions: a session has asked for service if and only if it is in the router's queue (or still ahead in the service under way), once, and nobody who is gone is; so a session that could send is there |
| `JointRuns.JointStart` | src/comminterface/comm_RouterSessionManager.cpp:400-455 | A session the router has just entered, with the session as its constructor leaves it, is a state joint runs start from |
| `SessionWakeups.StepStaysAwake` | src/comminterface/comm_ClientSession.cpp:467-478 | For backlogs of unblocked channels a step keeps this if and only if it is not a client becoming unblocked with backlogs scheduled, nothing queued and nothing requested: that wake-up is lost |
| `SessionExamples.WakeupIsLost` | src/comminterface/comm_ClientSession.cpp:473-477 | A concrete run that loses the wake-up |
| `SessionInvariant.StepKeepsCore` | src/comminterface/comm_ClientSession.cpp:1031-1131 | A call on an active channel, with its callback into the session, keeps the flow agreement, the ownership and the tables |
| `SessionSteps.OnlyClosedRefuses` | src/comminterface/comm_ClientSession.cpp:648-692 | An inbound channel the session counts as unblocked refuses only if it is closed, so the branches "blocked (new)" and "unknown reason" are never taken |
| `SessionSteps.ClientDataKeeps` | src/comminterface/comm_ClientSession.cpp:510-702 | A message from the client keeps everything the session and its channels agree on |
| `SessionSteps.HandleKeeps` | src/comminterface/comm_ClientSession.cpp:587-692 | A message is held back, dropped on a closed channel, refused for its kind, or handed over; with it nothing is lost or overtaken |
| `SessionSteps.AddKeeps` | src/comminterface/comm_ClientSession.cpp:933-1028 | Adding a channel keeps the agreement; the session then holds two references, three as receiver |
| `SessionSteps.CloseKeepsAgreement` | src/comminterface/comm_ClientSession.cpp:899-930 | A close requested by the client keeps the agreement |
| `ChannelClosings.ClosingTakesEffect` | src/comminterface/comm_ClientSession.cpp:899-930 | A close requested by the client closes the channel and touches no other; if it was open, the session notes it, is going to let the channel go, tells the client of exactly that, and asks for service unless the client is blocked; if it was closed already, nothing changes |
| `ChannelClosings.RequestedClosingIsDone` | src/comminterface/comm_ClientSession.cpp:899-930 | Whatever happens between the request and the next service that is not a disconnect, that service lets the channel go and leaves it no reference to the session |
| `ChannelFlow.UnblockingTakesEffect` | src/comminterface/comm_ClientSession.cpp:1071-1093 | When a channel the session works on opens: an inbound one is listed after all that opened before it and service is asked for unless the client is blocked, and the client is told nothing yet; for one towards the client nothing changes; and no other channel does |
| `ChannelFlow.BlockingTakesEffect` | src/comminterface/comm_ClientSession.cpp:1031-1068 | When it blocks: the client is told so exactly if it sends on it and had been told that it may, and of nothing else; an opening it had not been told of is forgotten; for a channel towards the client nothing changes |
| `ChannelLocks.LocksAreGivenBack` | src/comminterface/comm_ClientSession.cpp:577-660 | In every run a channel is locked exactly as often as others locked it and did not unlock it: every lock the session takes is given back within its step |
| `SessionSteps.ForeignKeeps` | src/channels/events_Channel.cpp:92-207 | Any call others make on any channel keeps the agreement |
| `SessionService.UnregisterLetsGo` | src/comminterface/comm_ClientSession.cpp:1615-1666 | Each call of unregister_channel is made on a live channel, the session is not called back, its references are gone and nobody else's are, and the channel has deleted itself exactly when nobody refers to it |
| `SessionService.DeletesOneByOne` | src/comminterface/comm_ClientSession.cpp:1533-1567 | The loop over the tables followed by the loop over the channels comes to one channel at a time |
| `SessionService.DeletesKeep` | src/comminterface/comm_ClientSession.cpp:1533-1612 | Every channel due is let go and what remains is agreed on |
| `SessionService.BacklogFits` | src/comminterface/comm_ClientSession.cpp:1402-1442 | Every held-back message is of its channel's kind, so the casts are right and the branch for unrecognized events is dead |
| `SessionService.DrainQueueKeeps` | src/comminterface/comm_ClientSession.cpp:1402-1482 | The drain hands messages over oldest first and ends with an empty backlog or a channel that is not open |
| `SessionService.DrainChannelKeeps` | src/comminterface/comm_ClientSession.cpp:1376-1509 | Draining one channel restores the agreement for it, and neither "already deleted" nor "unknown state" occurs |
| `SessionService.ServiceKeepsAgreement` | src/comminterface/comm_ClientSession.cpp:204-343 | A whole service keeps what the session and its channels agree on |
| `ChannelHistory.DrainOutcome` | src/comminterface/comm_ClientSession.cpp:1402-1505 | A drain ends with an empty backlog and a closed channel if and only if the receiver lets everything through and closes on the last item |
| `ChannelHistory.ServiceWires` | src/comminterface/comm_ClientSession.cpp:1352-1530 | A service keeps every channel's history in step with the session's view, or breaks it in exactly that case |
| `ChannelHistory.AddWires` | src/comminterface/comm_ClientSession.cpp:944-986 | A new channel is announced with its flow under an id whose history is idle |
| `ChannelHistory.PrefixIsWellFormed` | src/comminterface/comm_ClientSession.cpp:1047-1066 | A history that went wrong stays wrong, so what a client has of a good one is good |
| `ClientSessions.ClientSession.constructor` | src/comminterface/comm_ClientSession.cpp:46-74 | A session as it starts, with empty queues and tables |
| `ClientSessions.ClientSession.GetNextMessageId` | src/comminterface/comm_ClientSession.cpp:1820-1835 | Returns the successor of the last serial and keeps it |
| `ClientSessions.ClientSession.RequestService` | src/comminterface/comm_ClientSession.cpp:1810-1817 | Tells the router exactly when it had not been told |
| `ClientSessions.ClientSession.QueueEvent` | src/comminterface/comm_ClientSession.cpp:953-959 | Numbers an event and moves it to the end of the queue |
| `ClientSessions.ClientSession.FindSent` | src/comminterface/comm_ClientSession.cpp:366-382 | The search loop finds the first event with the serial |
| `ClientSessions.ClientSession.ClientDataAcknowledge` | src/comminterface/comm_ClientSession.cpp:346-412 | Equals the specified acknowledgement, errors included |
| `ClientSessions.ClientSession.MoveBack` | src/comminterface/comm_ClientSession.cpp:454-460 | The loop moves all sent events, in order, to the front of the queue |
| `ClientSessions.ClientSession.ClientDataAcknowledgeReconnect` | src/comminterface/comm_ClientSession.cpp:415-464 | Equals the specified handling of a reconnect reply |
| `ClientSessions.ClientSession.SetClientConnection` | src/comminterface/comm_ClientSession.cpp:118-146 | Equals the specified change of connection |
| `ClientSessions.ClientSession.ClientDisconnected` | src/comminterface/comm_ClientSession.cpp:149-154 | Only notes the loss |
| `ClientSessions.ClientSession.ClientUnblocked` | src/comminterface/comm_ClientSession.cpp:467-478 | Equals the specified operation: service is asked for only if events are queued |
| `ClientSessions.ClientSession.RequestDisconnection` | src/comminterface/comm_ClientSession.cpp:196-201 | Flags a disconnect and asks for service |
| `ClientSessions.ClientSession.ProcessSendReturnCode` | src/comminterface/comm_ClientSession.cpp:1225-1276 | Each return code sets exactly its flags; true exactly for the two accepting ones |
| `ClientSessions.ClientSession.SendEvent` | src/comminterface/comm_ClientSession.cpp:285-325 | Every queued event is of one of the three kinds; the branch for unknown kinds, in which the loop would not end, is dead |
| `ClientSessions.ClientSession.SendFront` | src/comminterface/comm_ClientSession.cpp:333-338 | Equals one turn of the specified loop; an accepted event is moved, not copied: sent and outgoing together hold what they held |
| `ClientSessions.ClientSession.SendEvents` | src/comminterface/comm_ClientSession.cpp:278-339 | The loop ends and equals the specified send loop, wire included |
| `ClientSessions.ClientSession.SendPending` | src/comminterface/comm_ClientSession.cpp:242-340 | Equals the specified send phase, wire included |
| `ClientSessions.ClientSession.FindByPtr` | src/comminterface/comm_ClientSession.cpp:1292-1310 | The search loop finds the first entry of a channel |
| `ClientSessions.ClientSession.FindById` | src/comminterface/comm_ClientSession.cpp:1313-1331 | The search loop finds the entry of an id |
| `ClientSessions.ClientSession.GetNextChannelId` | src/comminterface/comm_ClientSession.cpp:1838-1868 | Returns 0 when the guard finds the table full; otherwise the scan ends and yields the nearest free id ahead |
| `ClientSessions.ClientSession.AddPendingUnblockedChannel` | src/comminterface/comm_ClientSession.cpp:1761-1781 | Appends an id that is not listed yet |
| `ClientSessions.ClientSession.RemovePendingUnblockedChannel` | src/comminterface/comm_ClientSession.cpp:1784-1807 | Removes the id if listed |
| `ClientSessions.ClientSession.ChannelFlowBlocked` | src/comminterface/comm_ClientSession.cpp:1031-1068 | Equals the specified callback |
| `ClientSessions.ClientSession.ChannelFlowOpen` | src/comminterface/comm_ClientSession.cpp:1071-1093 | Equals the specified callback |
| `ClientSessions.ClientSession.ChannelFlowClosed` | src/comminterface/comm_ClientSession.cpp:1096-1131 | Equals the specified callback |
| `ClientSessions.ClientSession.ReceiveChannelData` | src/comminterface/comm_ClientSession.cpp:1188-1222 | Equals the specified queuing of an item towards the client |
| `ClientSessions.ClientSession.FindBlockedQueue` | src/comminterface/comm_ClientSession.cpp:1669-1699 | Finds or makes the queue of a channel; what is held does not change |
| `ClientSessions.ClientSession.HoldMessage` | src/comminterface/comm_ClientSession.cpp:611-617 | Appends the message to the channel's queue |
| `ClientSessions.ClientSession.RemoveBlockedQueue` | src/comminterface/comm_ClientSession.cpp:1702-1758 | Clears the queue and trims empty queues from the end backwards; of the others nothing is lost |
| `ClientSessions.ClientSession.HoldBack` | src/comminterface/comm_ClientSession.cpp:609-628 | Equals the specified queuing of a message, with the overflow rule |
| `ClientSessions.ClientSession.HandleMessage` | src/comminterface/comm_ClientSession.cpp:599-692 | Equals the specified handling of a message on a locked channel |
| `ClientSessions.ClientSession.ClientData` | src/comminterface/comm_ClientSession.cpp:510-896 | Equals the specified operation on session and channels together, for both message kinds |
| `ClientSessions.ClientSession.ClientRequestChannelClose` | src/comminterface/comm_ClientSession.cpp:899-930 | Equals the specified operation on session and channels together |
| `ClientSessions.ClientSession.ChannelAdded` | src/comminterface/comm_ClientSession.cpp:933-1028 | Equals the specified addition, on the session and on the channel |
| `SessionSides.AddParts` | src/comminterface/comm_ClientSession.cpp:933-1028 | What channel_added does to the session and what it does to the channel, put together, is the specified addition |
| `ClientSessions.ClientSession.DeleteActiveChannel` | src/comminterface/comm_ClientSession.cpp:1570-1612 | Swap-removal removes exactly the entry, its queue and its schedule |
| `ClientSessions.ClientSession.UnregisterChannel` | src/comminterface/comm_ClientSession.cpp:1615-1666 | Equals the specified release; a late callback finds no entry and changes nothing |
| `ClientSessions.ClientSession.ProcessPendingChannelDeletes` | src/comminterface/comm_ClientSession.cpp:1533-1567 | Equals the specified deletes on session and channels together |
| `ClientSessions.ClientSession.DrainBlockedQueue` | src/comminterface/comm_ClientSession.cpp:1399-1482 | The drain loop ends and equals the specified drain; reports an unknown state exactly when messages are left on an open channel |
| `ClientSessions.ClientSession.ProcessPendingUnblockedChannels` | src/comminterface/comm_ClientSession.cpp:1352-1530 | Equals the specified drain of all scheduled channels |
| `ClientSessions.ClientSession.ProcessPending` | src/comminterface/comm_ClientSession.cpp:204-343 | Equals the specified service on session, channels and wire |
| `ClientSessions.ClientSession.Destroy` | src/comminterface/comm_ClientSession.cpp:77-115 | Equals the specified release of all channels |
| `RouterTheorems.TablesStaySound` | src/comminterface/comm_RouterSessionManager.cpp:265-921 | Over whole runs, whatever sessions wake each other: the maps, the split, the index and the counts agree in every state; each entry of a connection is given back at most once and each session destroyed at most once, and exactly those not there any more are; a connection left over belongs to a session about to be destroyed |
| `RouterTheorems.RouterStaysSound` | src/comminterface/comm_RouterSessionManager.cpp:265-921 | Over whole runs: no state has a destroyed session queued if and only if no destruction wakes a session about to be destroyed; and then every live session that asked is queued once and no session that is gone is used |
| `RouterTheorems.ServiceKeepsTables` | src/comminterface/comm_RouterSessionManager.cpp:877-921 | A service keeps the tables and the counts, whomever it wakes |
| `RouterTheorems.ServiceKeeps` | src/comminterface/comm_RouterSessionManager.cpp:877-921 | After a service nobody who is gone is queued if and only if no destruction woke a session about to be destroyed that had not asked before |
| `RouterTheorems.DestroyedSessionIsQueued` | src/comminterface/comm_RouterSessionManager.cpp:901-920 | A concrete run after which a destroyed session is queued: the list of deletions is already swapped out when destructions wake sessions |
| `RouterTheorems.QueriesEqualScan` | src/comminterface/comm_RouterSessionManager.cpp:137-215 | In every reachable state the site index equals a scan of all live sessions: ids, counts, sites and lookup, at most one session per entity and no empty site |
| `RouterEffects.ReauthorizeTakesEffect` | src/comminterface/comm_RouterSessionManager.cpp:458-521 | An entity with a session gets it back on the new connection: both maps and the session name it, the former connection is entered no more and was given back once, the session has asked for service and is queued once, and nothing else changes; without a session one is made if wanted, and otherwise nothing happens |
| `RouterEffects.AuthorizeTakesEffect` | src/comminterface/comm_RouterSessionManager.cpp:400-455 | The entity has the new session afterwards, entered on its connection; a session it had before keeps its connection and waits to be destroyed; everybody else is found as before |
| `RouterEffects.DisconnectTakesEffect` | src/comminterface/comm_RouterSessionManager.cpp:265-282 | The entity has no session afterwards, the one it had waits to be destroyed with its connection still entered, and nothing else changes |
| `RouterEffects.NobodyToAuthorize` | src/comminterface/comm_RouterSessionManager.cpp:400-521 | Without a connection, a driver or an entity nothing happens |
| `RouterEffects.ServiceTakesEffect` | src/comminterface/comm_RouterSessionManager.cpp:877-921 | Whomever a service wakes: exactly the sessions that waited are destroyed, once each, and their connections given back, once each; a live session has asked for service afterwards if and only if it was woken from its own turn on or by a destruction |
| `RouterInvariant.AuthorizeKeeps` | src/comminterface/comm_RouterSessionManager.cpp:400-455 | Authorizing, with the old session of the entity disconnected first, keeps the invariant |
| `RouterInvariant.ReauthorizeKeeps` | src/comminterface/comm_RouterSessionManager.cpp:458-521 | Reconnecting keeps the invariant; the former connection was given back exactly once |
| `RouterInvariant.ReauthorizeShape` | src/comminterface/comm_RouterSessionManager.cpp:484-496 | The session's change of connection followed by the maps' update comes to one consistent change and a request |
| `RouterInvariant.RemoveKeeps` | src/comminterface/comm_RouterSessionManager.cpp:368-397 | Removing a session keeps the invariant |
| `RouterInvariant.WakeKeepsInv` | src/comminterface/comm_RouterSessionManager.cpp:645-669 | A request for service keeps the invariant: no session is queued twice, and a live one that asked is queued |
| `RouterInvariant.ServiceAllKeeps` | src/comminterface/comm_RouterSessionManager.cpp:877-903 | Servicing the swapped-out queue keeps the invariant, whoever is woken |
| `RouterInvariant.DestroyOneKeeps` | src/comminterface/comm_RouterSessionManager.cpp:914-919 | Destroying a session gives its connection back and keeps everything in order unless it wakes one about to be destroyed |
| `RouterObjects.RouterSessionManager.FindEntitySession` | src/comminterface/comm_RouterSessionManager.cpp:984-1004 | Equals the specified lookup |
| `RouterObjects.RouterSessionManager.AddEntitySession` | src/comminterface/comm_RouterSessionManager.cpp:963-981 | Equals the specified addition to the site index |
| `RouterObjects.RouterSessionManager.RemoveEntitySession` | src/comminterface/comm_RouterSessionManager.cpp:1007-1034 | Equals the specified removal; an empty site goes too |
| `RouterObjects.RouterSessionManager.GetOnlineIds` | src/comminterface/comm_RouterSessionManager.cpp:176-198 | Lists exactly the entities of the site, once each |
| `RouterObjects.RouterSessionManager.GetSessionOnlineCount` | src/comminterface/comm_RouterSessionManager.cpp:201-215 | The number of entities of the site |
| `RouterObjects.RouterSessionManager.EnterSession` | src/comminterface/comm_RouterSessionManager.cpp:285-365 | Equals the specified operation for new sessions, for new connections of known ones, and for invalid arguments |
| `RouterObjects.RouterSessionManager.LeaveSession` | src/comminterface/comm_RouterSessionManager.cpp:368-397 | Equals the specified removal |
| `RouterObjects.RouterSessionManager.DisconnectEntity` | src/comminterface/comm_RouterSessionManager.cpp:265-282 | Equals the specified disconnect; reports whether there was a session |
| `RouterObjects.RouterSessionManager.Release` | src/comminterface/comm_RouterSessionManager.cpp:672-686 | Gives an entered connection back once |
| `RouterObjects.RouterSessionManager.SessionHasPendingActions` | src/comminterface/comm_RouterSessionManager.cpp:645-669 | Queues exactly those not about to be destroyed |
| `RouterObjects.RouterSessionManager.RequestService` | src/comminterface/comm_ClientSession.cpp:1810-1817 | Equals the specified request |
| `RouterObjects.RouterSessionManager.SetClientConnection` | src/comminterface/comm_ClientSession.cpp:118-128 | Equals the specified change of connection as the router sees it |
| `RouterObjects.RouterSessionManager.AuthorizeClient` | src/comminterface/comm_RouterSessionManager.cpp:400-455 | Equals the specified authorization |
| `RouterObjects.RouterSessionManager.ReauthorizeClient` | src/comminterface/comm_RouterSessionManager.cpp:458-521 | Equals the specified reauthorization |
| `RouterObjects.RouterSessionManager.ServiceAllSessions` | src/comminterface/comm_RouterSessionManager.cpp:877-921 | The two loops equal the specified service |
| `RouterObjects.RouterSessionManager.Destroy` | src/comminterface/comm_ClientSession.cpp:104-114 | Equals the specified destruction as the router sees it |
| `LockThreads.RunsNeverDeadlock` | src/concurrency/concurrency_ReaderLockToken.h:37-40 | With any number of threads, each with at most one token over any set, shared or exclusive, with failures, and whether or not writers go first: in every reachable state with a waiting thread some thread can move on, and threads share an object only as readers |
| `LockThreads.AllCanFinish` | src/concurrency/concurrency_ReaderLockToken.cpp:77-143 | From every reachable state all threads can acquire everything they want and give everything back |
| `LockThreads.UnorderedDeadlocks` | src/concurrency/concurrency_ReaderLockToken.h:29-32 | The order matters: without it two threads without tokens reach, in four steps, a state in which each waits for the other and neither can move on |
| `LockThreads.StepKeeps` | src/concurrency/concurrency_ReaderLockToken.cpp:77-143 | Acquisition in order, hand-back and rollback keep mutual exclusion |
| `LockTokens.LockToken.Single` | src/concurrency/concurrency_ReaderLockToken.h:50-55 | One lock call; the token is locked exactly if it succeeded |
| `LockTokens.LockToken.Multi` | src/concurrency/concurrency_ReaderLockToken.h:63-69 | Exactly the specified calls; a null pointer is dereferenced if and only if the set has one and a lock fails; without either, has_lock holds of exactly what is held |
| `LockTokens.LockToken.DoMultilock` | src/concurrency/concurrency_ReaderLockToken.cpp:77-120 | Locks in order up to the first refusal and rolls back; null pointers are passed over |
| `LockTokens.LockToken.RollBack` | src/concurrency/concurrency_ReaderLockToken.cpp:100-114 | Unlocks backwards everything before the refusal, without a check for null |
| `LockTokens.LockToken.DoMultiunlock` | src/concurrency/concurrency_ReaderLockToken.cpp:124-143 | Unlocks every non-null object and clears the set |
| `LockTokens.LockToken.Unlock` | src/concurrency/concurrency_ReaderLockToken.cpp:31-44 | Unlocks what the token holds; only a single object that refuses leaves it locked |
| `LockTokens.LockToken.Destroy` | src/concurrency/concurrency_WriterLockToken.cpp:14-17 | The derived destructor and then the base one: exactly the specified calls |
| `LockTokens.MultilockHolds` | src/concurrency/concurrency_ReaderLockToken.cpp:77-120 | A multi-lock that succeeds holds each object once; one that fails holds only what refuses to be unlocked again |
| `LockTokens.FailedHoldsNothing` | src/concurrency/concurrency_ReaderLockToken.cpp:92-116 | A failed multi-lock holds nothing if and only if nothing it had locked refuses to be unlocked |
| `LockTokens.MultiTokenReleasesOnce` | src/concurrency/concurrency_ReaderLockToken.cpp:31-44 | Over its life a token on a set unlocks every object it locked exactly once, in the mode it was locked in |
| `LockTokens.SingleTokenReleasesOnce` | src/concurrency/concurrency_WriterLockToken.cpp:14-17 | A token on one object unlocks it exactly once if and only if it is not a writer's whose object refuses to be unlocked; that one is unlocked again in the wrong mode |
| `LockTokens.CallsAreSteps` | src/concurrency/concurrency_ReaderLockToken.cpp:77-143 | Call by call a token does what a thread of the deadlock theorem does step by step: the i-th lock, unlock or rollback call is on just the object the thread gains or loses in its i-th step |
| `LockTokens.NullComesFirst` | src/concurrency/concurrency_ReaderLockToken.h:37-40 | In address order a null pointer is met before any object that can refuse |

## Left out

- Item limits of channels (`allowed_items`, `channel_items_remaining`): no code clears the unlimited flag, so they are not in force.
- Interleavings inside one method: the entry pointer kept across an unlock in client_data, and the gap between swapping and freeing deletions in service_sessions, are covered by the atomic-step assumption.
- Listeners other than the session that change a channel while being told of its status, which also resets the callback flag early; receiving callbacks may block or close the channel.
- Processes: only their registration with channels.
- ClientSessions.ClientSession.ClientData: both overloads are one method with the kind as an argument; null messages, which only log, are not modelled, nor is freeing memory.
- ClientSessions.ClientSession.ProcessPending: the three calls on the connection are one answer each; disconnecting the connection object is not part of the state.
- ClientSessions.ClientSession.SetClientConnection: the connection is its window; disconnecting and giving back the former connection is in `Router.SetConnection` and `RouterObjects.RouterSessionManager.SetClientConnection`; a null connection, which leaves the window as it was, is not modelled.
- ClientSessions.ClientSession.Destroy: giving the connection back is in `RouterObjects.RouterSessionManager.Destroy`.
- ClientSessions.ClientSession.GetNextChannelId: not for exactly MAX_CHANNELS - 1 active channels, where the source does not return (`ChannelIds.ScanEndsUnlessFull`).
- ClientSessions.ClientSession.ChannelAdded: for a channel that is not active yet and a free id; the source checks neither, and would give a channel added twice two entries.
- ChannelObjects.Channel.BroadcastStatus: the calls of the listeners; the messages to sending and receiving processes go through an executor that is not part of this model.
- ChannelObjects.Channel.SendItem: that a receiving process gets a message is not part of the state.
- SessionSteps.ClientDataKeeps: on a channel the session counts as blocked, only messages of the channel's own kind; the source checks the kind only when the channel is not blocked.
- SessionSteps.HandleKeeps: the same.
- SessionSteps.AddKeeps: for a channel that is not active yet; the source does not check.
- RouterInvariant.AuthorizeKeeps: for a connection that is not entered yet; the source does not check.
- RouterInvariant.ReauthorizeKeeps: the same.
- RouterEffects.AuthorizeTakesEffect: the same.
- RouterEffects.ReauthorizeTakesEffect: the same.
- RouterTheorems.TablesStaySound: a call on a session that is gone is only counted; what the source does then is undefined.
- ClientStanding.StandingIsEarned: the client of the runs acknowledges what it received; what any other acknowledgement does is in `StatelessReplies.AcceptedAcknowledgements`, `StatelessReplies.AcceptedAnswers` and `StatelessReplies.UnexpectedAnswer`.
- DeliveryProtocol.ExactlyOnceInOrder: a client loses its state only while no connection works for it; what it had received and not acknowledged then counts as not received, as it is sent again.
- JointRuns.SendableIsQueued: sessions are made, disconnected and reconnected between services, and no session about to be destroyed is woken while sessions are being destroyed (`RouterTheorems.ServiceKeeps` says what that would do); the session of the joint run is not itself disconnected.
- Pointer identity: a session that is holder, listener and receiver has one address here; with several base classes its addresses may differ in the source.
- Connection drivers, sockets, saving and restoring, password checks, database calls, the idle timer, timestamps, names and types of channels in status events, statistics and logging.
- Lock order between the router's two locks, and NoLockToken.
- Script engine wrappers, message classes, string tables and other plain containers: they hold data and keep no invariant worth proving.
