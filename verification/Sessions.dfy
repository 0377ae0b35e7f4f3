/** A client session with the channels it works on, as values: the channel half of
    comm_ClientSession.cpp. Every function is one method of the session (or one callback into it),
    taken as a single atomic step under its lock; a channel's call of its listeners happens inside
    the step that changes the channel. */
module Sessions {
  import opened Basics
  import opened RouterEvents
  import opened Delivery
  import opened Channels
  import opened ChannelIds

  /** What the session keeps about a channel; the channel's id is its key in `active`. */
  datatype ChannelInfo = ChannelInfo(ptr: Ptr, out: bool, closed: bool, blocked: bool)

  /** `active` and `queues` stand for the vectors of the source: ids are distinct there, and a
      channel without an entry in `queues` has nothing queued. `self` is the session's own address.
      `taken` is history: the client's messages for an open inbound channel, per channel, in the
      order the session got them. */
  datatype Session = Session(
    self: Ptr,
    d: State,
    active: map<nat, ChannelInfo>,
    queues: map<nat, seq<RouterEvent>>,
    pendingDelete: seq<nat>,
    pendingUnblock: seq<nat>,
    lastChannelId: nat,
    maxChannels: nat,
    taken: map<Ptr, seq<EventData>>)

  /** The session and every channel object it could meet, by address. */
  datatype World = World(s: Session, chans: map<Ptr, Channel>)

  function QueueOf(s: Session, id: nat): seq<RouterEvent> {
    if id in s.queues then s.queues[id] else []
  }

  /** An empty queue leaves no entry. */
  function SetQueue(s: Session, id: nat, queue: seq<RouterEvent>): Session {
    s.(queues := if queue == [] then s.queues - {id} else s.queues[id := queue])
  }

  function TakenOn(s: Session, ptr: Ptr): seq<EventData> {
    if ptr in s.taken then s.taken[ptr] else []
  }

  predicate Matches(kind: Kind, item: EventData) {
    (kind.TextKind? && item.Text?) || (kind.DataKind? && item.Enhanced?)
  }

  /** `get_channel_info` by address: the id of the entry, 0 when there is none. */
  ghost function IdOf(s: Session, ptr: Ptr): (id: nat)
    ensures id != 0 ==> id in s.active && s.active[id].ptr == ptr
    ensures id == 0 ==> forall other :: other in s.active && other != 0 ==> s.active[other].ptr != ptr
  {
    if other: nat :| other in s.active && other != 0 && s.active[other].ptr == ptr then other else 0
  }

  /** The callbacks change what is known of a channel, never which channels there are. */
  predicate SameChannels(s: Session, t: Session) {
    && t.active.Keys == s.active.Keys
    && (forall id :: id in s.active ==> t.active[id].ptr == s.active[id].ptr && t.active[id].out == s.active[id].out)
    && t.self == s.self && t.queues == s.queues && t.taken == s.taken
    && t.lastChannelId == s.lastChannelId && t.maxChannels == s.maxChannels
    && (Ready(s.d) ==> Ready(t.d)) && t.d.window == s.d.window
  }

  // ----- Queuing events -----

  function StatusData(s: Session, id: nat, status: ChannelStatus): EventData
    requires id in s.active
  {
    Status(StatusChange(status, s.active[id].out, id))
  }

  /** Queues a channel status for the client. */
  function Tell(s: Session, id: nat, status: ChannelStatus): Session
    requires Ready(s.d) && id in s.active
  {
    s.(d := Enqueue(s.d, 0, StatusData(s, id, status)))
  }

  function TellAndRequest(s: Session, id: nat, status: ChannelStatus): Session
    requires Ready(s.d) && id in s.active
  {
    var told := Tell(s, id, status);
    told.(d := RequestUnlessBlocked(told.d))
  }

  // ----- Callbacks from a channel -----

  /** `channel_flow_blocked` */
  ghost function FlowBlockedCall(s: Session, ptr: Ptr): (t: Session)
    requires Ready(s.d)
    ensures SameChannels(s, t)
  {
    var id := IdOf(s, ptr);
    if id == 0 || s.active[id].out then s
    else
      var unscheduled := s.(pendingUnblock := RemoveFirst(s.pendingUnblock, id));
      if s.active[id].blocked then unscheduled
      else TellAndRequest(unscheduled.(active := s.active[id := s.active[id].(blocked := true)]), id, StatusBlock)
  }

  /** `channel_flow_open` */
  ghost function FlowOpenCall(s: Session, ptr: Ptr): (t: Session)
    ensures SameChannels(s, t)
  {
    var id := IdOf(s, ptr);
    if id == 0 || s.active[id].out then s
    else s.(
      pendingUnblock := if id in s.pendingUnblock then s.pendingUnblock else s.pendingUnblock + [id],
      d := RequestUnlessBlocked(s.d))
  }

  /** `channel_flow_closed` */
  ghost function FlowClosedCall(s: Session, ptr: Ptr): (t: Session)
    requires Ready(s.d)
    ensures SameChannels(s, t)
  {
    var id := IdOf(s, ptr);
    if id == 0 then s
    else
      TellAndRequest(s, id, StatusClose).(
        pendingDelete := s.pendingDelete + [id],
        active := s.active[id := s.active[id].(closed := true)])
  }

  ghost function FlowCall(s: Session, ptr: Ptr, status: Flow): (t: Session)
    requires Ready(s.d)
    ensures SameChannels(s, t)
  {
    match status
    case FlowBlocked => FlowBlockedCall(s, ptr)
    case FlowOpen => FlowOpenCall(s, ptr)
    case FlowClosed => FlowClosedCall(s, ptr)
  }

  /** `text_channel_data` and `client_channel_data`: an item of a channel towards the client. */
  ghost function ChannelData(s: Session, ptr: Ptr, item: EventData): (t: Session)
    requires Ready(s.d)
    ensures SameChannels(s, t)
  {
    var id := IdOf(s, ptr);
    if id == 0 then s else s.(d := RequestUnlessBlocked(Enqueue(s.d, id, item)))
  }

  /** Whether the change from `before` to `after` was broadcast to the party. */
  predicate Broadcasts(before: Channel, after: Channel, ptr: Ptr) {
    |before.broadcasts| < |after.broadcasts| && ptr in after.broadcasts[|before.broadcasts|].1
  }

  /** A channel changes by one call, and calls the session back when its status changed. */
  ghost function ChannelStep(w: World, ptr: Ptr, after: Channel): (next: World)
    requires Ready(w.s.d) && ptr in w.chans
    ensures SameChannels(w.s, next.s) && next.chans == w.chans[ptr := after]
  {
    w.(chans := w.chans[ptr := after],
       s := if Broadcasts(w.chans[ptr], after, w.s.self) then FlowCall(w.s, ptr, after.lastStatus) else w.s)
  }

  /** Every active channel is there. */
  predicate Known(w: World) {
    Ready(w.s.d) && forall id :: id in w.s.active ==> w.s.active[id].ptr in w.chans
  }

  // ----- Adding a channel -----

  /** The client hears of a new channel and of whether it may use it. */
  function Announce(d: State, id: nat, out: bool, blocked: bool): State
    requires Ready(d)
  {
    var announced := RequestUnlessBlocked(Enqueue(d, 0, Status(StatusChange(StatusOpen, out, id))));
    Enqueue(announced, 0, Status(StatusChange(if blocked then StatusBlock else StatusUnblock, out, id)))
  }

  /** `channel_added`: the client is told, and the session registers as holder, as listener and, towards
      the client, as receiver. Channels towards the client always count as unblocked. */
  function AddChannel(w: World, ptr: Ptr, out: bool): World
    requires Ready(w.s.d) && ptr in w.chans && w.s.lastChannelId < w.s.maxChannels
    requires |w.s.active| + 1 < w.s.maxChannels
  {
    FreeIdExists(w.s.active.Keys, w.s.maxChannels);
    var id := FirstFree(w.s.lastChannelId, w.s.active.Keys, w.s.maxChannels);
    var blocked := !out && w.chans[ptr].blocked;
    World(w.s.(lastChannelId := id,
               active := w.s.active[id := ChannelInfo(ptr, out, false, blocked)],
               d := Announce(w.s.d, id, out, blocked)),
          w.chans[ptr := Register(w.chans[ptr], w.s.self, out)])
  }

  function Register(c: Channel, self: Ptr, out: bool): Channel {
    var held := RegisterListener(RegisterHolder(Lock(c), self), self);
    Unlock(if out then RegisterReceiver(held, self) else held)
  }

  // ----- Messages from the client -----

  /** Queues a message on a blocked channel. A queue of a whole window means the client ignores the
      channel's status; only the text variant asks for service on top. */
  function QueueMessage(s: Session, id: nat, event: RouterEvent): Session {
    var queued := SetQueue(s, id, QueueOf(s, id) + [event]);
    if |QueueOf(queued, id)| + 1 <= s.d.window then queued
    else if event.data.Text? then queued.(d := MarkDisconnect(s.d))
    else queued.(d := s.d.(needDisconnect := true))
  }

  /** The client's message is handed to the channel; what is done when it refuses. */
  ghost function Offer(w: World, id: nat, event: RouterEvent, reaction: Reaction): World
    requires Ready(w.s.d) && id in w.s.active && w.s.active[id].ptr in w.chans
  {
    var ptr := w.s.active[id].ptr;
    var c := w.chans[ptr];
    var offered := ChannelStep(w, ptr, SendItem(c, w.s.self, event.data, reaction));
    if Accepts(c) || c.closed || !c.blocked || id !in offered.s.active then offered
    else offered.(s := QueueMessage(
      offered.s.(active := offered.s.active[id := offered.s.active[id].(blocked := true)]), id, event))
  }

  /** What is done with a message for an active inbound channel, by what is known of the channel. */
  ghost function Handle(w: World, id: nat, event: RouterEvent, reaction: Reaction): World
    requires Ready(w.s.d) && id in w.s.active && w.s.active[id].ptr in w.chans
  {
    var info := w.s.active[id];
    if info.blocked then w.(s := QueueMessage(w.s, id, event))
    else if info.closed then w
    else if !Matches(w.chans[info.ptr].kind, event.data) then w.(s := w.s.(d := MarkDisconnect(w.s.d)))
    else Offer(w, id, event, reaction)
  }

  /** The channel is locked and the message noted before it is handled. */
  function Receive(w: World, id: nat, serial: nat, item: EventData): World
    requires id in w.s.active && w.s.active[id].ptr in w.chans
  {
    var ptr := w.s.active[id].ptr;
    World(Take(w.s, w.chans[ptr], ptr, item).(d := NoteIncoming(w.s.d, serial)),
          w.chans[ptr := Lock(w.chans[ptr])])
  }

  /** Both `client_data` methods, for the message kind they carry. */
  ghost function ClientData(w: World, id: nat, serial: nat, item: EventData, reaction: Reaction): World
    requires Known(w)
  {
    if id !in w.s.active then w
    else if w.s.active[id].out then w.(s := w.s.(d := MarkDisconnect(w.s.d)))
    else
      var received := Receive(w, id, serial, item);
      Release(Handle(received, id, RouterEvent(serial, 0, item), reaction), w.s.active[id].ptr)
  }

  /** The lock token goes out of scope. */
  function Release(w: World, ptr: Ptr): World {
    if ptr in w.chans && w.chans[ptr].locks > 0 then w.(chans := w.chans[ptr := Unlock(w.chans[ptr])]) else w
  }

  /** History: what the session owes the channel. */
  function Take(s: Session, c: Channel, ptr: Ptr, item: EventData): Session {
    if c.closed || !Matches(c.kind, item) then s else s.(taken := s.taken[ptr := TakenOn(s, ptr) + [item]])
  }

  /** `client_request_channel_close` */
  ghost function RequestClose(w: World, id: nat): World
    requires Ready(w.s.d)
    requires id in w.s.active ==> w.s.active[id].ptr in w.chans
  {
    if id !in w.s.active then w
    else ChannelStep(w, w.s.active[id].ptr, Close(w.chans[w.s.active[id].ptr]))
  }

  // ----- Servicing -----

  function ReactionAt(reactions: seq<Reaction>, k: nat): Reaction {
    if k < |reactions| then reactions[k] else Quiet
  }

  /** The oldest queued message is handed to the channel. */
  ghost function OfferHead(w: World, id: nat, reaction: Reaction): World
    requires Ready(w.s.d) && id in w.s.active && w.s.active[id].ptr in w.chans && QueueOf(w.s, id) != []
  {
    var ptr := w.s.active[id].ptr;
    ChannelStep(w, ptr, SendItem(w.chans[ptr], w.s.self, QueueOf(w.s, id)[0].data, reaction))
  }

  /** Hands queued messages to the channel, oldest first, until the queue is empty or the channel
      refuses. */
  ghost function DrainQueue(w: World, id: nat, reactions: seq<Reaction>, k: nat): (next: World)
    requires Ready(w.s.d) && id in w.s.active && w.s.active[id].ptr in w.chans
    ensures Ready(next.s.d) && id in next.s.active && next.s.active[id].ptr == w.s.active[id].ptr
    ensures next.chans.Keys == w.chans.Keys && next.s.active.Keys == w.s.active.Keys
    ensures forall other :: other in w.s.active ==> next.s.active[other].ptr == w.s.active[other].ptr
    decreases |QueueOf(w.s, id)|
  {
    if QueueOf(w.s, id) == [] then w
    else
      var accepts := Accepts(w.chans[w.s.active[id].ptr]);
      var offered := OfferHead(w, id, ReactionAt(reactions, k));
      if !accepts then offered
      else DrainQueue(offered.(s := SetQueue(offered.s, id, QueueOf(offered.s, id)[1..])), id, reactions, k + 1)
  }

  /** Once everything went through, the channel's own flag decides, and the client hears of an
      unblocked channel. */
  function FinishDrain(w: World, id: nat): (next: World)
    requires Ready(w.s.d) && id in w.s.active && w.s.active[id].ptr in w.chans
    ensures Ready(next.s.d) && next.s.active.Keys == w.s.active.Keys && next.chans == w.chans
    ensures forall other :: other in w.s.active ==> next.s.active[other].ptr == w.s.active[other].ptr
  {
    if QueueOf(w.s, id) != [] then w
    else
      var blocked := w.chans[w.s.active[id].ptr].blocked;
      var updated := w.s.(active := w.s.active[id := w.s.active[id].(blocked := blocked)]);
      w.(s := if blocked then updated else Tell(updated, id, StatusUnblock))
  }

  /** Messages are left although the channel is neither blocked nor closed. */
  predicate InUnknownState(w: World, id: nat)
    requires id in w.s.active && w.s.active[id].ptr in w.chans
  {
    var c := w.chans[w.s.active[id].ptr];
    QueueOf(w.s, id) != [] && !c.blocked && !c.closed
  }

  /** One channel of `process_pending_unblocked_channels`; true when its queue is to be dropped. */
  ghost function DrainChannel(w: World, id: nat, reactions: seq<Reaction>): (result: (World, bool))
    requires Known(w)
    ensures Known(result.0)
    ensures result.0.chans.Keys == w.chans.Keys && result.0.s.active.Keys == w.s.active.Keys
  {
    if id !in w.s.active then (w, true)
    else
      var ptr := w.s.active[id].ptr;
      var locked := w.(chans := w.chans[ptr := Lock(w.chans[ptr])]);
      if w.chans[ptr].closed then (Release(locked, ptr), false)
      else
        var drained := DrainQueue(locked, id, reactions, 0);
        (Release(FinishDrain(drained, id), ptr), InUnknownState(drained, id))
  }

  ghost function DrainAll(w: World, ids: seq<nat>, reactions: seq<seq<Reaction>>): (World, set<nat>)
    requires Known(w)
    decreases ids
  {
    if ids == [] then (w, {})
    else
      var (next, invalid) := DrainChannel(w, ids[0], if reactions == [] then [] else reactions[0]);
      var (done, more) := DrainAll(next, ids[1..], if reactions == [] then [] else reactions[1..]);
      (done, if invalid then {ids[0]} + more else more)
  }

  /** `process_pending_unblocked_channels` */
  ghost function ProcessUnblocked(w: World, reactions: seq<seq<Reaction>>): World
    requires Known(w)
  {
    var (done, invalid) := DrainAll(w.(s := w.s.(pendingUnblock := [])), w.s.pendingUnblock, reactions);
    done.(s := done.s.(queues := done.s.queues - invalid))
  }

  /** `delete_channel` */
  function DeleteChannel(s: Session, id: nat): Session {
    if id == 0 then s
    else s.(
      pendingUnblock := RemoveFirst(s.pendingUnblock, id),
      active := s.active - {id},
      queues := if id in s.active then s.queues - {id} else s.queues)
  }

  /** The first loop of `process_pending_channel_deletes`: what is left, and what was removed. */
  function DeleteAll(s: Session, ids: seq<nat>): (result: (Session, seq<ChannelInfo>))
    ensures result.0.d == s.d && result.0.self == s.self
    ensures forall id :: id in result.0.active ==> id in s.active && result.0.active[id] == s.active[id]
    decreases ids
  {
    if ids == [] then (s, [])
    else
      var (done, removed) := DeleteAll(DeleteChannel(s, ids[0]), ids[1..]);
      (done, (if ids[0] in s.active then [s.active[ids[0]]] else []) + removed)
  }

  /** `unregister_channel`: every call the session makes on a channel it is done with. */
  function Unregister(c: Channel, self: Ptr, out: bool): Channel {
    var closed := Close(UnregisterListener(c, self));
    UnregisterHolder(if out then UnregisterReceiver(closed, self) else closed, self)
  }

  /** The second loop of `process_pending_channel_deletes`. */
  function UnregisterAll(chans: map<Ptr, Channel>, self: Ptr, infos: seq<ChannelInfo>): (next: map<Ptr, Channel>)
    ensures next.Keys == chans.Keys
    decreases infos
  {
    if infos == [] then chans
    else if infos[0].ptr !in chans then UnregisterAll(chans, self, infos[1..])
    else UnregisterAll(
      chans[infos[0].ptr := Unregister(chans[infos[0].ptr], self, infos[0].out)], self, infos[1..])
  }

  function ProcessDeletes(w: World): World {
    var (done, removed) := DeleteAll(w.s, w.s.pendingDelete);
    World(done.(pendingDelete := []), UnregisterAll(w.chans, w.s.self, removed))
  }

  /** `process_pending`, with how receivers react and how the connection answers. */
  ghost function ProcessPending(w: World, reactions: seq<seq<Reaction>>, codes: seq<SendCode>): (World, seq<Wire>)
    requires Known(w)
  {
    var begun := w.(s := w.s.(d := w.s.d.(requested := false)));
    if w.s.d.needDisconnect then (begun.(s := begun.s.(d := begun.s.d.(connected := false))), [])
    else
      var unblocked := ProcessUnblocked(ProcessDeletes(begun), reactions);
      var (d, wire) := SendPhase(unblocked.s.d, codes);
      (unblocked.(s := unblocked.s.(d := d)), wire)
  }

  /** What the destructor does to the channels: every active one is let go. */
  ghost function LetGo(w: World): map<Ptr, Channel> {
    map ptr | ptr in w.chans ::
      var id := IdOf(w.s, ptr);
      if id == 0 then w.chans[ptr] else Unregister(w.chans[ptr], w.s.self, w.s.active[id].out)
  }
}
