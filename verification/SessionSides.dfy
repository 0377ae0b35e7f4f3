/** The operations of `Sessions` that reach a channel, taken apart into what they do to the session and what
    they do to the channel, and facts about the vectors and channel objects the methods of
    `ClientSessions.ClientSession` work on. */
module SessionSides {
  import opened Basics
  import opened RouterEvents
  import opened Delivery
  import opened Channels
  import opened ChannelIds
  import opened Sessions
  import opened SessionTables
  import Objects = ChannelObjects

  /** Every queued event is of a kind the send loop can send; otherwise it would not end. */
  predicate AllSendable(events: seq<RouterEvent>) {
    forall i :: 0 <= i < |events| ==> Sendable(events[i])
  }

  /** The search by address finds the id the specification speaks of. */
  lemma FoundIsIdOf(s: Session, entries: seq<ActiveChannel>, ptr: Ptr)
    requires s.active == ActiveMap(entries) && Distinct(entries)
    requires forall i :: 0 <= i < |entries| ==> entries[i].id != 0
    requires forall i, j :: 0 <= i < j < |entries| ==> entries[i].info.ptr != entries[j].info.ptr
    ensures var i := IndexOfPtr(entries, ptr);
      if i == |entries| then IdOf(s, ptr) == 0
      else IdOf(s, ptr) == entries[i].id && entries[i].id in s.active && s.active[entries[i].id] == entries[i].info
  {
    hide ActiveMap;
    var i := IndexOfPtr(entries, ptr);
    var id := IdOf(s, ptr);
    NotFound(entries, id);
    if i < |entries| {
      IndexIs(entries, i);
      NotFound(entries, entries[i].id);
    }
  }

  /** A turn of the send loop sends an event or blocks the client. */
  lemma SendOneShrinks(d: State, code: SendCode)
    requires KeepsSending(d)
    ensures var next := SendOne(d, code).0;
      |next.outgoing| < |d.outgoing| || (next.outgoing == d.outgoing && next.blocked)
  {
  }

  /** Channel objects by address; no object has two addresses. */
  type Memory = map<Ptr, Objects.Channel>

  ghost predicate Separate(memory: Memory) {
    forall p, q :: p in memory && q in memory && p != q ==> memory[p] != memory[q]
  }

  ghost function Views(memory: Memory): map<Ptr, Channel>
    reads memory.Values
  {
    map p | p in memory :: memory[p].View()
  }

  lemma ViewsAreOfMemory(memory: Memory)
    ensures Views(memory).Keys == memory.Keys
  {
  }

  /** Only the channel at one address changed. */
  lemma OneViewChanged(memory: Memory, ptr: Ptr, before: map<Ptr, Channel>)
    requires ptr in memory && before.Keys == memory.Keys
    requires forall p :: p in memory && p != ptr ==> memory[p].View() == before[p]
    ensures Views(memory) == before[ptr := memory[ptr].View()]
  {
  }

  /** The session after a channel changed and made its calls. */
  ghost function Called(s: Session, ptr: Ptr, before: Channel, after: Channel): Session
    requires Ready(s.d)
  {
    if Broadcasts(before, after, s.self) then FlowCall(s, ptr, after.lastStatus) else s
  }

  /** The session's side and the channel's side of `Sessions.Offer` and `Sessions.Handle`. */
  ghost function Offered(s: Session, id: nat, c: Channel, event: RouterEvent, reaction: Reaction): Session
    requires Ready(s.d) && id in s.active
  {
    var offered := Called(s, s.active[id].ptr, c, SendItem(c, s.self, event.data, reaction));
    if Accepts(c) || c.closed || !c.blocked || id !in offered.active then offered
    else QueueMessage(offered.(active := offered.active[id := offered.active[id].(blocked := true)]), id, event)
  }

  predicate IsOffered(s: Session, id: nat, c: Channel, event: RouterEvent)
    requires id in s.active
  {
    !s.active[id].blocked && !s.active[id].closed && Matches(c.kind, event.data)
  }

  ghost function Handled(s: Session, id: nat, c: Channel, event: RouterEvent, reaction: Reaction): Session
    requires Ready(s.d) && id in s.active
  {
    if s.active[id].blocked then QueueMessage(s, id, event)
    else if s.active[id].closed then s
    else if !Matches(c.kind, event.data) then s.(d := MarkDisconnect(s.d))
    else Offered(s, id, c, event, reaction)
  }

  function HandledBy(s: Session, id: nat, c: Channel, event: RouterEvent, reaction: Reaction): Channel
    requires id in s.active
  {
    if IsOffered(s, id, c, event) then SendItem(c, s.self, event.data, reaction) else c
  }

  lemma HandleParts(w: World, id: nat, event: RouterEvent, reaction: Reaction)
    requires Ready(w.s.d) && id in w.s.active && w.s.active[id].ptr in w.chans
    ensures var ptr := w.s.active[id].ptr;
      Handle(w, id, event, reaction)
      == World(Handled(w.s, id, w.chans[ptr], event, reaction),
               w.chans[ptr := HandledBy(w.s, id, w.chans[ptr], event, reaction)])
  {
  }

  lemma SendingKeepsLocks(c: Channel, sender: Ptr, item: EventData, reaction: Reaction)
    ensures SendItem(c, sender, item, reaction).locks == c.locks
    ensures !Accepts(c) ==> SendItem(c, sender, item, reaction) == c.(inCallback := false)
  {
  }

  function TakenAfter(taken: map<Ptr, seq<EventData>>, c: Channel, ptr: Ptr, item: EventData): map<Ptr, seq<EventData>> {
    if c.closed || !Matches(c.kind, item) then taken
    else taken[ptr := (if ptr in taken then taken[ptr] else []) + [item]]
  }

  /** The session once a message is noted. */
  function Noted(s: Session, c: Channel, ptr: Ptr, serial: nat, item: EventData): (t: Session)
    requires Ready(s.d)
    ensures Ready(t.d) && t.active == s.active && t.self == s.self
    ensures t == Take(s, c, ptr, item).(d := NoteIncoming(s.d, serial))
  {
    s.(d := NoteIncoming(s.d, serial), taken := TakenAfter(s.taken, c, ptr, item))
  }

  lemma NotedIgnoresLock(s: Session, c: Channel, ptr: Ptr, serial: nat, item: EventData)
    requires Ready(s.d)
    ensures Noted(s, Lock(c), ptr, serial, item) == Noted(s, c, ptr, serial, item)
  {
  }

  function Freed(c: Channel): Channel {
    if c.locks > 0 then Unlock(c) else c
  }

  /** `Sessions.ClientData`, put together from the session's side and the channel's side. */
  lemma ClientDataParts(w: World, id: nat, serial: nat, item: EventData, reaction: Reaction)
    requires Known(w) && id in w.s.active && !w.s.active[id].out
    ensures var ptr, event := w.s.active[id].ptr, RouterEvent(serial, 0, item);
      ptr in w.chans
      && var c := w.chans[ptr];
        var noted := Noted(w.s, c, ptr, serial, item);
        ClientData(w, id, serial, item, reaction)
        == World(Handled(noted, id, Lock(c), event, reaction),
                 w.chans[ptr := Freed(HandledBy(noted, id, Lock(c), event, reaction))])
  {
    hide SendItem, FlowCall, QueueMessage, Handled, HandledBy, Noted, Handle, Lock, Unlock;
    var ptr, event := w.s.active[id].ptr, RouterEvent(serial, 0, item);
    var received := Receive(w, id, serial, item);
    assert received == World(Noted(w.s, w.chans[ptr], ptr, serial, item), w.chans[ptr := Lock(w.chans[ptr])]);
    HandleParts(received, id, event, reaction);
    var handled := Handle(received, id, event, reaction);
    assert Release(handled, ptr).chans == w.chans[ptr := Freed(handled.chans[ptr])];
  }

  lemma ClientDataElsewhere(w: World, id: nat, serial: nat, item: EventData, reaction: Reaction)
    requires Known(w) && (id in w.s.active ==> w.s.active[id].out)
    ensures ClientData(w, id, serial, item, reaction)
      == if id in w.s.active then w.(s := w.s.(d := MarkDisconnect(w.s.d))) else w
  {
  }

  /** The session's side of `Sessions.AddChannel`. */
  function Added(s: Session, channelBlocked: bool, ptr: Ptr, out: bool): Session
    requires Ready(s.d) && s.lastChannelId < s.maxChannels && |s.active| + 1 < s.maxChannels
  {
    FreeIdExists(s.active.Keys, s.maxChannels);
    var id := FirstFree(s.lastChannelId, s.active.Keys, s.maxChannels);
    var blocked := !out && channelBlocked;
    s.(lastChannelId := id, active := s.active[id := ChannelInfo(ptr, out, false, blocked)],
       d := Announce(s.d, id, out, blocked))
  }

  lemma AddParts(w: World, ptr: Ptr, out: bool)
    requires Ready(w.s.d) && ptr in w.chans && w.s.lastChannelId < w.s.maxChannels
    requires |w.s.active| + 1 < w.s.maxChannels
    ensures AddChannel(w, ptr, out)
      == World(Added(w.s, w.chans[ptr].blocked, ptr, out), w.chans[ptr := Register(w.chans[ptr], w.s.self, out)])
  {
  }

  lemma RegisteringKeepsLocks(c: Channel, ptr: Ptr)
    ensures RegisterHolder(c, ptr).locks == c.locks && RegisterListener(c, ptr).locks == c.locks
    ensures RegisterReceiver(c, ptr).locks == c.locks
  {
  }

  /** No entry names the channel. */
  ghost predicate Absent(entries: seq<ActiveChannel>, ptr: Ptr) {
    forall i :: 0 <= i < |entries| ==> entries[i].info.ptr != ptr
  }

  /** What had no entry has none now. */
  ghost predicate Forgets(before: seq<ActiveChannel>, after: seq<ActiveChannel>) {
    forall ptr :: Absent(before, ptr) ==> Absent(after, ptr)
  }

  lemma SameMapForgets(before: seq<ActiveChannel>, after: seq<ActiveChannel>)
    requires ActiveMap(before) == ActiveMap(after) && Distinct(after)
    ensures Forgets(before, after)
  {
    hide ActiveMap;
    forall i | 0 <= i < |after|
      ensures exists k :: 0 <= k < |before| && before[k].info.ptr == after[i].info.ptr
    {
      IndexIs(after, i);
      NotFound(after, after[i].id);
      NotFound(before, after[i].id);
      assert before[IndexOf(before, after[i].id)].info == after[i].info;
    }
  }

  lemma AbsentIsUnknown(s: Session, entries: seq<ActiveChannel>, ptr: Ptr, status: Flow)
    requires s.active == ActiveMap(entries) && Absent(entries, ptr) && Ready(s.d)
    ensures IdOf(s, ptr) == 0 && FlowCall(s, ptr, status) == s
  {
  }

  /** Only text and client messages are held back. */
  ghost predicate AllMessages(queues: seq<HeldQueue>) {
    forall i, k :: 0 <= i < |queues| && 0 <= k < |queues[i].1| ==> IsMessage(queues[i].1[k].data)
  }

  predicate IsMessage(item: EventData) {
    item.Text? || item.Enhanced?
  }

  lemma {:induction false} RemovedAreKnown(s: Session, ids: seq<nat>, known: set<Ptr>)
    requires forall id :: id in s.active ==> s.active[id].ptr in known
    ensures forall k :: 0 <= k < |DeleteAll(s, ids).1| ==> DeleteAll(s, ids).1[k].ptr in known
    decreases ids
  {
    hide DeleteChannel;
    if ids != [] {
      forall id | id in DeleteChannel(s, ids[0]).active ensures DeleteChannel(s, ids[0]).active[id].ptr in known {
        DeletingLeaves(s, ids[0], id);
      }
      RemovedAreKnown(DeleteChannel(s, ids[0]), ids[1..], known);
    }
  }

  lemma DeletingLeaves(s: Session, id: nat, other: nat)
    ensures other in DeleteChannel(s, id).active ==> other in s.active && s.active[other] == DeleteChannel(s, id).active[other]
  {
  }

  /** One turn of `Sessions.DrainQueue`, from the session's side and the channel's side. */
  lemma DrainUnroll(w: World, id: nat, reactions: seq<Reaction>, k: nat)
    requires Ready(w.s.d) && id in w.s.active && w.s.active[id].ptr in w.chans && QueueOf(w.s, id) != []
    ensures var ptr := w.s.active[id].ptr;
      var c := w.chans[ptr];
      var c1 := SendItem(c, w.s.self, QueueOf(w.s, id)[0].data, ReactionAt(reactions, k));
      var offered := World(Called(w.s, ptr, c, c1), w.chans[ptr := c1]);
      && SameChannels(w.s, offered.s)
      && DrainQueue(w, id, reactions, k)
        == if !Accepts(c) then offered
           else DrainQueue(offered.(s := SetQueue(offered.s, id, QueueOf(offered.s, id)[1..])), id, reactions, k + 1)
  {
  }

  lemma DrainDone(w: World, id: nat, reactions: seq<Reaction>, k: nat)
    requires Ready(w.s.d) && id in w.s.active && w.s.active[id].ptr in w.chans && QueueOf(w.s, id) == []
    ensures DrainQueue(w, id, reactions, k) == w && !InUnknownState(w, id)
  {
  }

  /** The session's side of `Sessions.FinishDrain`. */
  function Finished(s: Session, id: nat, channelBlocked: bool): Session
    requires Ready(s.d) && id in s.active
  {
    if QueueOf(s, id) != [] then s
    else
      var updated := s.(active := s.active[id := s.active[id].(blocked := channelBlocked)]);
      if channelBlocked then updated else Tell(updated, id, StatusUnblock)
  }

  lemma FinishParts(w: World, id: nat)
    requires Ready(w.s.d) && id in w.s.active && w.s.active[id].ptr in w.chans
    ensures FinishDrain(w, id) == w.(s := Finished(w.s, id, w.chans[w.s.active[id].ptr].blocked))
  {
  }

  lemma {:induction false} DrainKeepsLocks(w: World, id: nat, reactions: seq<Reaction>, k: nat)
    requires Ready(w.s.d) && id in w.s.active && w.s.active[id].ptr in w.chans
    ensures var ptr := w.s.active[id].ptr; DrainQueue(w, id, reactions, k).chans[ptr].locks == w.chans[ptr].locks
    decreases |QueueOf(w.s, id)|
  {
    hide SendItem, FlowCall;
    if QueueOf(w.s, id) != [] {
      DrainUnroll(w, id, reactions, k);
      var ptr := w.s.active[id].ptr;
      SendingKeepsLocks(w.chans[ptr], w.s.self, QueueOf(w.s, id)[0].data, ReactionAt(reactions, k));
      if Accepts(w.chans[ptr]) {
        var offered := OfferHead(w, id, ReactionAt(reactions, k));
        DrainKeepsLocks(offered.(s := SetQueue(offered.s, id, QueueOf(offered.s, id)[1..])), id, reactions, k + 1);
      }
    }
  }

  lemma DeletesStayKnown(w: World)
    requires Known(w)
    ensures Known(ProcessDeletes(w))
    ensures w.s.pendingDelete == [] ==> ProcessDeletes(w) == w
  {
  }

  /** What one service comes to, for a session that is to be disconnected and for any other. */
  lemma ServiceParts(w: World, reactions: seq<seq<Reaction>>, codes: seq<SendCode>)
    requires Known(w)
    ensures var begun := w.(s := w.s.(d := w.s.d.(requested := false)));
      && Known(begun) && Known(ProcessDeletes(begun))
      && Sessions.ProcessPending(w, reactions, codes)
        == if w.s.d.needDisconnect then (w.(s := w.s.(d := w.s.d.(requested := false, connected := false))), [])
           else
             var unblocked := ProcessUnblocked(ProcessDeletes(begun), reactions);
             (unblocked.(s := unblocked.s.(d := SendPhase(unblocked.s.d, codes).0)), SendPhase(unblocked.s.d, codes).1)
  {
    hide ProcessUnblocked, ProcessDeletes, SendPhase;
    DeletesStayKnown(w.(s := w.s.(d := w.s.d.(requested := false))));
  }

  function Infos(entries: seq<ActiveChannel>): seq<ChannelInfo> {
    seq(|entries|, i requires 0 <= i < |entries| => entries[i].info)
  }

  ghost predicate DistinctPtrs(entries: seq<ActiveChannel>) {
    forall i, j :: 0 <= i < j < |entries| ==> entries[i].info.ptr != entries[j].info.ptr
  }

  lemma NoneToUnregister(chans: map<Ptr, Channel>, self: Ptr)
    ensures UnregisterAll(chans, self, []) == chans
  {
  }

  lemma UnregisterNext(chans: map<Ptr, Channel>, self: Ptr, infos: seq<ChannelInfo>, i: nat)
    requires i < |infos| && infos[i].ptr in chans
    ensures UnregisterAll(chans, self, infos[i..])
      == UnregisterAll(chans[infos[i].ptr := Unregister(chans[infos[i].ptr], self, infos[i].out)], self, infos[i + 1..])
  {
    hide Unregister;
    assert infos[i..][1..] == infos[i + 1..];
  }

  /** Each channel is let go once. */
  lemma {:induction false} UnregisterAllAt(chans: map<Ptr, Channel>, self: Ptr, entries: seq<ActiveChannel>, p: Ptr)
    requires DistinctPtrs(entries) && p in chans
    requires forall i :: 0 <= i < |entries| ==> entries[i].info.ptr in chans
    ensures var i := IndexOfPtr(entries, p);
      UnregisterAll(chans, self, Infos(entries))[p]
      == if i < |entries| then Unregister(chans[p], self, entries[i].info.out) else chans[p]
    decreases |entries|
  {
    hide Unregister;
    if entries != [] {
      var first, rest := entries[0].info, entries[1..];
      assert Infos(entries)[1..] == Infos(rest);
      UnregisterAllAt(chans[first.ptr := Unregister(chans[first.ptr], self, first.out)], self, rest, p);
    }
  }

  /** The destructor's loop lets go of what `Sessions.LetGo` says. */
  lemma UnregisteringLetsGo(w: World, entries: seq<ActiveChannel>)
    requires w.s.active == ActiveMap(entries) && Distinct(entries) && DistinctPtrs(entries)
    requires forall i :: 0 <= i < |entries| ==> entries[i].id != 0 && entries[i].info.ptr in w.chans
    ensures UnregisterAll(w.chans, w.s.self, Infos(entries)) == LetGo(w)
  {
    hide Unregister, ActiveMap, UnregisterAll, IdOf;
    forall p | p in w.chans ensures UnregisterAll(w.chans, w.s.self, Infos(entries))[p] == LetGo(w)[p] {
      UnregisterAllAt(w.chans, w.s.self, entries, p);
      FoundIsIdOf(w.s, entries, p);
    }
  }

  lemma NoMessages()
    ensures AllMessages([]) && Distinct([])
  {
  }

  lemma LockIsClosedAlike(c: Channel)
    ensures Lock(c).closed == c.closed && Lock(c).locks > 0
  {
  }
}
