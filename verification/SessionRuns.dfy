/** Whole runs: a session, its channels, everybody who calls them, the connection and the client. Each
    step is one method of the session or of a channel, or one move of the connection or the client. */
module SessionRuns {
  import opened Basics
  import opened RouterEvents
  import opened Serials
  import opened Delivery
  import opened DeliveryProtocol
  import opened Channels
  import opened Sessions
  import opened SessionInvariant
  import opened SessionSteps
  import opened SessionService
  import opened SessionHosting
  import opened ChannelHistory

  datatype Full = Full(w: World, net: Net, client: Client)

  function SystemOf(f: Full): System {
    System(f.w.s.d, f.net, f.client)
  }

  datatype FullStep =
    | ChannelCreated(ptr: Ptr, kind: Kind)
    | ChannelAdded(ptr: Ptr, out: bool)
    | ChannelCalled(ptr: Ptr, op: ChannelOp)
    | MessageArrived(id: nat, serial: nat, item: EventData, reaction: Reaction)
    | CloseRequested(id: nat)
    | Serviced(reactions: seq<seq<Reaction>>, codes: seq<SendCode>)
    | Delivered(step: Step)

  /** Channels are fresh objects; others call a channel only while they keep it alive; items are of the
      two kinds there are; a client sends a channel what the channel is for. */
  ghost predicate FullEnabled(f: Full, step: FullStep, maxWindow: nat) {
    match step
    case ChannelCreated(ptr, _) => ptr > 0 && ptr !in f.w.chans
    case ChannelAdded(ptr, _) => CanAdd(f.w, ptr)
    case ChannelCalled(ptr, op) =>
      && ptr in f.w.chans && Allowed(f.w.chans[ptr], op) && ByOthers(op, f.w.s.self)
      && (op.OpSend? ==> op.item.Text? || op.item.Enhanced?)
    case MessageArrived(id, _, item, _) =>
      id in f.w.s.active && f.w.s.active[id].blocked ==>
        f.w.s.active[id].ptr in f.w.chans && Matches(f.w.chans[f.w.s.active[id].ptr].kind, item)
    case CloseRequested(_) => true
    case Serviced(_, _) => true
    case Delivered(inner) => !inner.HostStep? && !inner.ServiceStep? && Enabled(SystemOf(f), inner, maxWindow)
  }

  ghost function FullNext(f: Full, step: FullStep, maxWindow: nat): Full
    requires FullEnabled(f, step, maxWindow) && Known(f.w)
  {
    match step
    case ChannelCreated(ptr, kind) => f.(w := f.w.(chans := f.w.chans[ptr := NewChannel(kind)]))
    case ChannelAdded(ptr, out) => f.(w := AddChannel(f.w, ptr, out))
    case ChannelCalled(ptr, op) => f.(w := ForeignNext(f.w, ptr, op))
    case MessageArrived(id, serial, item, reaction) => f.(w := ClientData(f.w, id, serial, item, reaction))
    case CloseRequested(id) => f.(w := RequestClose(f.w, id))
    case Serviced(reactions, codes) =>
      var (w, wire) := ProcessPending(f.w, reactions, codes);
      f.(w := w, net := Carry(f.net, wire))
    case Delivered(inner) =>
      var next := Next(SystemOf(f), inner, maxWindow);
      Full(f.w.(s := f.w.s.(d := next.d)), next.net, next.client)
  }

  function FullStart(self: Ptr, modulus: nat, window: nat, maxChannels: nat): Full {
    var s := Session(self, Initial(modulus, window), map[], map[], [], [], 0, maxChannels, map[]);
    Full(World(s, map[]), Net(true, [], []), Client([], 0, false, 0))
  }

  /** What holds in every state of every run. */
  ghost predicate FullInv(f: Full, maxWindow: nat) {
    Agreed(f.w) && Inv(SystemOf(f), maxWindow)
  }

  lemma InvIsKnown(f: Full, maxWindow: nat)
    requires FullInv(f, maxWindow)
    ensures Known(f.w)
  {
  }

  ghost predicate FullLegal(f: Full, steps: seq<FullStep>, maxWindow: nat)
    decreases steps
  {
    steps == [] ||
    (Known(f.w) && FullEnabled(f, steps[0], maxWindow)
     && FullLegal(FullNext(f, steps[0], maxWindow), steps[1..], maxWindow))
  }

  ghost function FullRun(f: Full, steps: seq<FullStep>, maxWindow: nat): Full
    requires FullLegal(f, steps, maxWindow)
    decreases steps
  {
    if steps == [] then f else FullRun(FullNext(f, steps[0], maxWindow), steps[1..], maxWindow)
  }

  // ----- Every step of the whole is a step of the delivery protocol -----

  lemma HostedIsStep(s: System, next: State, maxWindow: nat) returns (step: Step)
    requires Hosted(s.d, next)
    ensures Enabled(s, step, maxWindow) && step.HostStep? && s.(d := next) == Next(s, step, maxWindow)
  {
    var ops :| next == HostAll(s.d, ops);
    step := HostStep(ops);
  }

  /** What a step on the channels does to the delivery half. */
  lemma ChannelStepsAreHosted(f: Full, step: FullStep, maxWindow: nat)
    requires FullInv(f, maxWindow) && FullEnabled(f, step, maxWindow) && Known(f.w)
    requires !step.Serviced? && !step.Delivered?
    ensures var next := FullNext(f, step, maxWindow);
      && next.net == f.net && next.client == f.client
      && Hosted(f.w.s.d, next.w.s.d) && Prompt(f.w.s.d, next.w.s.d)
  {
    hide Core, AllConserved, Inv, Hosted, Prompt, ChannelStep, ChannelData, ClientData, Announce, Apply, IdOf, Known;
    KnownIsReady(f.w);
    HostedSame(f.w.s.d);
    RequestIsHosted(f.w.s.d);
    PromptSame(f.w.s.d);
    match step
    case ChannelCreated(ptr, kind) =>
    case ChannelAdded(ptr, out) =>
      var id := AddChannel(f.w, ptr, out).s.lastChannelId;
      AnnounceIsHosted(f.w.s.d, id, out, !out && f.w.chans[ptr].blocked);
    case ChannelCalled(ptr, op) =>
      if Arrives(f.w, ptr, op) {
        DataIsHosted(f.w.s, ptr, op.item);
      } else {
        StepIsHosted(f.w, ptr, Apply(f.w.chans[ptr], op));
      }
    case MessageArrived(id, serial, item, reaction) => ClientDataIsHosted(f.w, id, serial, item, reaction);
    case CloseRequested(id) =>
      if id in f.w.s.active {
        KnownAt(f.w, id);
        StepIsHosted(f.w, f.w.s.active[id].ptr, Close(f.w.chans[f.w.s.active[id].ptr]));
      }
  }

  lemma KnownAt(w: World, id: nat)
    requires Known(w) && id in w.s.active
    ensures w.s.active[id].ptr in w.chans
  {
  }

  lemma PromptSame(d: State)
    ensures Prompt(d, d)
  {
  }

  /** Every step of the whole is one step of the delivery protocol, so all its theorems apply. */
  lemma StepSimulates(f: Full, step: FullStep, maxWindow: nat) returns (inner: Step)
    requires FullInv(f, maxWindow) && FullEnabled(f, step, maxWindow) && Known(f.w)
    ensures Enabled(SystemOf(f), inner, maxWindow)
    ensures SystemOf(FullNext(f, step, maxWindow)) == Next(SystemOf(f), inner, maxWindow)
  {
    hide Core, AllConserved, Inv, Hosted, Prompt, Service, ProcessPending, Known;
    if step.Delivered? {
      inner := step.step;
    } else if step.Serviced? {
      var ops := ServiceIsHosted(f.w, step.reactions, step.codes);
      inner := ServiceStep(ops, step.codes);
      KnownIsReady(f.w);
    } else {
      ChannelStepsAreHosted(f, step, maxWindow);
      inner := HostedIsStep(SystemOf(f), FullNext(f, step, maxWindow).w.s.d, maxWindow);
    }
  }

  lemma StepAgrees(f: Full, step: FullStep, maxWindow: nat)
    requires FullInv(f, maxWindow) && FullEnabled(f, step, maxWindow) && Known(f.w)
    ensures Agreed(FullNext(f, step, maxWindow).w)
  {
    hide Core, AllConserved, Inv, ProcessPending, ClientData, AddChannel, RequestClose, ForeignNext;
    match step
    case ChannelCreated(ptr, kind) => CreateKeeps(f.w, ptr, kind);
    case ChannelAdded(ptr, out) => AddKeeps(f.w, ptr, out);
    case ChannelCalled(ptr, op) => ForeignKeeps(f.w, ptr, op);
    case MessageArrived(id, serial, item, reaction) => ClientDataKeeps(f.w, id, serial, item, reaction);
    case CloseRequested(id) => CloseKeepsAgreement(f.w, id);
    case Serviced(reactions, codes) => ServiceKeepsAgreement(f.w, reactions, codes);
    case Delivered(inner) =>
      StepKeeps(SystemOf(f), inner, maxWindow);
      InvIsReady(Next(SystemOf(f), inner, maxWindow), maxWindow);
      DeliveryKeeps(f.w, Next(SystemOf(f), inner, maxWindow).d, {}, 0);
  }

  lemma InvIsReady(s: System, maxWindow: nat)
    requires Inv(s, maxWindow)
    ensures Ready(s.d)
  {
  }

  lemma FullStepKeeps(f: Full, step: FullStep, maxWindow: nat)
    requires FullInv(f, maxWindow) && FullEnabled(f, step, maxWindow) && Known(f.w)
    ensures FullInv(FullNext(f, step, maxWindow), maxWindow)
  {
    hide Agreed, Inv, FullNext, Known;
    StepAgrees(f, step, maxWindow);
    var inner := StepSimulates(f, step, maxWindow);
    StepKeeps(SystemOf(f), inner, maxWindow);
  }

  lemma StartIsFull(self: Ptr, modulus: nat, window: nat, maxChannels: nat, maxWindow: nat)
    requires self > 0 && 0 < maxChannels && window <= maxWindow && maxWindow + 1 < modulus
    ensures FullInv(FullStart(self, modulus, window, maxChannels), maxWindow)
  {
  }

  /** In every state of every run the session, its channels, the connection and the client agree. */
  lemma {:induction false} FullRunKeeps(f: Full, steps: seq<FullStep>, maxWindow: nat)
    requires FullInv(f, maxWindow) && FullLegal(f, steps, maxWindow)
    ensures FullInv(FullRun(f, steps, maxWindow), maxWindow)
    decreases steps
  {
    hide FullInv, FullNext, FullEnabled, Known;
    if steps != [] {
      FullStepKeeps(f, steps[0], maxWindow);
      FullRunKeeps(FullNext(f, steps[0], maxWindow), steps[1..], maxWindow);
    }
  }
}
