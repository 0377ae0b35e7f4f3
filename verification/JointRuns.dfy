/** A session and the router that services it, together. The session keeps a flag of its own for having asked for
    service, and the router a queue of who has: what ties them is that the session tells the router once. So what
    `SessionWakeups` says of the flag holds of the queue. */
module JointRuns {
  import opened Basics
  import opened Delivery
  import opened DeliveryProtocol
  import opened Channels
  import opened Sessions
  import opened SessionHosting
  import opened SessionRuns
  import opened SessionWakeups
  import R = Router
  import I = RouterInvariant
  import T = RouterTheorems

  /** The router is between two services, has taken `local` off its queue and not come to these sessions yet, or
      has taken `doomed` off its list of deletions and not destroyed these sessions yet. */
  datatype Phase = Between | Serving(local: seq<Ptr>) | Destroying(doomed: seq<Ptr>)

  /** `self` is what the router calls the session. */
  datatype Joint = Joint(r: R.State, phase: Phase, self: Ptr, f: Full)

  /** Who is still ahead in the service under way. */
  function Ahead(j: Joint): seq<Ptr> {
    if j.phase.Serving? then j.phase.local else []
  }

  function Doomed(j: Joint): seq<Ptr> {
    if j.phase.Destroying? then j.phase.doomed else j.r.pendingDeletes
  }

  /** The session is live, and both agree on whether it has asked. */
  predicate Coupled(j: Joint) {
    && j.self in j.r.sessionToConnection && j.self in j.r.sessions
    && j.r.sessions[j.self].requested == j.f.w.s.d.requested
  }

  ghost predicate JointInv(j: Joint, maxWindow: nat) {
    && FullInv(j.f, maxWindow) && Awake(j.f) && Coupled(j)
    && I.Agrees(j.r, Doomed(j), j.r.pendingActions + Ahead(j))
    && (j.phase.Destroying? ==> j.r.pendingDeletes == [])
    && (!j.phase.Between? ==> I.Clean(j.r.pendingActions, Doomed(j)))
  }

  datatype JointStep =
    | Own(own: FullStep)
    | OtherAsks(session: Ptr)
    | Elsewhere(other: T.Step)
    | Reconnected(driver: Ptr, connection: Ptr, window: nat)
    | ServiceBegins
    | ServedSelf(reactions: seq<seq<Reaction>>, codes: seq<SendCode>, woken: seq<Ptr>)
    | ServedOther(woken: seq<Ptr>)
    | ServiceEnds
    | OtherDestroyed(woken: seq<Ptr>)

  /** A step of the session that is neither a service nor a new connection. */
  predicate IsOwn(step: FullStep) {
    !step.Serviced? && !(step.Delivered? && step.step.Reconnects?)
  }

  /** Sessions are made, disconnected and reconnected between services; whenever the session itself asks, that is a
      step of its own. Nobody who is about to be destroyed is woken while sessions are being destroyed: that would
      do the harm of `RouterTheorems.ServiceHarms`. */
  ghost predicate JointEnabled(j: Joint, step: JointStep, maxWindow: nat) {
    match step
    case Own(own) => IsOwn(own) && Known(j.f.w) && FullEnabled(j.f, own, maxWindow)
    case OtherAsks(session) =>
      session != j.self && (j.phase.Destroying? ==> !I.HarmsNow(j.r, j.phase.doomed, [session]))
    case Elsewhere(other) =>
      && j.phase.Between? && (other.Authorized? || other.Reauthorized? || other.Disconnected?) && T.Enabled(j.r, other)
      && Coupled(j.(r := T.Next(j.r, other)))
    case Reconnected(driver, connection, window) =>
      && j.phase.Between? && Coupled(j) && Known(j.f.w) && window <= maxWindow
      && driver != 0 && connection != 0 && connection !in j.r.connectionToSession
    case ServiceBegins => j.phase.Between?
    case ServedSelf(_, _, woken) =>
      Known(j.f.w) && Ahead(j) != [] && Ahead(j)[0] == j.self && j.self !in woken
    case ServedOther(woken) => Ahead(j) != [] && Ahead(j)[0] != j.self && j.self !in woken
    case ServiceEnds => j.phase == Serving([])
    case OtherDestroyed(woken) =>
      && j.phase.Destroying? && j.phase.doomed != [] && j.self !in woken
      && !I.HarmsNow(j.r, j.phase.doomed, woken)
  }

  /** The router hears of a request that was not there before. */
  function Told(r: R.State, self: Ptr, before: bool, after: bool): R.State {
    if !before && after then R.Wake(r, self) else r
  }

  ghost function JointNext(j: Joint, step: JointStep, maxWindow: nat): Joint
    requires JointEnabled(j, step, maxWindow)
  {
    match step
    case Own(own) =>
      var f := FullNext(j.f, own, maxWindow);
      j.(f := f, r := Told(j.r, j.self, j.f.w.s.d.requested, f.w.s.d.requested))
    case OtherAsks(session) => j.(r := R.Wake(j.r, session))
    case Elsewhere(other) => j.(r := T.Next(j.r, other))
    case Reconnected(driver, connection, window) =>
      j.(f := FullNext(j.f, Delivered(Reconnects(window)), maxWindow),
         r := R.AddSession(
           R.SetConnection(j.r, j.self, connection), driver, connection, j.self, j.r.sessions[j.self].entity))
    case ServiceBegins => j.(phase := Serving(j.r.pendingActions), r := j.r.(pendingActions := []))
    case ServedSelf(reactions, codes, woken) =>
      var f := FullNext(j.f, Serviced(reactions, codes), maxWindow);
      var asks := woken + (if f.w.s.d.requested then [j.self] else []);
      Joint(R.ServiceOne(j.r, j.self, asks), Serving(Ahead(j)[1..]), j.self, f)
    case ServedOther(woken) => j.(phase := Serving(Ahead(j)[1..]), r := R.ServiceOne(j.r, Ahead(j)[0], woken))
    case ServiceEnds =>
      if j.r.pendingDeletes == [] then j.(phase := Between)
      else j.(phase := Destroying(j.r.pendingDeletes), r := j.r.(pendingDeletes := []))
    case OtherDestroyed(woken) =>
      var rest := j.phase.doomed[1..];
      j.(phase := if rest == [] then Between else Destroying(rest), r := R.DestroyOne(j.r, j.phase.doomed[0], woken))
  }

  ghost predicate JointLegal(j: Joint, steps: seq<JointStep>, maxWindow: nat)
    decreases steps
  {
    steps == [] ||
    (JointEnabled(j, steps[0], maxWindow) && JointLegal(JointNext(j, steps[0], maxWindow), steps[1..], maxWindow))
  }

  ghost function JointRun(j: Joint, steps: seq<JointStep>, maxWindow: nat): Joint
    requires JointLegal(j, steps, maxWindow)
    decreases steps
  {
    if steps == [] then j else JointRun(JointNext(j, steps[0], maxWindow), steps[1..], maxWindow)
  }

  // ----- The session's half -----

  /** A request is taken back by a service only. */
  lemma OwnStepKeepsRequest(f: Full, step: FullStep, maxWindow: nat)
    requires FullInv(f, maxWindow) && FullEnabled(f, step, maxWindow) && Known(f.w) && IsOwn(step)
    ensures f.w.s.d.requested ==> FullNext(f, step, maxWindow).w.s.d.requested
  {
    hide FullInv, Hosted, Next, Known, ProcessPending, ClientData, AddChannel, RequestClose;
    if step.Delivered? {
      DeliveredKeepsRequest(SystemOf(f), step.step, maxWindow);
    } else {
      ChannelStepsAreHosted(f, step, maxWindow);
    }
  }

  lemma DeliveredKeepsRequest(s: System, step: Step, maxWindow: nat)
    requires Enabled(s, step, maxWindow) && !step.HostStep? && !step.ServiceStep?
    ensures s.d.requested ==> Next(s, step, maxWindow).d.requested
  {
  }

  lemma SessionHalfKeeps(f: Full, step: FullStep, maxWindow: nat)
    requires FullInv(f, maxWindow) && Awake(f) && FullEnabled(f, step, maxWindow) && Known(f.w)
    ensures var next := FullNext(f, step, maxWindow); FullInv(next, maxWindow) && Awake(next)
  {
    hide FullInv, Awake, FullNext, FullEnabled, Known;
    FullStepKeeps(f, step, maxWindow);
    StepStaysAwake(f, step, maxWindow);
  }

  // ----- The router's half -----

  /** A request by anybody who is not about to be destroyed. */
  lemma WakeKeepsAgreement(r: R.State, session: Ptr, doomed: seq<Ptr>, ahead: seq<Ptr>)
    requires I.Agrees(r, doomed, r.pendingActions + ahead) && (r.pendingDeletes == doomed || r.pendingDeletes == [])
    ensures var next := R.Wake(r, session);
      && I.Agrees(next, doomed, next.pendingActions + ahead) && next.pendingDeletes == r.pendingDeletes
      && (I.Clean(r.pendingActions, doomed) && (r.pendingDeletes == doomed || !I.HarmsNow(r, doomed, [session]))
          ==> I.Clean(next.pendingActions, doomed))
  {
    hide R.Wake, I.QueueAgrees, I.TablesAgree, I.Clean, I.HarmsNow;
    I.DoomedExist(r, doomed);
    I.WakeKeeps(r, session, doomed, ahead);
    if I.Clean(r.pendingActions, doomed) && (r.pendingDeletes == doomed || !I.HarmsNow(r, doomed, [session])) {
      WakeSkipsDoomed(r, session, doomed);
    }
  }

  lemma WakeSkipsDoomed(r: R.State, session: Ptr, doomed: seq<Ptr>)
    requires I.Clean(r.pendingActions, doomed) && (r.pendingDeletes == doomed || !I.HarmsNow(r, doomed, [session]))
    ensures I.Clean(R.Wake(r, session).pendingActions, doomed)
  {
    assert [session][0] == session;
  }

  lemma ServeKeepsAgreement(r: R.State, local: seq<Ptr>, woken: seq<Ptr>)
    requires local != [] && I.Agrees(r, r.pendingDeletes, r.pendingActions + local)
    ensures var next := R.ServiceOne(r, local[0], woken);
      && I.Agrees(next, next.pendingDeletes, next.pendingActions + local[1..]) && local[0] in r.sessions
      && (I.Clean(r.pendingActions, r.pendingDeletes) ==> I.Clean(next.pendingActions, next.pendingDeletes))
  {
    hide R.ServiceOne, I.TablesAgree, I.Clean;
    assert [local[0]] + local[1..] == local;
    assert local[0] in r.pendingActions + local;
    I.ServiceOneKeeps(r, local[0], woken, local[1..]);
    ServeSkipsDoomed(r, local[0], woken);
  }

  lemma ServeSkipsDoomed(r: R.State, session: Ptr, woken: seq<Ptr>)
    ensures var next := R.ServiceOne(r, session, woken);
      I.Clean(r.pendingActions, r.pendingDeletes) ==> I.Clean(next.pendingActions, next.pendingDeletes)
  {
    hide I.Clean, R.WakeAll;
    if I.Clean(r.pendingActions, r.pendingDeletes) && session in r.sessions {
      T.WakeAllSkipsDoomed(r.(sessions := r.sessions[session := r.sessions[session].(requested := false)]), woken);
    }
  }

  /** The list of deletions is taken over. */
  lemma EndKeepsAgreement(r: R.State)
    requires I.Agrees(r, r.pendingDeletes, r.pendingActions + []) && I.Clean(r.pendingActions, r.pendingDeletes)
    ensures I.Destroying(r.(pendingDeletes := []), r.pendingDeletes)
  {
    assert r.pendingActions + [] == r.pendingActions;
    T.BeginsDestroying(r);
  }

  lemma DestroyKeepsAgreement(r: R.State, doomed: seq<Ptr>, woken: seq<Ptr>)
    requires r.pendingDeletes == [] && I.Agrees(r, doomed, r.pendingActions + []) && I.Clean(r.pendingActions, doomed)
    requires doomed != [] && !I.HarmsNow(r, doomed, woken)
    ensures var next := R.DestroyOne(r, doomed[0], woken);
      && next.pendingDeletes == [] && I.Agrees(next, doomed[1..], next.pendingActions + [])
      && I.Clean(next.pendingActions, doomed[1..])
  {
    hide R.DestroyOne, I.Agrees, I.Clean, I.HarmsNow;
    assert r.pendingActions + [] == r.pendingActions;
    I.DestroyOneKeeps(r, doomed, woken);
    var next := R.DestroyOne(r, doomed[0], woken);
    assert next.pendingActions + [] == next.pendingActions;
  }

  /** A destruction leaves a session alone that it neither destroys nor wakes. */
  lemma DestroyOneSets(r: R.State, session: Ptr, woken: seq<Ptr>, s: Ptr)
    requires s in r.sessions && s != session && s !in woken
    ensures var next := R.DestroyOne(r, session, woken);
      && s in next.sessions && next.sessionToConnection == r.sessionToConnection
      && next.sessions[s].requested == r.sessions[s].requested
  {
    hide R.WakeAll;
    I.WakeAllSets(r, woken, s);
  }

  lemma BeginKeepsAgreement(r: R.State)
    requires I.Agrees(r, r.pendingDeletes, r.pendingActions + [])
    ensures var begun := r.(pendingActions := []);
      I.Agrees(begun, begun.pendingDeletes, begun.pendingActions + r.pendingActions)
  {
    assert r.pendingActions + [] == r.pendingActions;
    T.BeginsServing(r);
  }

  /** A new connection is entered for the session, and the session asks. */
  lemma ReconnectKeepsAgreement(r: R.State, driver: Ptr, connection: Ptr, session: Ptr)
    requires I.Inv(r) && session in r.sessionToConnection && session in r.sessions
    requires connection != 0 && connection !in r.connectionToSession
    ensures var next := R.AddSession(R.SetConnection(r, session, connection), driver, connection, session, r.sessions[session].entity);
      && I.Inv(next) && session in next.sessions && next.sessions[session].requested && session in next.sessionToConnection
  {
    hide I.TablesAgree, I.QueueAgrees, R.AddSession, R.SetConnection, R.Wake;
    var id := r.sessions[session].entity;
    LiveIsNamed(r, session);
    I.ReauthorizeShape(r, driver, connection, id, session);
    I.ReconnectKeeps(r, driver, connection, id, session);
    var moved := I.Reconnect(r, driver, connection, id, session);
    I.WakeKeepsInv(moved, session);
    I.WakeSets(moved, session, session);
  }

  lemma LiveIsNamed(r: R.State, session: Ptr)
    requires I.TablesAgree(r, r.pendingDeletes) && session in r.sessionToConnection && session in r.sessions
    ensures session != 0 && r.sessions[session].entity != R.DEFAULT_ID
    ensures I.MapsAgree(r.connectionToSession, r.sessionToConnection, r.sessions, r.names)
  {
    assert I.IsIndexed(r.siteToSessions, r.sessionToConnection, r.sessions, session);
    var id := r.sessions[session].entity;
    assert I.EntryAgrees(r.siteToSessions, r.sessionToConnection, r.sessions, id.site, id);
  }

  lemma ElsewhereKeepsAgreement(r: R.State, step: T.Step)
    requires I.Inv(r) && T.Enabled(r, step) && !step.Serviced?
    ensures I.Inv(T.Next(r, step))
  {
    hide I.Inv, T.Next, T.Enabled;
    T.StepKeeps(r, step);
  }

  // ----- Joint runs -----

  lemma SelfIsNotDoomed(j: Joint, maxWindow: nat)
    requires JointInv(j, maxWindow)
    ensures j.self !in Doomed(j) && !I.HarmsNow(j.r, Doomed(j), [j.self])
  {
    hide FullInv, Awake, I.TablesAgree;
    I.DoomedExist(j.r, Doomed(j));
  }

  lemma OwnKeeps(j: Joint, own: FullStep, maxWindow: nat)
    requires JointInv(j, maxWindow) && JointEnabled(j, Own(own), maxWindow)
    ensures JointInv(JointNext(j, Own(own), maxWindow), maxWindow)
  {
    hide FullInv, Awake, FullNext, FullEnabled, Known, I.Agrees, I.Clean, I.HarmsNow, R.Wake;
    var f := FullNext(j.f, own, maxWindow);
    SessionHalfKeeps(j.f, own, maxWindow);
    OwnStepKeepsRequest(j.f, own, maxWindow);
    if !j.f.w.s.d.requested && f.w.s.d.requested {
      SelfIsNotDoomed(j, maxWindow);
      WakeKeepsAgreement(j.r, j.self, Doomed(j), Ahead(j));
      I.WakeSets(j.r, j.self, j.self);
    }
  }

  lemma ServedSelfKeeps(j: Joint, reactions: seq<seq<Reaction>>, codes: seq<SendCode>, woken: seq<Ptr>, maxWindow: nat)
    requires JointInv(j, maxWindow) && JointEnabled(j, ServedSelf(reactions, codes, woken), maxWindow)
    ensures JointInv(JointNext(j, ServedSelf(reactions, codes, woken), maxWindow), maxWindow)
  {
    hide FullInv, Awake, FullNext, Known, I.Agrees, I.Clean, R.ServiceOne;
    var serve := Serviced(reactions, codes);
    var f := FullNext(j.f, serve, maxWindow);
    var asks := woken + (if f.w.s.d.requested then [j.self] else []);
    SessionHalfKeeps(j.f, serve, maxWindow);
    ServeKeepsAgreement(j.r, Ahead(j), asks);
    I.ServiceOneSets(j.r, j.self, asks, j.self);
  }

  lemma ReconnectedKeeps(j: Joint, driver: Ptr, connection: Ptr, window: nat, maxWindow: nat)
    requires JointInv(j, maxWindow) && JointEnabled(j, Reconnected(driver, connection, window), maxWindow)
    ensures JointInv(JointNext(j, Reconnected(driver, connection, window), maxWindow), maxWindow)
  {
    hide FullInv, Awake, Known, I.Agrees, R.AddSession, R.SetConnection;
    var step := Delivered(Reconnects(window));
    assert j.r.pendingActions + [] == j.r.pendingActions;
    ReconnectKeepsAgreement(j.r, driver, connection, j.self);
    SessionHalfKeeps(j.f, step, maxWindow);
    var r := JointNext(j, Reconnected(driver, connection, window), maxWindow).r;
    assert r.pendingActions + [] == r.pendingActions;
  }

  lemma OtherAsksKeeps(j: Joint, session: Ptr, maxWindow: nat)
    requires JointInv(j, maxWindow) && JointEnabled(j, OtherAsks(session), maxWindow)
    ensures JointInv(JointNext(j, OtherAsks(session), maxWindow), maxWindow)
  {
    hide FullInv, Awake, I.Agrees, I.Clean, I.HarmsNow, R.Wake;
    WakeKeepsAgreement(j.r, session, Doomed(j), Ahead(j));
    I.WakeSets(j.r, session, j.self);
  }

  lemma ElsewhereKeeps(j: Joint, other: T.Step, maxWindow: nat)
    requires JointInv(j, maxWindow) && JointEnabled(j, Elsewhere(other), maxWindow)
    ensures JointInv(JointNext(j, Elsewhere(other), maxWindow), maxWindow)
  {
    hide FullInv, Awake, I.Agrees, T.Next;
    var r := T.Next(j.r, other);
    assert j.r.pendingActions + [] == j.r.pendingActions && r.pendingActions + [] == r.pendingActions;
    ElsewhereKeepsAgreement(j.r, other);
  }

  lemma ServedOtherKeeps(j: Joint, woken: seq<Ptr>, maxWindow: nat)
    requires JointInv(j, maxWindow) && JointEnabled(j, ServedOther(woken), maxWindow)
    ensures JointInv(JointNext(j, ServedOther(woken), maxWindow), maxWindow)
  {
    hide FullInv, Awake, I.Agrees, I.Clean, R.ServiceOne;
    ServeKeepsAgreement(j.r, Ahead(j), woken);
    I.ServiceOneSets(j.r, Ahead(j)[0], woken, j.self);
  }

  lemma DestroyedKeeps(j: Joint, woken: seq<Ptr>, maxWindow: nat)
    requires JointInv(j, maxWindow) && JointEnabled(j, OtherDestroyed(woken), maxWindow)
    ensures JointInv(JointNext(j, OtherDestroyed(woken), maxWindow), maxWindow)
  {
    hide FullInv, Awake, I.Agrees, I.Clean, I.HarmsNow, R.DestroyOne;
    SelfIsNotDoomed(j, maxWindow);
    DestroyKeepsAgreement(j.r, j.phase.doomed, woken);
    DestroyOneSets(j.r, j.phase.doomed[0], woken, j.self);
  }

  lemma JointStepKeeps(j: Joint, step: JointStep, maxWindow: nat)
    requires JointInv(j, maxWindow) && JointEnabled(j, step, maxWindow)
    ensures JointInv(JointNext(j, step, maxWindow), maxWindow)
  {
    hide FullInv, Awake, FullNext, FullEnabled, Known, I.Agrees, I.HarmsNow, R.ServiceOne, R.Wake, R.AddSession,
      R.SetConnection, R.DestroyOne, T.Next;
    match step
    case Own(own) => OwnKeeps(j, own, maxWindow);
    case OtherAsks(session) => OtherAsksKeeps(j, session, maxWindow);
    case Elsewhere(other) => ElsewhereKeeps(j, other, maxWindow);
    case Reconnected(driver, connection, window) => ReconnectedKeeps(j, driver, connection, window, maxWindow);
    case ServiceBegins => BeginKeepsAgreement(j.r);
    case ServedSelf(reactions, codes, woken) => ServedSelfKeeps(j, reactions, codes, woken, maxWindow);
    case ServedOther(woken) => ServedOtherKeeps(j, woken, maxWindow);
    case ServiceEnds =>
      EndKeepsAgreement(j.r);
      assert j.r.pendingActions + [] == j.r.pendingActions;
    case OtherDestroyed(woken) => DestroyedKeeps(j, woken, maxWindow);
  }

  lemma {:induction false} JointRunKeeps(j: Joint, steps: seq<JointStep>, maxWindow: nat)
    requires JointInv(j, maxWindow) && JointLegal(j, steps, maxWindow)
    ensures JointInv(JointRun(j, steps, maxWindow), maxWindow)
    decreases steps
  {
    hide JointInv, JointNext, JointEnabled;
    if steps != [] {
      JointStepKeeps(j, steps[0], maxWindow);
      JointRunKeeps(JointNext(j, steps[0], maxWindow), steps[1..], maxWindow);
    }
  }

  /** A new session, once the router has entered it. */
  lemma JointStart(r: R.State, self: Ptr, modulus: nat, window: nat, maxChannels: nat, maxWindow: nat)
    requires I.Inv(r) && self in r.sessionToConnection && self in r.sessions && !r.sessions[self].requested
    requires self > 0 && 0 < maxChannels && window <= maxWindow && maxWindow + 1 < modulus
    ensures JointInv(Joint(r, Between, self, FullStart(self, modulus, window, maxChannels)), maxWindow)
  {
    hide FullInv, Awake, I.Agrees;
    assert r.pendingActions + [] == r.pendingActions;
    StartIsFull(self, modulus, window, maxChannels, maxWindow);
    StartIsAwake(self, modulus, window, maxChannels);
  }

  /** In every state of every joint run, before, during and after services and the destruction of other sessions:
      a session that has asked for service, and so above all one that has something to send, a client to send it
      to and room in the window, is in the router's queue or still ahead in the service under way; it is there
      once, and so is nobody who is gone. */
  lemma SendableIsQueued(j: Joint, steps: seq<JointStep>, maxWindow: nat)
    requires JointInv(j, maxWindow) && JointLegal(j, steps, maxWindow)
    ensures var last := JointRun(j, steps, maxWindow);
      var d, queue := last.f.w.s.d, last.r.pendingActions + Ahead(last);
      && NoRepeats(queue) && (forall s :: s in queue ==> s in last.r.sessions)
      && (d.requested <==> last.self in queue)
      && (KeepsSending(d) && !d.waitReconnect && !d.needHandleReconnect && !d.needDisconnect ==> last.self in queue)
  {
    hide FullInv, JointLegal, JointRun, I.TablesAgree;
    JointRunKeeps(j, steps, maxWindow);
  }
}
