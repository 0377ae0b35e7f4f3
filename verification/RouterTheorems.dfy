/** What holds of the router in every run: its tables agree, its queries answer what a scan of the live
    sessions would, and deferred deletion is safe exactly while no session that is being destroyed wakes
    another one that is about to be. */
module RouterTheorems {
  import opened Basics
  import opened Router
  import opened RouterInvariant

  // ----- Deferred deletion -----

  /** Some session is woken by the destruction of one that comes before it in the list, or is itself woken,
      and had not asked for service when the destructions began. */
  predicate Harmful(r: State, doomed: seq<Ptr>, wakes: seq<seq<Ptr>>) {
    exists i :: 0 <= i < |doomed| && i < |wakes| && HarmsNow(r, doomed[i..], wakes[i])
  }

  /** Nobody who is gone is queued. */
  predicate NoneDangling(r: State) {
    forall s :: s in r.pendingActions ==> s in r.sessions
  }

  lemma HarmfulStep(r: State, next: State, doomed: seq<Ptr>, wakes: seq<seq<Ptr>>)
    requires doomed != [] && !HarmsNow(r, doomed, WakesAt(wakes))
    requires forall s :: s in doomed[1..] ==> (IsRequested(next, s) <==> IsRequested(r, s))
    ensures Harmful(r, doomed, wakes) <==> Harmful(next, doomed[1..], Rest(wakes))
  {
  }

  lemma {:induction false} DestroyAllRemoves(r: State, doomed: seq<Ptr>, wakes: seq<seq<Ptr>>)
    ensures var next := DestroyAll(r, doomed, wakes);
      && r.pendingActions <= next.pendingActions
      && (forall s :: s in next.sessions ==> s in r.sessions && s !in doomed)
    decreases doomed
  {
    if doomed != [] {
      WakeAllGrows(r, WakesAt(wakes));
      DestroyAllRemoves(DestroyOne(r, doomed[0], WakesAt(wakes)), doomed[1..], Rest(wakes));
    }
  }

  /** A session that is queued while it is about to be destroyed stays queued when it is gone. */
  lemma HarmDangles(r: State, doomed: seq<Ptr>, wakes: seq<seq<Ptr>>)
    requires Destroying(r, doomed) && doomed != [] && HarmsNow(r, doomed, WakesAt(wakes))
    ensures !NoneDangling(DestroyAll(r, doomed, wakes))
  {
    hide MapsAgree, IndexAgrees, QueueAgrees, CountsAgree, WakeAll, HarmsNow;
    DoomedExist(r, doomed);
    WakeAllQueues(r, WakesAt(wakes), doomed);
    var s :| s in WakeAll(r, WakesAt(wakes)).pendingActions && s in doomed;
    DestroyAllRemoves(r, doomed, wakes);
    DestroyAllRemoves(DestroyOne(r, doomed[0], WakesAt(wakes)), doomed[1..], Rest(wakes));
  }

  lemma {:induction false} DestroyAllKeeps(r: State, doomed: seq<Ptr>, wakes: seq<seq<Ptr>>)
    requires Destroying(r, doomed)
    ensures var next := DestroyAll(r, doomed, wakes);
      && (!Harmful(r, doomed, wakes) ==> Inv(next))
      && (Harmful(r, doomed, wakes) ==> !NoneDangling(next))
    decreases doomed
  {
    hide Agrees, Clean, DestroyOne, HarmsNow, NoneDangling;
    if doomed != [] {
      if HarmsNow(r, doomed, WakesAt(wakes)) {
        HarmDangles(r, doomed, wakes);
        if wakes == [] { NoWakesNoHarm(r, doomed); }
        assert doomed[0..] == doomed;
        assert HarmsNow(r, doomed[0..], wakes[0]);
      } else {
        DestroyOneKeeps(r, doomed, WakesAt(wakes));
        var next := DestroyOne(r, doomed[0], WakesAt(wakes));
        HarmfulStep(r, next, doomed, wakes);
        DestroyAllKeeps(next, doomed[1..], Rest(wakes));
      }
    }
  }

  lemma NoWakesNoHarm(r: State, doomed: seq<Ptr>)
    ensures !HarmsNow(r, doomed, [])
  {
  }

  lemma InvIsClean(r: State)
    requires Inv(r)
    ensures NoneDangling(r)
  {
  }

  /** What a service leaves when it comes to the destructions. */
  ghost function Served(r: State, serviceWakes: seq<seq<Ptr>>): State {
    ServiceAll(r.(pendingActions := []), r.pendingActions, serviceWakes)
  }

  /** The guard: some session is destroyed, and wakes one that is about to be. */
  ghost predicate ServiceHarms(r: State, serviceWakes: seq<seq<Ptr>>, deleteWakes: seq<seq<Ptr>>) {
    Harmful(Served(r, serviceWakes), r.pendingDeletes, deleteWakes)
  }

  lemma BeginsDestroying(r: State)
    requires Inv(r) && Clean(r.pendingActions, r.pendingDeletes)
    ensures Destroying(r.(pendingDeletes := []), r.pendingDeletes)
  {
  }

  /** While a list of deletions is there, nobody on it is queued anew. */
  lemma {:induction false} WakeAllSkipsDoomed(r: State, woken: seq<Ptr>)
    requires Clean(r.pendingActions, r.pendingDeletes)
    ensures var next := WakeAll(r, woken);
      Clean(next.pendingActions, next.pendingDeletes) && next.pendingDeletes == r.pendingDeletes
    decreases woken
  {
    if woken != [] { WakeAllSkipsDoomed(Wake(r, woken[0]), woken[1..]); }
  }

  lemma {:induction false} ServiceAllSkipsDoomed(r: State, queue: seq<Ptr>, wakes: seq<seq<Ptr>>)
    requires Clean(r.pendingActions, r.pendingDeletes)
    ensures var next := ServiceAll(r, queue, wakes); Clean(next.pendingActions, next.pendingDeletes)
    decreases queue
  {
    hide Clean, WakeAll;
    if queue != [] {
      if queue[0] in r.sessions {
        WakeAllSkipsDoomed(
          r.(sessions := r.sessions[queue[0] := r.sessions[queue[0]].(requested := false)]), WakesAt(wakes));
      }
      ServiceAllSkipsDoomed(ServiceOne(r, queue[0], WakesAt(wakes)), queue[1..], Rest(wakes));
    }
  }

  /** Deferred deletion is safe exactly then: after a service nobody who is gone is queued if and only if no
      destruction woke a session about to be destroyed; and then everything agrees again. */
  lemma ServiceKeeps(r: State, serviceWakes: seq<seq<Ptr>>, deleteWakes: seq<seq<Ptr>>)
    requires Inv(r)
    ensures var next := ServiceSessions(r, serviceWakes, deleteWakes);
      && (NoneDangling(next) <==> !ServiceHarms(r, serviceWakes, deleteWakes))
      && (!ServiceHarms(r, serviceWakes, deleteWakes) ==> Inv(next) && next.pendingDeletes == [])
  {
    hide Agrees, NoneDangling, Harmful, ServiceAll;
    var begun := r.(pendingActions := []);
    BeginsServing(r);
    ServiceAllKeeps(begun, r.pendingActions, serviceWakes);
    var served := Served(r, serviceWakes);
    var next := ServiceSessions(r, serviceWakes, deleteWakes);
    if r.pendingDeletes == [] {
      InvIsClean(served);
      assert !Harmful(served, [], deleteWakes) by { NobodyDoomed(served, deleteWakes); }
    } else {
      ServiceAllSkipsDoomed(begun, r.pendingActions, serviceWakes);
      BeginsDestroying(served);
      DestroyAllKeeps(served.(pendingDeletes := []), served.pendingDeletes, deleteWakes);
      HarmIgnoresList(served, served.pendingDeletes, deleteWakes);
      DestroyAllEmpties(served.(pendingDeletes := []), served.pendingDeletes, deleteWakes);
      if !ServiceHarms(r, serviceWakes, deleteWakes) { InvIsClean(next); }
    }
  }

  lemma BeginsServing(r: State)
    requires Inv(r)
    ensures var begun := r.(pendingActions := []);
      Agrees(begun, begun.pendingDeletes, begun.pendingActions + r.pendingActions)
    ensures Clean([], r.pendingDeletes)
  {
  }

  lemma NobodyDoomed(r: State, wakes: seq<seq<Ptr>>)
    ensures !Harmful(r, [], wakes)
  {
  }

  lemma HarmIgnoresList(r: State, doomed: seq<Ptr>, wakes: seq<seq<Ptr>>)
    ensures Harmful(r.(pendingDeletes := []), doomed, wakes) <==> Harmful(r, doomed, wakes)
  {
  }

  lemma {:induction false} DestroyAllEmpties(r: State, doomed: seq<Ptr>, wakes: seq<seq<Ptr>>)
    requires r.pendingDeletes == []
    ensures DestroyAll(r, doomed, wakes).pendingDeletes == []
    decreases doomed
  {
    if doomed != [] {
      WakeAllGrows(r, WakesAt(wakes));
      DestroyAllEmpties(DestroyOne(r, doomed[0], WakesAt(wakes)), doomed[1..], Rest(wakes));
    }
  }

  /** The tables and the counts survive every service, whomever it wakes: what a wake-up at the wrong time
      breaks is the queue alone. */
  lemma ServiceKeepsTables(r: State, serviceWakes: seq<seq<Ptr>>, deleteWakes: seq<seq<Ptr>>)
    requires TablesAgree(r, r.pendingDeletes)
    ensures var next := ServiceSessions(r, serviceWakes, deleteWakes);
      TablesAgree(next, next.pendingDeletes) && next.pendingDeletes == []
  {
    hide TablesAgree, ServiceAll, DestroyAll;
    var begun := r.(pendingActions := []);
    TablesIgnoreQueues(r, begun, r.pendingDeletes);
    ServiceAllKeepsTables(begun, r.pendingActions, serviceWakes, r.pendingDeletes);
    if r.pendingDeletes != [] {
      var served := Served(r, serviceWakes);
      var ending := served.(pendingDeletes := []);
      TablesIgnoreQueues(served, ending, served.pendingDeletes);
      DestroyAllKeepsTables(ending, served.pendingDeletes, deleteWakes);
      DestroyAllEmpties(ending, served.pendingDeletes, deleteWakes);
    }
  }

  lemma TablesIgnoreQueues(r: State, next: State, doomed: seq<Ptr>)
    requires TablesAgree(r, doomed)
    requires next == r.(pendingActions := next.pendingActions, pendingDeletes := next.pendingDeletes)
    ensures TablesAgree(next, doomed)
  {
  }

  // ----- Runs -----

  datatype Step =
    | Authorized(driver: Ptr, connection: Ptr, id: EntityId, session: Ptr)
    | Reauthorized(driver: Ptr, connection: Ptr, id: EntityId, makeNew: bool, session: Ptr)
    | Disconnected(id: EntityId)
    | Woken(session: Ptr)
    | Serviced(serviceWakes: seq<seq<Ptr>>, deleteWakes: seq<seq<Ptr>>)

  /** A connection authorizes while it is not entered yet, and a new session is a new object. */
  predicate Enabled(r: State, step: Step) {
    match step
    case Authorized(driver, connection, _, session) => Fresh(r, driver, connection, session)
    case Reauthorized(driver, connection, _, _, session) => Fresh(r, driver, connection, session)
    case _ => true
  }

  function Next(r: State, step: Step): State {
    match step
    case Authorized(driver, connection, id, session) => Authorize(r, driver, connection, id, session)
    case Reauthorized(driver, connection, id, makeNew, session) =>
      Reauthorize(r, driver, connection, id, makeNew, session)
    case Disconnected(id) => DisconnectSession(r, id)
    case Woken(session) => Wake(r, session)
    case Serviced(serviceWakes, deleteWakes) => ServiceSessions(r, serviceWakes, deleteWakes)
  }

  predicate Legal(r: State, steps: seq<Step>)
    decreases steps
  {
    steps == [] || (Enabled(r, steps[0]) && Legal(Next(r, steps[0]), steps[1..]))
  }

  function Run(r: State, steps: seq<Step>): State
    decreases steps
  {
    if steps == [] then r else Run(Next(r, steps[0]), steps[1..])
  }

  ghost predicate StepHarms(r: State, step: Step) {
    step.Serviced? && ServiceHarms(r, step.serviceWakes, step.deleteWakes)
  }

  ghost predicate NoHarm(r: State, steps: seq<Step>)
    decreases steps
  {
    steps == [] || (!StepHarms(r, steps[0]) && NoHarm(Next(r, steps[0]), steps[1..]))
  }

  /** Nobody who is gone is queued, in any state of the run. */
  ghost predicate AlwaysSafe(r: State, steps: seq<Step>)
    decreases steps
  {
    NoneDangling(r) && (steps == [] || AlwaysSafe(Next(r, steps[0]), steps[1..]))
  }

  lemma StepKeeps(r: State, step: Step)
    requires Inv(r) && Enabled(r, step)
    ensures !StepHarms(r, step) ==> Inv(Next(r, step))
    ensures NoneDangling(Next(r, step)) <==> !StepHarms(r, step)
  {
    hide Inv, NoneDangling, ServiceHarms, Authorize, Reauthorize, DisconnectSession, Wake, ServiceSessions;
    match step {
      case Authorized(driver, connection, id, session) => AuthorizeKeeps(r, driver, connection, id, session);
      case Reauthorized(driver, connection, id, makeNew, session) =>
        ReauthorizeKeeps(r, driver, connection, id, makeNew, session);
      case Disconnected(id) => DisconnectKeeps(r, id);
      case Woken(session) => WakeKeepsInv(r, session);
      case Serviced(serviceWakes, deleteWakes) => ServiceKeeps(r, serviceWakes, deleteWakes);
    }
    if !step.Serviced? { InvIsClean(Next(r, step)); }
  }

  lemma {:induction false} RunKeeps(r: State, steps: seq<Step>)
    requires Inv(r) && Legal(r, steps)
    ensures NoHarm(r, steps) ==> Inv(Run(r, steps))
    ensures AlwaysSafe(r, steps) <==> NoHarm(r, steps)
    decreases steps
  {
    hide Inv, Next, Enabled, StepHarms, NoneDangling;
    InvIsClean(r);
    if steps != [] {
      StepKeeps(r, steps[0]);
      if !StepHarms(r, steps[0]) { RunKeeps(Next(r, steps[0]), steps[1..]); }
    }
  }

  lemma StepKeepsTables(r: State, step: Step)
    requires TablesAgree(r, r.pendingDeletes) && Enabled(r, step)
    ensures var next := Next(r, step); TablesAgree(next, next.pendingDeletes)
  {
    hide TablesAgree, Authorize, Reauthorize, DisconnectSession, Wake, ServiceSessions;
    match step {
      case Authorized(driver, connection, id, session) => AuthorizeKeepsTables(r, driver, connection, id, session);
      case Reauthorized(driver, connection, id, makeNew, session) =>
        ReauthorizeKeepsTables(r, driver, connection, id, makeNew, session);
      case Disconnected(id) => DisconnectKeepsTables(r, id);
      case Woken(session) =>
        WakeChangesRequests(r, session);
        RequestsKeepTables(r, Wake(r, session), r.pendingDeletes);
      case Serviced(serviceWakes, deleteWakes) => ServiceKeepsTables(r, serviceWakes, deleteWakes);
    }
  }

  lemma {:induction false} RunKeepsTables(r: State, steps: seq<Step>)
    requires TablesAgree(r, r.pendingDeletes) && Legal(r, steps)
    ensures var last := Run(r, steps); TablesAgree(last, last.pendingDeletes)
    decreases steps
  {
    hide TablesAgree, Next, Enabled;
    if steps != [] {
      StepKeepsTables(r, steps[0]);
      RunKeepsTables(Next(r, steps[0]), steps[1..]);
    }
  }

  lemma StartIsGood()
    ensures Inv(Start())
  {
  }

  /** Over whole runs, whatever sessions wake each other: the maps, the split into live and doomed sessions, the
      site index and the counts agree in every state; each entry of a connection was given back at most once
      and each session was destroyed at most once, and what is not entered or not there any more was given
      back or destroyed; a connection left over belongs to a session about to be destroyed. A call on a
      session that is gone counts as a misuse here and does nothing else. */
  lemma TablesStaySound(steps: seq<Step>)
    requires Legal(Start(), steps)
    ensures var r := Run(Start(), steps);
      && TablesAgree(r, r.pendingDeletes)
      && (forall c :: r.released[c] <= r.registered[c] <= r.released[c] + 1)
      && (forall c :: r.released[c] == r.registered[c] <==> c !in r.connectionToSession)
      && (forall s :: r.destroyed[s] <= r.created[s] <= r.destroyed[s] + 1)
      && (forall s :: r.destroyed[s] == r.created[s] <==> s !in r.sessions)
      && (forall c :: c in r.connectionToSession ==>
            || (r.connectionToSession[c].1 in r.sessionToConnection
                && r.sessionToConnection[r.connectionToSession[c].1] == c)
            || r.connectionToSession[c].1 in r.pendingDeletes)
  {
    hide IndexAgrees, Legal, Run;
    StartIsGood();
    RunKeepsTables(Start(), steps);
  }

  /** Over whole runs: no state ever has a destroyed session queued if and only if no destruction wakes a
      session about to be destroyed; and then the queue agrees too, so that every live session that asked is
      queued, once, and no session that is gone is ever used. */
  lemma RouterStaysSound(steps: seq<Step>)
    requires Legal(Start(), steps)
    ensures AlwaysSafe(Start(), steps) <==> NoHarm(Start(), steps)
    ensures NoHarm(Start(), steps) ==> Inv(Run(Start(), steps)) && Run(Start(), steps).misuses == 0
  {
    hide NoHarm, AlwaysSafe, TablesAgree, QueueAgrees, Legal, Run;
    StartIsGood();
    RunKeeps(Start(), steps);
  }

  // ----- Queries -----

  /** The live sessions of a site, found by looking at all of them. */
  function Scan(r: State, site: nat): set<Ptr> {
    set s | s in r.sessionToConnection && s in r.sessions && r.sessions[s].entity.site == site
  }

  function EntityOf(r: State, session: Ptr): EntityId {
    if session in r.sessions then r.sessions[session].entity else DEFAULT_ID
  }

  function EntitiesOf(r: State, some: set<Ptr>): set<EntityId> {
    set s | s in some :: EntityOf(r, s)
  }

  lemma IndexIsScan(r: State, site: nat)
    requires TablesAgree(r, r.pendingDeletes)
    ensures SiteOf(r.siteToSessions, site).Keys == EntitiesOf(r, Scan(r, site))
    ensures forall id :: id in SiteOf(r.siteToSessions, site) ==>
      var s := SiteOf(r.siteToSessions, site)[id]; s in Scan(r, site) && EntityOf(r, s) == id
  {
    hide MapsAgree, CountsAgree, SiteOf;
    forall id | id in SiteOf(r.siteToSessions, site) ensures id in EntitiesOf(r, Scan(r, site)) {
      assert EntryAgrees(r.siteToSessions, r.sessionToConnection, r.sessions, site, id);
      assert SiteOf(r.siteToSessions, site)[id] in Scan(r, site);
    }
    forall s | s in Scan(r, site) ensures EntityOf(r, s) in SiteOf(r.siteToSessions, site) {
      assert IsIndexed(r.siteToSessions, r.sessionToConnection, r.sessions, s);
    }
    forall id | id in SiteOf(r.siteToSessions, site)
      ensures SiteOf(r.siteToSessions, site)[id] in Scan(r, site)
      ensures EntityOf(r, SiteOf(r.siteToSessions, site)[id]) == id
    {
      assert EntryAgrees(r.siteToSessions, r.sessionToConnection, r.sessions, site, id);
    }
  }

  lemma OnePerEntity(r: State, site: nat)
    requires TablesAgree(r, r.pendingDeletes)
    ensures forall s, t :: s in Scan(r, site) && t in Scan(r, site) && s != t ==> EntityOf(r, s) != EntityOf(r, t)
  {
    hide MapsAgree, CountsAgree;
    forall s, t | s in Scan(r, site) && t in Scan(r, site) && s != t ensures EntityOf(r, s) != EntityOf(r, t) {
      assert IsIndexed(r.siteToSessions, r.sessionToConnection, r.sessions, s);
      assert IsIndexed(r.siteToSessions, r.sessionToConnection, r.sessions, t);
    }
  }

  lemma {:induction false} AsManyEntities(r: State, some: set<Ptr>)
    requires forall s, t :: s in some && t in some && s != t ==> EntityOf(r, s) != EntityOf(r, t)
    ensures |EntitiesOf(r, some)| == |some|
  {
    hide EntityOf;
    if some != {} {
      var x :| x in some;
      AsManyEntities(r, some - {x});
      assert EntitiesOf(r, some) == EntitiesOf(r, some - {x}) + {EntityOf(r, x)};
    }
  }

  /** `get_online_ids`, `get_session_online_count`, `get_entity_site_ids` and `get_entity_session` answer what
      a scan of all live sessions would, in every reachable state: the site index is exactly that. */
  lemma QueriesEqualScan(r: State, site: nat)
    requires TablesAgree(r, r.pendingDeletes)
    ensures SiteOf(r.siteToSessions, site).Keys == EntitiesOf(r, Scan(r, site))
    ensures |SiteOf(r.siteToSessions, site)| == |Scan(r, site)|
    ensures site in r.siteToSessions <==> Scan(r, site) != {}
    ensures forall id: EntityId :: id.site == site ==>
      var found := GetEntitySession(r, id);
      if found != 0 then found in Scan(r, site) && EntityOf(r, found) == id
      else forall s :: s in Scan(r, site) ==> EntityOf(r, s) != id
  {
    hide TablesAgree, Scan, EntityOf;
    var index := SiteOf(r.siteToSessions, site);
    IndexIsScan(r, site);
    OnePerEntity(r, site);
    AsManyEntities(r, Scan(r, site));
    assert |index| == |index.Keys|;
    assert index == map[] <==> |index| == 0;
    NoEmptySite(r, site);
    forall id: EntityId | id.site == site && GetEntitySession(r, id) == 0
      ensures forall s :: s in Scan(r, site) ==> EntityOf(r, s) != id
    {
      NothingAtZero(r, id);
    }
  }

  lemma NoEmptySite(r: State, site: nat)
    requires TablesAgree(r, r.pendingDeletes)
    ensures site in r.siteToSessions <==> SiteOf(r.siteToSessions, site) != map[]
  {
    hide MapsAgree, CountsAgree;
    assert IsInUse(r.siteToSessions, site);
  }

  // ----- The unsafe run -----

  const FIRST := EntityId(1, 1)
  const SECOND := EntityId(1, 2)

  /** Two players of a site connect and are disconnected; destroying the first session closes a channel the
      second one listens to. */
  const CONNECTING := [Authorized(9, 11, FIRST, 1), Authorized(9, 12, SECOND, 2)]
  const UNSAFE := CONNECTING + [Disconnected(FIRST), Disconnected(SECOND)] + [Serviced([], [[2]])]

  const ONE := Start().(
    connectionToSession := map[11 := (9, 1)], sessionToConnection := map[1 := 11],
    siteToSessions := map[1 := map[FIRST := 1]], sessions := map[1 := SessionSide(11, false, FIRST)],
    names := map[11 := FIRST], registered := multiset{11}, created := multiset{1})
  const BOTH := ONE.(
    connectionToSession := map[11 := (9, 1), 12 := (9, 2)], sessionToConnection := map[1 := 11, 2 := 12],
    siteToSessions := map[1 := map[FIRST := 1, SECOND := 2]],
    sessions := map[1 := SessionSide(11, false, FIRST), 2 := SessionSide(12, false, SECOND)],
    names := map[11 := FIRST, 12 := SECOND], registered := multiset{11, 12}, created := multiset{1, 2})
  const DOOMED := BOTH.(sessionToConnection := map[], siteToSessions := map[], pendingDeletes := [1, 2])

  lemma FirstConnects()
    ensures Next(Start(), CONNECTING[0]) == ONE
  {
  }

  lemma SecondIsNew()
    ensures GetEntitySession(ONE, SECOND) == 0
    ensures SiteOf(ONE.siteToSessions, 1)[SECOND := 2] == BOTH.siteToSessions[1]
  {
    assert map[FIRST := 1][SECOND := 2] == BOTH.siteToSessions[1];
  }

  lemma BothMaps()
    ensures ONE.connectionToSession[12 := (9, 2)] == BOTH.connectionToSession
    ensures ONE.sessionToConnection[2 := 12] == BOTH.sessionToConnection
  {
  }

  lemma BothSessions()
    ensures ONE.sessions[2 := SessionSide(12, false, SECOND)] == BOTH.sessions
    ensures ONE.names[12 := SECOND] == BOTH.names
    ensures ONE.registered + multiset{12} == BOTH.registered && ONE.created + multiset{2} == BOTH.created
  {
  }

  lemma NewIsEntered(r: State, driver: Ptr, connection: Ptr, id: EntityId, session: Ptr)
    requires GetEntitySession(r, id) == 0 && connection != 0 && driver != 0 && id != DEFAULT_ID
    ensures Authorize(r, driver, connection, id, session) == Enter(r, driver, connection, id, session)
  {
    hide AddSession, GetEntitySession;
  }

  lemma SecondConnects()
    ensures Next(ONE, CONNECTING[1]) == BOTH
  {
    hide GetEntitySession, SiteOf, Authorize, Enter;
    SecondIsNew();
    BothMaps();
    BothSessions();
    NewIsEntered(ONE, 9, 12, SECOND, 2);
    EnterShape(ONE, 9, 12, SECOND, 2);
    assert ONE.siteToSessions[1 := BOTH.siteToSessions[1]] == BOTH.siteToSessions;
  }

  const HALF := BOTH.(
    sessionToConnection := map[2 := 12], siteToSessions := map[1 := map[SECOND := 2]], pendingDeletes := [1])

  lemma DisconnectIs(r: State, id: EntityId, session: Ptr, sites: map<nat, map<EntityId, Ptr>>)
    requires GetEntitySession(r, id) == session != 0 && session in r.sessionToConnection
    requires NameOf(r, r.sessionToConnection[session]) == id
    requires RemoveEntity(r, id) == r.(siteToSessions := sites)
    ensures Next(r, Disconnected(id)) == r.(
      siteToSessions := sites, pendingDeletes := r.pendingDeletes + [session],
      sessionToConnection := r.sessionToConnection - {session})
  {
  }

  lemma BothAreConnected()
    ensures 1 in BOTH.sessionToConnection && BOTH.sessionToConnection[1] == 11 && BOTH.pendingDeletes == []
    ensures BOTH.sessionToConnection - {1} == map[2 := 12]
  {
  }

  lemma FirstDisconnects()
    ensures Next(BOTH, Disconnected(FIRST)) == HALF
  {
    hide RemoveEntity, GetEntitySession, NameOf, Next;
    BothAreConnected();
    FirstIsFound();
    FirstLeavesIndex();
    DisconnectIs(BOTH, FIRST, 1, HALF.siteToSessions);
    assert BOTH.pendingDeletes + [1] == HALF.pendingDeletes;
  }

  lemma FirstIsFound()
    ensures GetEntitySession(BOTH, FIRST) == 1 && NameOf(BOTH, 11) == FIRST
  {
  }

  lemma FirstLeavesIndex()
    ensures RemoveEntity(BOTH, FIRST) == BOTH.(siteToSessions := map[1 := map[SECOND := 2]])
  {
    var rest: map<EntityId, Ptr> := map[SECOND := 2];
    assert BOTH.siteToSessions[1] - {FIRST} == rest;
    assert SECOND in rest;
    assert BOTH.siteToSessions[1 := rest] == map[1 := rest];
  }

  lemma SecondDisconnects()
    ensures Next(HALF, Disconnected(SECOND)) == DOOMED
  {
  }

  lemma DoomedIsHarmed()
    ensures StepHarms(DOOMED, Serviced([], [[2]]))
  {
    assert Served(DOOMED, []) == DOOMED;
    assert [1, 2][0..] == [1, 2];
    assert [2][0] in [1, 2][0..] && !IsRequested(DOOMED, [2][0]);
    assert HarmsNow(DOOMED, [1, 2][0..], [[2]][0]);
  }

  lemma {:induction false} NoHarmAt(r: State, steps: seq<Step>, k: nat)
    requires k < |steps| && NoHarm(r, steps)
    ensures !StepHarms(Run(r, steps[..k]), steps[k])
    decreases k
  {
    hide Next, StepHarms;
    if k > 0 {
      NoHarmAt(Next(r, steps[0]), steps[1..], k - 1);
      assert steps[..k][1..] == steps[1..][..k - 1];
    }
  }

  lemma OneStep(r: State, step: Step, rest: seq<Step>)
    requires Enabled(r, step) && Legal(Next(r, step), rest)
    ensures Legal(r, [step] + rest) && Run(r, [step] + rest) == Run(Next(r, step), rest)
  {
  }

  lemma DoomedIsReached()
    ensures Legal(Start(), UNSAFE) && Run(Start(), UNSAFE[..4]) == DOOMED
  {
    hide Next, Legal, Run;
    var last := Serviced([], [[2]]);
    var d1, d2 := Disconnected(FIRST), Disconnected(SECOND);
    FirstConnects();
    SecondConnects();
    FirstDisconnects();
    SecondDisconnects();
    NothingMore(DOOMED);
    NothingMore(Next(DOOMED, last));
    OneStep(DOOMED, last, []);
    OneStep(HALF, d2, [last] + []);
    OneStep(HALF, d2, []);
    OneStep(BOTH, d1, [d2] + ([last] + []));
    OneStep(BOTH, d1, [d2] + []);
    OneStep(ONE, CONNECTING[1], [d1] + ([d2] + ([last] + [])));
    OneStep(ONE, CONNECTING[1], [d1] + ([d2] + []));
    OneStep(Start(), CONNECTING[0], [CONNECTING[1]] + ([d1] + ([d2] + ([last] + []))));
    OneStep(Start(), CONNECTING[0], [CONNECTING[1]] + ([d1] + ([d2] + [])));
    assert UNSAFE == [CONNECTING[0]] + ([CONNECTING[1]] + ([d1] + ([d2] + ([last] + []))));
    assert UNSAFE[..4] == [CONNECTING[0]] + ([CONNECTING[1]] + ([d1] + ([d2] + [])));
  }

  lemma NothingMore(r: State)
    ensures Legal(r, []) && Run(r, []) == r
  {
  }

  /** In this run a session that has been destroyed is queued for service. */
  lemma DestroyedSessionIsQueued()
    ensures Legal(Start(), UNSAFE) && !AlwaysSafe(Start(), UNSAFE)
  {
    hide Next, StepHarms, AlwaysSafe, Legal, Run, NoHarm;
    DoomedIsReached();
    DoomedIsHarmed();
    StartIsGood();
    RunKeeps(Start(), UNSAFE);
    if NoHarm(Start(), UNSAFE) { NoHarmAt(Start(), UNSAFE, 4); }
  }
}
