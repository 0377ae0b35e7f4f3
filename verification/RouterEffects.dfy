/** What the router's operations do, named by what is found afterwards: which session has which connection, what was
    given back, who waits to be destroyed, who was, and who has asked for service. */
module RouterEffects {
  import opened Basics
  import opened Router
  import opened RouterInvariant
  import opened RouterTheorems

  // ----- Disconnecting -----

  /** Every entity but this one is found as before. */
  ghost predicate OthersFound(r: State, next: State, id: EntityId) {
    forall other: EntityId :: other != id ==> GetEntitySession(next, other) == GetEntitySession(r, other)
  }

  lemma RemovingFindsOthers(r: State, id: EntityId)
    requires forall site :: IsInUse(r.siteToSessions, site)
    ensures OthersFound(r, RemoveEntity(r, id), id)
  {
    hide RemoveEntity, IsInUse;
    forall other: EntityId | other != id
      ensures GetEntitySession(RemoveEntity(r, id), other) == GetEntitySession(r, other)
    {
      assert IsInUse(r.siteToSessions, other.site);
      RemoveEntityAt(r, id, other.site);
    }
  }

  /** A disconnected entity has no session any more; the one it had keeps its connection and waits to be destroyed.
      Nothing else changes, and nothing at all when there was none. */
  lemma DisconnectTakesEffect(r: State, id: EntityId)
    requires TablesAgree(r, r.pendingDeletes)
    ensures var s, next := GetEntitySession(r, id), DisconnectSession(r, id);
      && GetEntitySession(next, id) == 0 && OthersFound(r, next, id)
      && (s == 0 ==> next == r)
      && (s != 0 ==>
            && s in r.sessionToConnection
            && next == r.(pendingDeletes := r.pendingDeletes + [s], sessionToConnection := r.sessionToConnection - {s},
                          siteToSessions := next.siteToSessions))
  {
    hide MapsAgree, SplitAgrees, CountsAgree, RemoveEntity, NameOf, EntryAgrees, IsIndexed, IsInUse, SiteOf;
    var s := GetEntitySession(r, id);
    DisconnectKeepsTables(r, id);
    assert 0 !in r.sessionToConnection by { IndexHasNoEmptySite(r); }
    if s != 0 {
      FoundIsLive(r, id);
      RemovedMaps(r, s);
      RemoveEntityAt(r, id, id.site);
      RemovingFindsOthers(r, id);
    }
  }

  // ----- Authorizing -----

  lemma EnteringFinds(r: State, driver: Ptr, connection: Ptr, id: EntityId, session: Ptr)
    requires Fresh(r, driver, connection, session) && id != DEFAULT_ID && session !in r.sessionToConnection
    ensures var next := Enter(r, driver, connection, id, session);
      GetEntitySession(next, id) == session && OthersFound(r, next, id)
  {
    hide Enter;
    EnterShape(r, driver, connection, id, session);
  }

  /** A new session is entered for the entity, on its connection and not asking for anything. */
  ghost predicate IsEntered(r: State, driver: Ptr, connection: Ptr, id: EntityId, session: Ptr, next: State) {
    && GetEntitySession(next, id) == session && OthersFound(r, next, id)
    && next.sessions == r.sessions[session := SessionSide(connection, false, id)]
    && next.connectionToSession == r.connectionToSession[connection := (driver, session)]
    && session in next.sessionToConnection && next.sessionToConnection[session] == connection
    && next.names == r.names[connection := id]
    && next.created == r.created + multiset{session} && next.registered == r.registered + multiset{connection}
    && next.released == r.released && next.destroyed == r.destroyed
    && next.pendingActions == r.pendingActions && next.misuses == r.misuses
  }

  lemma EnteringEnters(r: State, driver: Ptr, connection: Ptr, id: EntityId, session: Ptr)
    requires Fresh(r, driver, connection, session) && id != DEFAULT_ID && session !in r.sessionToConnection
    ensures var next := Enter(r, driver, connection, id, session);
      && IsEntered(r, driver, connection, id, session, next)
      && next.sessionToConnection == r.sessionToConnection[session := connection]
      && next.pendingDeletes == r.pendingDeletes
  {
    hide Enter, GetEntitySession, OthersFound;
    EnterShape(r, driver, connection, id, session);
    EnteringFinds(r, driver, connection, id, session);
  }

  lemma FoundTwice(r: State, mid: State, next: State, id: EntityId)
    requires OthersFound(r, mid, id) && OthersFound(mid, next, id)
    ensures OthersFound(r, next, id)
  {
  }

  /** Authorizing enters a new session for the entity; one it had before keeps its connection and waits to be
      destroyed, and everybody else is left alone. Without an entity nothing happens. */
  lemma AuthorizeTakesEffect(r: State, driver: Ptr, connection: Ptr, id: EntityId, session: Ptr)
    requires TablesAgree(r, r.pendingDeletes) && Fresh(r, driver, connection, session)
    ensures var former, next := GetEntitySession(r, id), Authorize(r, driver, connection, id, session);
      if id == DEFAULT_ID then next == r
      else
        && IsEntered(r, driver, connection, id, session, next)
        && next.pendingDeletes == r.pendingDeletes + (if former == 0 then [] else [former])
        && next.sessionToConnection
          == (if former == 0 then r.sessionToConnection else r.sessionToConnection - {former})[session := connection]
  {
    hide TablesAgree, GetEntitySession, DisconnectSession, Enter, OthersFound;
    if id != DEFAULT_ID {
      DisconnectTakesEffect(r, id);
      var alone := DisconnectSession(r, id);
      assert session !in alone.sessionToConnection by { FreshIsNotLive(r, driver, connection, session); }
      EnteringEnters(alone, driver, connection, id, session);
      AuthorizingEnters(r, driver, connection, id, session);
      FoundTwice(r, alone, Enter(alone, driver, connection, id, session), id);
    }
  }

  lemma FreshIsNotLive(r: State, driver: Ptr, connection: Ptr, session: Ptr)
    requires TablesAgree(r, r.pendingDeletes) && Fresh(r, driver, connection, session)
    ensures session !in r.sessionToConnection
  {
  }

  lemma AuthorizingEnters(r: State, driver: Ptr, connection: Ptr, id: EntityId, session: Ptr)
    requires driver != 0 && connection != 0 && id != DEFAULT_ID
    ensures Authorize(r, driver, connection, id, session)
      == Enter(DisconnectSession(r, id), driver, connection, id, session)
  {
    hide AddSession, DisconnectSession;
  }

  // ----- Reconnecting -----

  /** The session has this connection now and nobody else's changed; its former one is no longer entered and was given
      back, once; it has asked for service and is queued once more only if it had not asked before. */
  ghost predicate IsMoved(r: State, driver: Ptr, connection: Ptr, id: EntityId, s: Ptr, next: State)
    requires s in r.sessions && s in r.sessionToConnection
  {
    var former := r.sessionToConnection[s];
    && next.sessionToConnection == r.sessionToConnection[s := connection]
    && connection in next.connectionToSession && next.connectionToSession[connection] == (driver, s)
    && former !in next.connectionToSession
    && (forall c :: c != connection && c != former ==>
          && (c in next.connectionToSession <==> c in r.connectionToSession)
          && (c in r.connectionToSession ==> next.connectionToSession[c] == r.connectionToSession[c]))
    && next.sessions.Keys == r.sessions.Keys
    && next.sessions[s] == r.sessions[s].(client := connection, requested := true)
    && (forall other :: other in r.sessions && other != s ==> next.sessions[other] == r.sessions[other])
    && next.names == r.names[connection := id]
    && next.released == r.released + multiset{former} && next.registered == r.registered + multiset{connection}
    && next.created == r.created && next.destroyed == r.destroyed
    && next.pendingActions == r.pendingActions + (if r.sessions[s].requested then [] else [s])
    && next.pendingDeletes == r.pendingDeletes && next.siteToSessions == r.siteToSessions && next.misuses == r.misuses
  }

  lemma WakingTheMoved(r: State, driver: Ptr, connection: Ptr, id: EntityId, s: Ptr)
    requires s in r.sessions && s in r.sessionToConnection && s != 0 && s !in r.pendingDeletes
    requires connection !in r.connectionToSession && r.sessionToConnection[s] in r.connectionToSession
    ensures IsMoved(r, driver, connection, id, s, Wake(Reconnect(r, driver, connection, id, s), s))
  {
    hide Wake;
    WakeShape(Reconnect(r, driver, connection, id, s), s);
  }

  lemma LiveIsConnected(r: State, s: Ptr)
    requires TablesAgree(r, r.pendingDeletes) && s in r.sessionToConnection
    ensures s in r.sessions && s != 0 && s !in r.pendingDeletes && r.sessionToConnection[s] in r.connectionToSession
    ensures MapsAgree(r.connectionToSession, r.sessionToConnection, r.sessions, r.names)
  {
  }

  lemma ReconnectMoves(r: State, driver: Ptr, connection: Ptr, id: EntityId, makeNew: bool, session: Ptr)
    requires TablesAgree(r, r.pendingDeletes) && Fresh(r, driver, connection, session)
    requires id != DEFAULT_ID && GetEntitySession(r, id) != 0
    ensures var s, next := GetEntitySession(r, id), Reauthorize(r, driver, connection, id, makeNew, session);
      && s in r.sessions && s in r.sessionToConnection
      && IsMoved(r, driver, connection, id, s, next) && GetEntitySession(next, id) == s
  {
    hide IndexAgrees, CountsAgree, SplitAgrees, MapsAgree, AddSession, SetConnection, Authorize, Wake, Reconnect,
      SiteOf;
    var s := GetEntitySession(r, id);
    FoundIsLive(r, id);
    LiveIsConnected(r, s);
    ReauthorizeShape(r, driver, connection, id, s);
    WakingTheMoved(r, driver, connection, id, s);
  }

  /** An entity that has a session gets it back on the new connection. One that has none gets a new session if that
      is wanted, and otherwise nothing happens. */
  lemma ReauthorizeTakesEffect(r: State, driver: Ptr, connection: Ptr, id: EntityId, makeNew: bool, session: Ptr)
    requires TablesAgree(r, r.pendingDeletes) && Fresh(r, driver, connection, session)
    ensures var s, next := GetEntitySession(r, id), Reauthorize(r, driver, connection, id, makeNew, session);
      && (s != 0 ==>
            && s in r.sessions && s in r.sessionToConnection
            && IsMoved(r, driver, connection, id, s, next) && GetEntitySession(next, id) == s)
      && (s == 0 && (!makeNew || id == DEFAULT_ID) ==> next == r)
      && (s == 0 && makeNew && id != DEFAULT_ID ==>
            && IsEntered(r, driver, connection, id, session, next)
            && next.sessionToConnection == r.sessionToConnection[session := connection]
            && next.pendingDeletes == r.pendingDeletes)
  {
    hide TablesAgree, Authorize, AddSession, SetConnection, IsMoved, IsEntered;
    assert GetEntitySession(r, DEFAULT_ID) == 0 by { NobodyByDefault(r); }
    if GetEntitySession(r, id) != 0 {
      ReconnectMoves(r, driver, connection, id, makeNew, session);
    } else {
      AuthorizeTakesEffect(r, driver, connection, id, session);
      assert r.pendingDeletes + [] == r.pendingDeletes;
    }
  }

  lemma NobodyByDefault(r: State)
    requires TablesAgree(r, r.pendingDeletes)
    ensures GetEntitySession(r, DEFAULT_ID) == 0
  {
    hide MapsAgree, CountsAgree, SplitAgrees;
    if GetEntitySession(r, DEFAULT_ID) != 0 { FoundIsLive(r, DEFAULT_ID); }
  }

  /** Without a driver, a connection or an entity there is nothing to authorize. */
  lemma NobodyToAuthorize(r: State, driver: Ptr, connection: Ptr, id: EntityId, makeNew: bool, session: Ptr)
    requires driver == 0 || connection == 0 || id == DEFAULT_ID
    ensures Authorize(r, driver, connection, id, session) == r
    ensures Reauthorize(r, driver, connection, id, makeNew, session) == r
  {
  }

  // ----- Servicing -----

  function WakesOf(wakes: seq<seq<Ptr>>, k: nat): seq<Ptr> {
    if k < |wakes| then wakes[k] else []
  }

  /** Somebody wakes the session in its own turn or a later one. */
  ghost predicate AsksAgain(queue: seq<Ptr>, wakes: seq<seq<Ptr>>, s: Ptr) {
    exists k: nat :: k < |queue| && s in WakesOf(wakes, k) && s !in queue[k + 1..]
  }

  lemma RestOfWakes(wakes: seq<seq<Ptr>>, k: nat)
    ensures WakesOf(wakes, 0) == WakesAt(wakes) && WakesOf(Rest(wakes), k) == WakesOf(wakes, k + 1)
  {
  }

  lemma AsksAgainFirst(queue: seq<Ptr>, wakes: seq<seq<Ptr>>, s: Ptr)
    requires queue != []
    ensures AsksAgain(queue, wakes, s)
      <==> (s in WakesAt(wakes) && s !in queue[1..]) || AsksAgain(queue[1..], Rest(wakes), s)
  {
    hide WakesOf;
    RestOfWakes(wakes, 0);
    if AsksAgain(queue, wakes, s) {
      var k: nat :| k < |queue| && s in WakesOf(wakes, k) && s !in queue[k + 1..];
      if k > 0 {
        RestOfWakes(wakes, k - 1);
        assert queue[1..][k - 1 + 1..] == queue[k + 1..];
      }
    }
    if AsksAgain(queue[1..], Rest(wakes), s) {
      var k: nat :| k < |queue[1..]| && s in WakesOf(Rest(wakes), k) && s !in queue[1..][k + 1..];
      RestOfWakes(wakes, k);
      assert queue[1..][k + 1..] == queue[k + 1 + 1..];
    }
    if s in WakesAt(wakes) && s !in queue[1..] { assert queue[0 + 1..] == queue[1..]; }
  }

  lemma OnlyRequestsTwice(r: State, mid: State, next: State)
    requires OnlyRequests(r, mid) && OnlyRequests(mid, next)
    ensures OnlyRequests(r, next)
  {
  }

  lemma ServiceOneRequests(r: State, session: Ptr, woken: seq<Ptr>)
    requires session in r.sessions
    ensures OnlyRequests(r, ServiceOne(r, session, woken))
  {
    hide WakeAll;
    var taken := r.(sessions := r.sessions[session := r.sessions[session].(requested := false)]);
    WakeAllChangesRequests(taken, woken);
    OnlyRequestsTwice(r, taken, WakeAll(taken, woken));
  }

  /** Every session of the queue has its request taken back once; it has asked again afterwards if and only if
      somebody woke it from its own turn on. The others have asked if they had before or were woken. */
  lemma {:induction false} ServiceAllTakesEffect(r: State, queue: seq<Ptr>, wakes: seq<seq<Ptr>>, s: Ptr)
    requires s in r.sessions && forall q :: q in queue ==> q in r.sessions
    ensures var next := ServiceAll(r, queue, wakes);
      && OnlyRequests(r, next)
      && (IsRequested(next, s) <==> (IsRequested(r, s) && s !in queue) || AsksAgain(queue, wakes, s))
    decreases queue
  {
    hide ServiceOne, AsksAgain, OnlyRequests;
    if queue == [] {
      assert !AsksAgain(queue, wakes, s) by { NobodyAsksAgain(wakes, s); }
      assert OnlyRequests(r, r) by { NothingRequested(r); }
    } else {
      var mid := ServiceOne(r, queue[0], WakesAt(wakes));
      ServiceOneRequests(r, queue[0], WakesAt(wakes));
      ServiceOneSets(r, queue[0], WakesAt(wakes), s);
      SameSessions(r, mid);
      ServiceAllTakesEffect(mid, queue[1..], Rest(wakes), s);
      AsksAgainFirst(queue, wakes, s);
      OnlyRequestsTwice(r, mid, ServiceAll(mid, queue[1..], Rest(wakes)));
      assert s in queue <==> s == queue[0] || s in queue[1..];
      if s in WakesAt(wakes) && s in queue[1..] { assert s in queue; }
    }
  }

  lemma NobodyAsksAgain(wakes: seq<seq<Ptr>>, s: Ptr)
    ensures !AsksAgain([], wakes, s)
  {
  }

  lemma NothingRequested(r: State)
    ensures OnlyRequests(r, r)
  {
  }

  lemma SameSessions(r: State, next: State)
    requires OnlyRequests(r, next)
    ensures next.sessions.Keys == r.sessions.Keys
  {
  }

  // ----- Destroying -----

  /** The connections of these sessions. */
  function ClientsOf(sessions: map<Ptr, SessionSide>, some: seq<Ptr>): multiset<Ptr> {
    if some == [] then multiset{}
    else (if some[0] in sessions then multiset{sessions[some[0]].client} else multiset{}) + ClientsOf(sessions, some[1..])
  }

  ghost predicate IsWoken(wakes: seq<seq<Ptr>>, n: nat, s: Ptr) {
    exists k: nat :: k < n && s in WakesOf(wakes, k)
  }

  lemma IsWokenFirst(wakes: seq<seq<Ptr>>, n: nat, s: Ptr)
    requires n > 0
    ensures IsWoken(wakes, n, s) <==> s in WakesAt(wakes) || IsWoken(Rest(wakes), n - 1, s)
  {
    hide WakesOf;
    RestOfWakes(wakes, 0);
    if IsWoken(wakes, n, s) {
      var k: nat :| k < n && s in WakesOf(wakes, k);
      if k > 0 { RestOfWakes(wakes, k - 1); }
    }
    if IsWoken(Rest(wakes), n - 1, s) {
      var k: nat :| k < n - 1 && s in WakesOf(Rest(wakes), k);
      RestOfWakes(wakes, k);
    }
  }

  /** These sessions were destroyed, each once, and their connections given back, each once; the others are as they
      were but for requests. */
  ghost predicate AreDestroyed(r: State, doomed: seq<Ptr>, next: State) {
    && next.destroyed == r.destroyed + multiset(doomed) && next.created == r.created
    && next.released == r.released + ClientsOf(r.sessions, doomed) && next.registered == r.registered
    && next.sessions.Keys == r.sessions.Keys - SetOf(doomed)
    && (forall s :: s in next.sessions ==>
          next.sessions[s].client == r.sessions[s].client && next.sessions[s].entity == r.sessions[s].entity)
    && next.sessionToConnection == r.sessionToConnection && next.siteToSessions == r.siteToSessions
    && next.names == r.names && next.misuses == r.misuses
  }

  lemma ClientsAlike(sessions: map<Ptr, SessionSide>, next: map<Ptr, SessionSide>, some: seq<Ptr>)
    requires forall s :: s in some ==> s in sessions && s in next && next[s].client == sessions[s].client
    ensures ClientsOf(next, some) == ClientsOf(sessions, some)
    decreases some
  {
    if some != [] { ClientsAlike(sessions, next, some[1..]); }
  }

  lemma DestroyOneTakesEffect(r: State, doomed: seq<Ptr>, woken: seq<Ptr>)
    requires TablesAgree(r, doomed) && doomed != []
    ensures var next := DestroyOne(r, doomed[0], woken);
      && TablesAgree(next, doomed[1..]) && AreDestroyed(r, [doomed[0]], next)
      && (forall s :: s in next.sessions ==> (IsRequested(next, s) <==> IsRequested(r, s) || s in woken))
  {
    hide TablesAgree, WakeAll, DestroyOne, OnlyRequests;
    var session, told := doomed[0], WakeAll(r, woken);
    DestroyOneKeepsTables(r, doomed, woken);
    DoomedExist(r, doomed);
    NoNullConnection(r, doomed);
    WakeAllChangesRequests(r, woken);
    OnlyRequestsIs(r, told);
    DestroyOneShape(r, session, woken);
    assert r.sessions[session].client in r.connectionToSession by { DoomedIsConnected(r, doomed, session); }
    assert ClientsOf(r.sessions, [session]) == multiset{r.sessions[session].client};
    assert multiset([session]) == multiset{session};
    forall s | s in r.sessions && s != session
      ensures s in told.sessions && (IsRequested(told, s) <==> IsRequested(r, s) || s in woken)
    {
      WakeAllSets(r, woken, s);
    }
  }

  lemma OnlyRequestsIs(r: State, next: State)
    requires OnlyRequests(r, next)
    ensures next == r.(sessions := next.sessions, pendingActions := next.pendingActions)
    ensures next.sessions.Keys == r.sessions.Keys
    ensures forall s :: s in r.sessions ==>
      next.sessions[s].client == r.sessions[s].client && next.sessions[s].entity == r.sessions[s].entity
  {
  }

  lemma DoomedIsConnected(r: State, doomed: seq<Ptr>, s: Ptr)
    requires TablesAgree(r, doomed) && s in doomed
    ensures s in r.sessions && r.sessions[s].client in r.connectionToSession
  {
  }

  lemma FirstAndRest(doomed: seq<Ptr>)
    requires doomed != [] && NoRepeats(doomed)
    ensures multiset(doomed) == multiset([doomed[0]]) + multiset(doomed[1..])
    ensures SetOf(doomed) == SetOf([doomed[0]]) + SetOf(doomed[1..]) && doomed[0] !in doomed[1..]
    ensures SetOf([doomed[0]]) == {doomed[0]}
  {
    assert doomed == [doomed[0]] + doomed[1..];
  }

  lemma ClientsOfFirstAndRest(sessions: map<Ptr, SessionSide>, next: map<Ptr, SessionSide>, doomed: seq<Ptr>)
    requires doomed != [] && forall s :: s in doomed ==> s in sessions
    requires forall s :: s in doomed[1..] ==> s in next && next[s].client == sessions[s].client
    ensures ClientsOf(sessions, doomed) == ClientsOf(sessions, [doomed[0]]) + ClientsOf(next, doomed[1..])
  {
    ClientsAlike(sessions, next, doomed[1..]);
    assert ClientsOf(sessions, []) == multiset{};
    assert [doomed[0]][1..] == [];
  }

  lemma DestroyedMore(r: State, mid: State, next: State, doomed: seq<Ptr>)
    requires doomed != [] && NoRepeats(doomed) && forall s :: s in doomed ==> s in r.sessions
    requires AreDestroyed(r, [doomed[0]], mid) && AreDestroyed(mid, doomed[1..], next)
    ensures AreDestroyed(r, doomed, next)
  {
    hide ClientsOf, SetOf, NoRepeats;
    FirstAndRest(doomed);
    ClientsOfFirstAndRest(r.sessions, mid.sessions, doomed);
  }

  lemma {:induction false} DestroyAllTakesEffect(r: State, doomed: seq<Ptr>, wakes: seq<seq<Ptr>>)
    requires TablesAgree(r, doomed)
    ensures var next := DestroyAll(r, doomed, wakes);
      && AreDestroyed(r, doomed, next)
      && (forall s :: s in next.sessions ==> (IsRequested(next, s) <==> IsRequested(r, s) || IsWoken(wakes, |doomed|, s)))
    decreases doomed
  {
    hide TablesAgree, DestroyOne, AreDestroyed, IsRequested, IsWoken;
    if doomed == [] {
      assert AreDestroyed(r, [], r) by { NobodyDestroyed(r); }
      forall s ensures !IsWoken(wakes, 0, s) { NobodyWoken(wakes, s); }
    } else {
      var mid := DestroyOne(r, doomed[0], WakesAt(wakes));
      DestroyOneTakesEffect(r, doomed, WakesAt(wakes));
      DestroyAllTakesEffect(mid, doomed[1..], Rest(wakes));
      DoomedExist(r, doomed);
      var next := DestroyAll(mid, doomed[1..], Rest(wakes));
      DestroyedMore(r, mid, next, doomed);
      assert next.sessions.Keys <= mid.sessions.Keys by { FewerSessions(mid, doomed[1..], next); }
      forall s | s in next.sessions ensures IsRequested(next, s) <==> IsRequested(r, s) || IsWoken(wakes, |doomed|, s) {
        IsWokenFirst(wakes, |doomed|, s);
      }
    }
  }

  lemma FewerSessions(r: State, doomed: seq<Ptr>, next: State)
    requires AreDestroyed(r, doomed, next)
    ensures next.sessions.Keys <= r.sessions.Keys
  {
  }

  lemma NobodyDestroyed(r: State)
    ensures AreDestroyed(r, [], r)
  {
  }

  lemma NobodyWoken(wakes: seq<seq<Ptr>>, s: Ptr)
    ensures !IsWoken(wakes, 0, s)
  {
  }

  /** A service is the queue followed by the list of deletions, which the queue leaves alone. */
  lemma ServiceIs(r: State, serviceWakes: seq<seq<Ptr>>, deleteWakes: seq<seq<Ptr>>)
    requires Inv(r)
    ensures var served := Served(r, serviceWakes);
      && TablesAgree(served.(pendingDeletes := []), r.pendingDeletes)
      && ServiceSessions(r, serviceWakes, deleteWakes)
        == DestroyAll(served.(pendingDeletes := []), r.pendingDeletes, deleteWakes)
  {
    hide TablesAgree, ServiceAll, DestroyAll, QueueAgrees;
    var begun := r.(pendingActions := []);
    TablesIgnoreQueues(r, begun, r.pendingDeletes);
    ServiceAllKeepsTables(begun, r.pendingActions, serviceWakes, r.pendingDeletes);
    var served := Served(r, serviceWakes);
    TablesIgnoreQueues(served, served.(pendingDeletes := []), r.pendingDeletes);
    if r.pendingDeletes == [] { NothingToDestroy(served, deleteWakes); }
  }

  lemma ServiceDestroys(r: State, serviceWakes: seq<seq<Ptr>>, deleteWakes: seq<seq<Ptr>>)
    requires Inv(r)
    ensures var next := ServiceSessions(r, serviceWakes, deleteWakes);
      AreDestroyed(r, r.pendingDeletes, next) && next.pendingDeletes == []
  {
    hide TablesAgree, ServiceAll, DestroyAll, QueueAgrees, AreDestroyed, OnlyRequests, ServiceSessions;
    var begun, served := r.(pendingActions := []), Served(r, serviceWakes);
    var next := ServiceSessions(r, serviceWakes, deleteWakes);
    ServiceIs(r, serviceWakes, deleteWakes);
    DestroyAllTakesEffect(served.(pendingDeletes := []), r.pendingDeletes, deleteWakes);
    QueuedExist(r);
    ServiceAllRequests(begun, r.pendingActions, serviceWakes);
    DoomedExist(r, r.pendingDeletes);
    ServedThenDestroyed(r, begun, served, served.(pendingDeletes := []), next, r.pendingDeletes);
    ServiceKeepsTables(r, serviceWakes, deleteWakes);
  }

  lemma ServiceAsks(r: State, serviceWakes: seq<seq<Ptr>>, deleteWakes: seq<seq<Ptr>>, s: Ptr)
    requires Inv(r) && s in r.sessions && s in ServiceSessions(r, serviceWakes, deleteWakes).sessions
    ensures IsRequested(ServiceSessions(r, serviceWakes, deleteWakes), s) <==>
      || AsksAgain(r.pendingActions, serviceWakes, s)
      || (s !in r.pendingActions && IsRequested(r, s))
      || IsWoken(deleteWakes, |r.pendingDeletes|, s)
  {
    hide TablesAgree, ServiceAll, DestroyAll, QueueAgrees, AreDestroyed, OnlyRequests, ServiceSessions, AsksAgain,
      IsWoken, IsRequested;
    var begun, served := r.(pendingActions := []), Served(r, serviceWakes);
    ServiceIs(r, serviceWakes, deleteWakes);
    DestroyAllTakesEffect(served.(pendingDeletes := []), r.pendingDeletes, deleteWakes);
    QueuedExist(r);
    ServiceAllTakesEffect(begun, r.pendingActions, serviceWakes, s);
    SameRequest(r, begun, s);
    SameRequest(served, served.(pendingDeletes := []), s);
  }

  /** A service, whomever it wakes: exactly the sessions that waited to be destroyed are, each once and with its
      connection given back once, and nobody waits any more; every session that is left keeps its connection and its
      place in the index; and a live one has asked for service afterwards if and only if it was woken from its own
      turn on, or by a destruction. */
  lemma ServiceTakesEffect(r: State, serviceWakes: seq<seq<Ptr>>, deleteWakes: seq<seq<Ptr>>)
    requires Inv(r)
    ensures var next := ServiceSessions(r, serviceWakes, deleteWakes);
      && AreDestroyed(r, r.pendingDeletes, next) && next.pendingDeletes == []
      && (forall s :: s in r.sessionToConnection ==>
            && s in next.sessions
            && (IsRequested(next, s) <==>
                  || AsksAgain(r.pendingActions, serviceWakes, s)
                  || (s !in r.pendingActions && IsRequested(r, s))
                  || IsWoken(deleteWakes, |r.pendingDeletes|, s)))
  {
    hide TablesAgree, AreDestroyed, AsksAgain, IsWoken, QueueAgrees, IsRequested, ServiceSessions;
    var next := ServiceSessions(r, serviceWakes, deleteWakes);
    ServiceDestroys(r, serviceWakes, deleteWakes);
    forall s | s in r.sessionToConnection
      ensures s in next.sessions
      ensures IsRequested(next, s) <==>
        || AsksAgain(r.pendingActions, serviceWakes, s)
        || (s !in r.pendingActions && IsRequested(r, s))
        || IsWoken(deleteWakes, |r.pendingDeletes|, s)
    {
      LiveStay(r, next, s);
      ServiceAsks(r, serviceWakes, deleteWakes, s);
    }
  }

  lemma QueuedExist(r: State)
    requires Inv(r)
    ensures forall q :: q in r.pendingActions ==> q in r.sessions
  {
    hide TablesAgree;
  }

  lemma NothingToDestroy(r: State, wakes: seq<seq<Ptr>>)
    requires r.pendingDeletes == []
    ensures DestroyAll(r.(pendingDeletes := []), [], wakes) == r
  {
  }

  lemma ServiceAllRequests(r: State, queue: seq<Ptr>, wakes: seq<seq<Ptr>>)
    requires forall q :: q in queue ==> q in r.sessions
    ensures OnlyRequests(r, ServiceAll(r, queue, wakes))
  {
    hide ServiceAll;
    if queue == [] {
      NothingServed(r, wakes);
      NothingRequested(r);
    } else {
      ServiceAllTakesEffect(r, queue, wakes, queue[0]);
    }
  }

  lemma NothingServed(r: State, wakes: seq<seq<Ptr>>)
    ensures ServiceAll(r, [], wakes) == r
  {
  }

  lemma ServedThenDestroyed(r: State, begun: State, served: State, ending: State, next: State, doomed: seq<Ptr>)
    requires begun == r.(pendingActions := []) && OnlyRequests(begun, served)
    requires ending == served.(pendingDeletes := []) && AreDestroyed(ending, doomed, next)
    requires forall s :: s in doomed ==> s in r.sessions
    ensures AreDestroyed(r, doomed, next)
  {
    ClientsAlike(r.sessions, ending.sessions, doomed);
  }

  lemma LiveStay(r: State, next: State, s: Ptr)
    requires TablesAgree(r, r.pendingDeletes) && AreDestroyed(r, r.pendingDeletes, next) && s in r.sessionToConnection
    ensures s in r.sessions && s in next.sessions
  {
  }

  lemma SameRequest(r: State, next: State, s: Ptr)
    requires next.sessions == r.sessions
    ensures IsRequested(next, s) <==> IsRequested(r, s)
  {
  }
}
