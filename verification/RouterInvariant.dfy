/** What the router's tables agree on, and that every step keeps it. */
module RouterInvariant {
  import opened Basics
  import opened Router

  /** On live sessions the two connection maps are inverse and match `client_ptr`; every session's connection
      is entered for it and every connection entered is its session's own, so a leftover one belongs to a
      session that is about to be destroyed. */
  ghost predicate MapsAgree(connections: map<Ptr, (Ptr, Ptr)>, live: map<Ptr, Ptr>, sessions: map<Ptr, SessionSide>,
                            names: map<Ptr, EntityId>) {
    && (forall s :: s in live ==>
          && s in sessions && sessions[s].client == live[s]
          && live[s] in names && names[live[s]] == sessions[s].entity)
    && (forall s :: s in sessions ==>
          sessions[s].client in connections && connections[sessions[s].client].1 == s)
    && (forall c :: c in connections ==>
          c != 0 && connections[c].1 in sessions && sessions[connections[c].1].client == c)
  }

  /** Every session is live or about to be destroyed. */
  ghost predicate SplitAgrees(live: map<Ptr, Ptr>, doomed: seq<Ptr>, sessions: map<Ptr, SessionSide>) {
    && 0 !in sessions && NoRepeats(doomed)
    && (forall s :: s in doomed ==> s in sessions && s !in live)
    && (forall s :: s in live ==> s in sessions)
    && (forall s :: s in sessions ==> s in live || s in doomed)
  }

  /** An entry of the site index names a live session of that entity. */
  ghost predicate EntryAgrees(sites: map<nat, map<EntityId, Ptr>>, live: map<Ptr, Ptr>, sessions: map<Ptr, SessionSide>,
                              site: nat, id: EntityId) {
    id in SiteOf(sites, site) ==>
      && id.site == site && id != DEFAULT_ID
      && SiteOf(sites, site)[id] in live && SiteOf(sites, site)[id] in sessions
      && sessions[SiteOf(sites, site)[id]].entity == id
  }

  /** A live session is in the site index under its entity. */
  ghost predicate IsIndexed(sites: map<nat, map<EntityId, Ptr>>, live: map<Ptr, Ptr>, sessions: map<Ptr, SessionSide>,
                            s: Ptr) {
    s in live && s in sessions ==>
      && sessions[s].entity in SiteOf(sites, sessions[s].entity.site)
      && SiteOf(sites, sessions[s].entity.site)[sessions[s].entity] == s
  }

  ghost predicate IsInUse(sites: map<nat, map<EntityId, Ptr>>, site: nat) {
    site in sites ==> sites[site] != map[]
  }

  /** The site index holds exactly the live sessions, each under its own entity, and no empty site. */
  ghost predicate IndexAgrees(sites: map<nat, map<EntityId, Ptr>>, live: map<Ptr, Ptr>, sessions: map<Ptr, SessionSide>) {
    && (forall site :: IsInUse(sites, site))
    && (forall site, id :: EntryAgrees(sites, live, sessions, site, id))
    && (forall s :: IsIndexed(sites, live, sessions, s))
  }

  /** No session is queued twice or without having asked; a live session that has asked is queued. */
  ghost predicate QueueAgrees(queue: seq<Ptr>, live: map<Ptr, Ptr>, sessions: map<Ptr, SessionSide>) {
    && NoRepeats(queue)
    && (forall s :: s in queue ==> s in sessions && sessions[s].requested)
    && (forall s :: s in live && s in sessions && sessions[s].requested ==> s in queue)
  }

  /** Every entry of a connection is given back at most once, and every session is destroyed at most once. */
  ghost predicate CountsAgree(r: State) {
    && (forall c :: r.registered[c] == r.released[c] + (if c in r.connectionToSession then 1 else 0))
    && (forall s :: r.created[s] == r.destroyed[s] + (if s in r.sessions then 1 else 0))
  }

  /** What does not depend on the queue, with the sessions about to be destroyed given apart. */
  ghost predicate TablesAgree(r: State, doomed: seq<Ptr>) {
    && MapsAgree(r.connectionToSession, r.sessionToConnection, r.sessions, r.names)
    && SplitAgrees(r.sessionToConnection, doomed, r.sessions)
    && IndexAgrees(r.siteToSessions, r.sessionToConnection, r.sessions)
    && CountsAgree(r)
  }

  /** With the sessions that are queued given apart too; and no call was made on a session that was gone. */
  ghost predicate Agrees(r: State, doomed: seq<Ptr>, queue: seq<Ptr>) {
    TablesAgree(r, doomed) && QueueAgrees(queue, r.sessionToConnection, r.sessions) && r.misuses == 0
  }

  ghost predicate Inv(r: State) {
    Agrees(r, r.pendingDeletes, r.pendingActions)
  }

  // ----- Requests -----

  /** Only who has asked for service changed. */
  ghost predicate OnlyRequests(r: State, next: State) {
    && next == r.(sessions := next.sessions, pendingActions := next.pendingActions)
    && next.sessions.Keys == r.sessions.Keys
    && (forall s :: s in r.sessions ==>
          next.sessions[s].client == r.sessions[s].client && next.sessions[s].entity == r.sessions[s].entity)
  }

  lemma RequestsKeepMaps(r: State, next: State)
    requires OnlyRequests(r, next) && MapsAgree(r.connectionToSession, r.sessionToConnection, r.sessions, r.names)
    ensures MapsAgree(next.connectionToSession, next.sessionToConnection, next.sessions, next.names)
  {
  }

  lemma RequestsKeepIndex(r: State, next: State)
    requires OnlyRequests(r, next) && IndexAgrees(r.siteToSessions, r.sessionToConnection, r.sessions)
    ensures IndexAgrees(next.siteToSessions, next.sessionToConnection, next.sessions)
  {
    SameIndex(r.siteToSessions, r.sessionToConnection, r.sessions, next.sessionToConnection, next.sessions);
  }

  /** The index depends only on which sessions are live and for which entities. */
  lemma SameIndex(sites: map<nat, map<EntityId, Ptr>>, live: map<Ptr, Ptr>, sessions: map<Ptr, SessionSide>,
                  live': map<Ptr, Ptr>, sessions': map<Ptr, SessionSide>)
    requires IndexAgrees(sites, live, sessions) && live'.Keys == live.Keys
    requires forall s :: s in live ==> (s in sessions <==> s in sessions')
    requires forall s :: s in live && s in sessions ==> sessions'[s].entity == sessions[s].entity
    ensures IndexAgrees(sites, live', sessions')
  {
    hide SiteOf, IsInUse;
    forall site, id ensures EntryAgrees(sites, live', sessions', site, id) {
      assert EntryAgrees(sites, live, sessions, site, id);
    }
    forall s ensures IsIndexed(sites, live', sessions', s) {
      assert IsIndexed(sites, live, sessions, s);
    }
  }

  lemma RequestsKeepTables(r: State, next: State, doomed: seq<Ptr>)
    requires OnlyRequests(r, next) && TablesAgree(r, doomed)
    ensures TablesAgree(next, doomed)
  {
    hide MapsAgree, IndexAgrees;
    RequestsKeepMaps(r, next);
    RequestsKeepIndex(r, next);
    RequestsKeepRest(r, next, doomed);
  }

  lemma RequestsKeepRest(r: State, next: State, doomed: seq<Ptr>)
    requires OnlyRequests(r, next)
    requires SplitAgrees(r.sessionToConnection, doomed, r.sessions) && CountsAgree(r)
    ensures SplitAgrees(next.sessionToConnection, doomed, next.sessions) && CountsAgree(next)
  {
  }

  /** Whether a request is queued, given who is about to be destroyed. */
  predicate Queues(r: State, session: Ptr) {
    session in r.sessions && !r.sessions[session].requested && session != 0 && session !in r.pendingDeletes
  }

  lemma WakeChangesRequests(r: State, session: Ptr)
    ensures OnlyRequests(r, Wake(r, session))
    ensures Wake(r, session).pendingActions == r.pendingActions + (if Queues(r, session) then [session] else [])
    ensures forall s :: s in r.sessions ==>
      Wake(r, session).sessions[s].requested == (r.sessions[s].requested || s == session)
  {
  }

  lemma WakeKeepsQueue(r: State, session: Ptr, local: seq<Ptr>)
    requires QueueAgrees(r.pendingActions + local, r.sessionToConnection, r.sessions)
    requires 0 !in r.sessions && forall s :: s in r.pendingDeletes ==> s !in r.sessionToConnection
    ensures var next := Wake(r, session);
      QueueAgrees(next.pendingActions + local, next.sessionToConnection, next.sessions)
  {
    hide Wake;
    WakeChangesRequests(r, session);
    var next := Wake(r, session);
    var before, after := r.pendingActions + local, next.pendingActions + local;
    forall s ensures s in after <==> s in before || (s == session && Queues(r, session)) {}
    if Queues(r, session) {
      assert session !in before;
      InsertKeepsNoRepeats(r.pendingActions, local, session);
      assert after == r.pendingActions + [session] + local;
    } else {
      assert after == before;
    }
    assert NoRepeats(after);
    assert forall s :: s in after ==> s in next.sessions && next.sessions[s].requested;
  }

  lemma InsertKeepsNoRepeats(a: seq<Ptr>, b: seq<Ptr>, x: Ptr)
    requires NoRepeats(a + b) && x !in a + b
    ensures NoRepeats(a + [x] + b)
  {
    var all := a + [x] + b;
    forall i, j | 0 <= i < j < |all| ensures all[i] != all[j] {
      var i' := if i > |a| then i - 1 else i;
      var j' := if j > |a| then j - 1 else j;
      assert i != |a| ==> all[i] == (a + b)[i'];
      assert j != |a| ==> all[j] == (a + b)[j'];
    }
  }

  lemma WakeKeeps(r: State, session: Ptr, doomed: seq<Ptr>, local: seq<Ptr>)
    requires Agrees(r, doomed, r.pendingActions + local)
    requires forall s :: s in r.pendingDeletes ==> s !in r.sessionToConnection
    ensures var next := Wake(r, session);
      && Agrees(next, doomed, next.pendingActions + local) && OnlyRequests(r, next)
  {
    hide TablesAgree, QueueAgrees, Wake;
    assert 0 !in r.sessions by { NullIsNoSession(r, doomed); }
    WakeChangesRequests(r, session);
    RequestsKeepTables(r, Wake(r, session), doomed);
    WakeKeepsQueue(r, session, local);
  }

  lemma NullIsNoSession(r: State, doomed: seq<Ptr>)
    requires TablesAgree(r, doomed)
    ensures 0 !in r.sessions
  {
  }

  lemma {:induction false} WakeAllChangesRequests(r: State, woken: seq<Ptr>)
    ensures OnlyRequests(r, WakeAll(r, woken))
    decreases woken
  {
    hide Wake;
    if woken != [] {
      WakeChangesRequests(r, woken[0]);
      WakeAllChangesRequests(Wake(r, woken[0]), woken[1..]);
    }
  }

  lemma {:induction false} WakeAllKeeps(r: State, woken: seq<Ptr>, doomed: seq<Ptr>, local: seq<Ptr>)
    requires Agrees(r, doomed, r.pendingActions + local)
    requires forall s :: s in r.pendingDeletes ==> s !in r.sessionToConnection
    ensures var next := WakeAll(r, woken);
      && Agrees(next, doomed, next.pendingActions + local) && OnlyRequests(r, next)
    decreases woken
  {
    hide Agrees, Wake;
    if woken != [] {
      WakeKeeps(r, woken[0], doomed, local);
      WakeAllKeeps(Wake(r, woken[0]), woken[1..], doomed, local);
    }
  }

  // ----- Who has asked -----

  lemma WakeSets(r: State, session: Ptr, s: Ptr)
    requires s in r.sessions
    ensures var next := Wake(r, session);
      && s in next.sessions && next.sessions[s].requested == (r.sessions[s].requested || s == session)
      && next.sessionToConnection == r.sessionToConnection && next.pendingDeletes == r.pendingDeletes
  {
  }

  lemma {:induction false} WakeAllSets(r: State, woken: seq<Ptr>, s: Ptr)
    requires s in r.sessions
    ensures var next := WakeAll(r, woken);
      && s in next.sessions && next.sessions[s].requested == (r.sessions[s].requested || s in woken)
      && next.sessionToConnection == r.sessionToConnection
    decreases woken
  {
    hide Wake;
    if woken != [] {
      WakeSets(r, woken[0], s);
      WakeAllSets(Wake(r, woken[0]), woken[1..], s);
      assert s in woken <==> s == woken[0] || s in woken[1..];
    }
  }

  lemma ServiceOneSets(r: State, session: Ptr, woken: seq<Ptr>, s: Ptr)
    requires s in r.sessions
    ensures var next := ServiceOne(r, session, woken);
      && s in next.sessions && next.sessionToConnection == r.sessionToConnection
      && (session in r.sessions ==>
            next.sessions[s].requested == ((r.sessions[s].requested && s != session) || s in woken))
  {
    hide WakeAll;
    if session in r.sessions {
      WakeAllSets(r.(sessions := r.sessions[session := r.sessions[session].(requested := false)]), woken, s);
    }
  }

  // ----- Removing and adding sessions -----

  lemma RemoveEntityAt(r: State, id: EntityId, site: nat)
    requires IsInUse(r.siteToSessions, site)
    ensures var sites := RemoveEntity(r, id).siteToSessions;
      && IsInUse(sites, site)
      && SiteOf(sites, site) == (if site == id.site then SiteOf(r.siteToSessions, site) - {id} else SiteOf(r.siteToSessions, site))
    ensures RemoveEntity(r, id) == r.(siteToSessions := RemoveEntity(r, id).siteToSessions)
  {
  }

  lemma RemovedIndex(r: State, session: Ptr)
    requires IndexAgrees(r.siteToSessions, r.sessionToConnection, r.sessions)
    requires session in r.sessionToConnection && session in r.sessions
    ensures var next := RemoveEntity(r, r.sessions[session].entity);
      IndexAgrees(next.siteToSessions, r.sessionToConnection - {session}, r.sessions)
  {
    hide RemoveEntity, SiteOf, IsInUse;
    var id := r.sessions[session].entity;
    var sites, live := RemoveEntity(r, id).siteToSessions, r.sessionToConnection - {session};
    forall site ensures IsInUse(sites, site) {
      assert IsInUse(r.siteToSessions, site);
      RemoveEntityAt(r, id, site);
    }
    forall site, other ensures EntryAgrees(sites, live, r.sessions, site, other) {
      assert IsInUse(r.siteToSessions, site);
      assert EntryAgrees(r.siteToSessions, r.sessionToConnection, r.sessions, site, other);
      RemoveEntityAt(r, id, site);
    }
    forall s ensures IsIndexed(sites, live, r.sessions, s) {
      assert IsIndexed(r.siteToSessions, r.sessionToConnection, r.sessions, s);
      assert IsIndexed(r.siteToSessions, r.sessionToConnection, r.sessions, session);
      if s in live && s in r.sessions {
        assert IsInUse(r.siteToSessions, r.sessions[s].entity.site);
        RemoveEntityAt(r, id, r.sessions[s].entity.site);
      }
    }
  }

  lemma RemovedMaps(r: State, session: Ptr)
    requires MapsAgree(r.connectionToSession, r.sessionToConnection, r.sessions, r.names)
    requires session in r.sessionToConnection
    ensures MapsAgree(r.connectionToSession, r.sessionToConnection - {session}, r.sessions, r.names)
    ensures session in r.sessions && NameOf(r, r.sessionToConnection[session]) == r.sessions[session].entity
  {
  }

  lemma CountsIgnoreTables(r: State, next: State)
    requires CountsAgree(r) && next.registered == r.registered && next.released == r.released
    requires next.created == r.created && next.destroyed == r.destroyed
    requires next.connectionToSession.Keys == r.connectionToSession.Keys && next.sessions.Keys == r.sessions.Keys
    ensures CountsAgree(next)
  {
  }

  lemma RemoveKeepsTables(r: State, session: Ptr)
    requires TablesAgree(r, r.pendingDeletes)
    ensures var next := RemoveSession(r, session);
      && TablesAgree(next, next.pendingDeletes) && next.sessions == r.sessions
      && next.connectionToSession == r.connectionToSession && session !in next.sessionToConnection
  {
    hide IndexAgrees, RemoveEntity, SplitAgrees, SiteOf, MapsAgree, CountsAgree, NameOf;
    var next := RemoveSession(r, session);
    IndexHasNoEmptySite(r);
    if session in r.sessionToConnection {
      RemovedMaps(r, session);
      var id := r.sessions[session].entity;
      RemoveEntityAt(r, id, id.site);
      RemovedIndex(r, session);
      RemovedSplit(r, session);
      CountsIgnoreTables(r, next);
    }
  }

  /** Removing takes the session out of the live ones and leaves the queue alone. */
  lemma RemoveShape(r: State, session: Ptr)
    ensures var next := RemoveSession(r, session);
      && (next.sessionToConnection == r.sessionToConnection || next.sessionToConnection == r.sessionToConnection - {session})
      && next.pendingActions == r.pendingActions && next.sessions == r.sessions && next.misuses == r.misuses
  {
  }

  lemma RemoveKeeps(r: State, session: Ptr)
    requires Inv(r)
    ensures Inv(RemoveSession(r, session))
  {
    hide TablesAgree, QueueAgrees, RemoveSession;
    RemoveKeepsTables(r, session);
    RemoveShape(r, session);
    RemovedQueue(r, session);
  }

  lemma IndexHasNoEmptySite(r: State)
    requires TablesAgree(r, r.pendingDeletes)
    ensures forall site :: IsInUse(r.siteToSessions, site)
    ensures 0 !in r.sessionToConnection
  {
  }

  lemma RemovedQueue(r: State, session: Ptr)
    requires QueueAgrees(r.pendingActions, r.sessionToConnection, r.sessions)
    ensures QueueAgrees(r.pendingActions, r.sessionToConnection - {session}, r.sessions)
  {
  }

  lemma RemovedSplit(r: State, session: Ptr)
    requires SplitAgrees(r.sessionToConnection, r.pendingDeletes, r.sessions) && session in r.sessionToConnection
    ensures SplitAgrees(r.sessionToConnection - {session}, r.pendingDeletes + [session], r.sessions)
  {
  }

  /** After a disconnect the entity has no session. */
  lemma DisconnectKeepsTables(r: State, id: EntityId)
    requires TablesAgree(r, r.pendingDeletes)
    ensures var next := DisconnectSession(r, id);
      && TablesAgree(next, next.pendingDeletes) && GetEntitySession(next, id) == 0 && next.sessions == r.sessions
      && next.connectionToSession == r.connectionToSession
  {
    hide MapsAgree, SplitAgrees, CountsAgree;
    var session := GetEntitySession(r, id);
    RemoveKeepsTables(r, session);
    if session != 0 {
      FoundIsLive(r, id);
      var next := RemoveSession(r, session);
      if GetEntitySession(next, id) != 0 { FoundIsLive(next, id); }
    }
  }

  lemma DisconnectKeeps(r: State, id: EntityId)
    requires Inv(r)
    ensures Inv(DisconnectSession(r, id))
  {
    hide Inv, GetEntitySession, RemoveSession;
    RemoveKeeps(r, GetEntitySession(r, id));
  }

  lemma FoundIsLive(r: State, id: EntityId)
    requires IndexAgrees(r.siteToSessions, r.sessionToConnection, r.sessions) && GetEntitySession(r, id) != 0
    ensures var s := GetEntitySession(r, id);
      s in r.sessionToConnection && s in r.sessions && r.sessions[s].entity == id && id != DEFAULT_ID
  {
    assert EntryAgrees(r.siteToSessions, r.sessionToConnection, r.sessions, id.site, id);
  }

  lemma NothingAtZero(r: State, id: EntityId)
    requires TablesAgree(r, r.pendingDeletes) && GetEntitySession(r, id) == 0
    ensures id !in SiteOf(r.siteToSessions, id.site)
  {
    hide MapsAgree, CountsAgree;
    assert EntryAgrees(r.siteToSessions, r.sessionToConnection, r.sessions, id.site, id);
  }

  /** Everything about a new session and its connection is new. */
  predicate Fresh(r: State, driver: Ptr, connection: Ptr, session: Ptr) {
    driver != 0 && connection != 0 && connection !in r.connectionToSession && session != 0 && session !in r.sessions
  }

  /** A session is made for an entity that has none, and entered. */
  function Enter(r: State, driver: Ptr, connection: Ptr, id: EntityId, session: Ptr): State {
    AddSession(
      r.(sessions := r.sessions[session := SessionSide(connection, false, id)],
         created := r.created + multiset{session},
         names := r.names[connection := id]),
      driver, connection, session, id)
  }

  lemma EnterShape(r: State, driver: Ptr, connection: Ptr, id: EntityId, session: Ptr)
    requires Fresh(r, driver, connection, session) && id != DEFAULT_ID && session !in r.sessionToConnection
    ensures Enter(r, driver, connection, id, session) == r.(
      sessions := r.sessions[session := SessionSide(connection, false, id)],
      created := r.created + multiset{session},
      names := r.names[connection := id],
      registered := r.registered + multiset{connection},
      connectionToSession := r.connectionToSession[connection := (driver, session)],
      sessionToConnection := r.sessionToConnection[session := connection],
      siteToSessions := r.siteToSessions[id.site := SiteOf(r.siteToSessions, id.site)[id := session]])
  {
  }

  lemma EnteredIndex(sites: map<nat, map<EntityId, Ptr>>, live: map<Ptr, Ptr>, sessions: map<Ptr, SessionSide>,
                     connection: Ptr, id: EntityId, session: Ptr)
    requires IndexAgrees(sites, live, sessions) && id !in SiteOf(sites, id.site) && id != DEFAULT_ID
    requires session !in sessions && session !in live
    ensures IndexAgrees(
      sites[id.site := SiteOf(sites, id.site)[id := session]], live[session := connection],
      sessions[session := SessionSide(connection, false, id)])
  {
    var more := sites[id.site := SiteOf(sites, id.site)[id := session]];
    var live', sessions' := live[session := connection], sessions[session := SessionSide(connection, false, id)];
    forall site ensures IsInUse(more, site) {
      assert IsInUse(sites, site);
      assert id in more[id.site];
    }
    forall site, other ensures EntryAgrees(more, live', sessions', site, other) {
      assert EntryAgrees(sites, live, sessions, site, other);
    }
    forall s ensures IsIndexed(more, live', sessions', s) {
      assert IsIndexed(sites, live, sessions, s);
    }
  }

  lemma EnteredMaps(r: State, driver: Ptr, connection: Ptr, id: EntityId, session: Ptr)
    requires MapsAgree(r.connectionToSession, r.sessionToConnection, r.sessions, r.names)
    requires Fresh(r, driver, connection, session)
    ensures MapsAgree(
      r.connectionToSession[connection := (driver, session)], r.sessionToConnection[session := connection],
      r.sessions[session := SessionSide(connection, false, id)], r.names[connection := id])
  {
  }

  lemma EnteredSplit(r: State, driver: Ptr, connection: Ptr, id: EntityId, session: Ptr)
    requires SplitAgrees(r.sessionToConnection, r.pendingDeletes, r.sessions)
    requires Fresh(r, driver, connection, session)
    ensures SplitAgrees(r.sessionToConnection[session := connection], r.pendingDeletes,
                        r.sessions[session := SessionSide(connection, false, id)])
  {
  }

  lemma EnteredQueue(r: State, driver: Ptr, connection: Ptr, id: EntityId, session: Ptr)
    requires QueueAgrees(r.pendingActions, r.sessionToConnection, r.sessions)
    requires Fresh(r, driver, connection, session)
    ensures QueueAgrees(r.pendingActions, r.sessionToConnection[session := connection],
                        r.sessions[session := SessionSide(connection, false, id)])
  {
  }

  lemma EnteredCounts(r: State, next: State, driver: Ptr, connection: Ptr, id: EntityId, session: Ptr)
    requires CountsAgree(r) && Fresh(r, driver, connection, session)
    requires next.registered == r.registered + multiset{connection} && next.created == r.created + multiset{session}
    requires next.released == r.released && next.destroyed == r.destroyed
    requires next.connectionToSession.Keys == r.connectionToSession.Keys + {connection}
    requires next.sessions.Keys == r.sessions.Keys + {session}
    ensures CountsAgree(next)
  {
  }

  lemma EnterKeepsTables(r: State, driver: Ptr, connection: Ptr, id: EntityId, session: Ptr)
    requires TablesAgree(r, r.pendingDeletes)
    requires Fresh(r, driver, connection, session) && id != DEFAULT_ID && GetEntitySession(r, id) == 0
    ensures var next := Enter(r, driver, connection, id, session); TablesAgree(next, next.pendingDeletes)
    ensures session !in r.sessionToConnection
  {
    hide IndexAgrees, MapsAgree, CountsAgree, AddSession;
    NothingAtZero(r, id);
    EnterShape(r, driver, connection, id, session);
    EnteredIndex(r.siteToSessions, r.sessionToConnection, r.sessions, connection, id, session);
    EnteredMaps(r, driver, connection, id, session);
    EnteredSplit(r, driver, connection, id, session);
    EnteredCounts(r, Enter(r, driver, connection, id, session), driver, connection, id, session);
  }

  lemma EnterKeeps(r: State, driver: Ptr, connection: Ptr, id: EntityId, session: Ptr)
    requires Inv(r) && Fresh(r, driver, connection, session) && id != DEFAULT_ID && GetEntitySession(r, id) == 0
    ensures Inv(Enter(r, driver, connection, id, session))
  {
    hide TablesAgree, QueueAgrees, AddSession;
    EnterKeepsTables(r, driver, connection, id, session);
    EnterShape(r, driver, connection, id, session);
    EnteredQueue(r, driver, connection, id, session);
  }

  lemma AuthorizeKeepsTables(r: State, driver: Ptr, connection: Ptr, id: EntityId, session: Ptr)
    requires TablesAgree(r, r.pendingDeletes) && Fresh(r, driver, connection, session)
    ensures var next := Authorize(r, driver, connection, id, session); TablesAgree(next, next.pendingDeletes)
  {
    hide TablesAgree, AddSession, DisconnectSession;
    if id != DEFAULT_ID {
      DisconnectKeepsTables(r, id);
      EnterKeepsTables(DisconnectSession(r, id), driver, connection, id, session);
    }
  }

  lemma AuthorizeKeeps(r: State, driver: Ptr, connection: Ptr, id: EntityId, session: Ptr)
    requires Inv(r) && Fresh(r, driver, connection, session)
    ensures Inv(Authorize(r, driver, connection, id, session))
  {
    hide TablesAgree, QueueAgrees, AddSession, DisconnectSession;
    if id != DEFAULT_ID {
      DisconnectKeepsTables(r, id);
      DisconnectKeeps(r, id);
      EnterKeeps(DisconnectSession(r, id), driver, connection, id, session);
    }
  }

  // ----- Reconnecting -----

  /** A live session is given a new connection; its former one went back to its driver. */
  function Reconnect(r: State, driver: Ptr, connection: Ptr, id: EntityId, session: Ptr): State
    requires session in r.sessions && session in r.sessionToConnection
  {
    r.(released := r.released + multiset{r.sessionToConnection[session]},
       sessions := r.sessions[session := r.sessions[session].(client := connection)],
       names := r.names[connection := id],
       registered := r.registered + multiset{connection},
       sessionToConnection := r.sessionToConnection[session := connection],
       connectionToSession := (r.connectionToSession - {r.sessionToConnection[session]})[connection := (driver, session)])
  }

  /** Once the session has its new connection, and before the maps do. */
  function Moved(r: State, connection: Ptr, session: Ptr): State
    requires session in r.sessions && session in r.sessionToConnection
  {
    r.(released := r.released + multiset{r.sessionToConnection[session]},
       connectionToSession := r.connectionToSession - {r.sessionToConnection[session]},
       sessions := r.sessions[session := r.sessions[session].(client := connection)])
  }

  function Woken(sessions: map<Ptr, SessionSide>, session: Ptr): map<Ptr, SessionSide> {
    if session !in sessions || sessions[session].requested then sessions
    else sessions[session := sessions[session].(requested := true)]
  }

  lemma WakeShape(r: State, session: Ptr)
    ensures Wake(r, session) == r.(
      sessions := Woken(r.sessions, session),
      pendingActions := r.pendingActions + (if Queues(r, session) then [session] else []))
  {
  }

  /** What a session that is not known yet changes by being added. */
  lemma EntryShape(r: State, driver: Ptr, connection: Ptr, id: EntityId, session: Ptr)
    requires session !in r.sessionToConnection && session != 0 && connection != 0 && id != DEFAULT_ID
    ensures AddSession(r, driver, connection, session, id) == r.(
      names := r.names[connection := id],
      registered := r.registered + multiset{connection},
      sessionToConnection := r.sessionToConnection[session := connection],
      connectionToSession := r.connectionToSession[connection := (driver, session)],
      siteToSessions := AddEntity(r, id, session).siteToSessions)
  {
  }

  /** What a session that is known already changes by being added again. */
  lemma UpdateShape(r: State, driver: Ptr, connection: Ptr, id: EntityId, session: Ptr)
    requires session in r.sessionToConnection && session != 0 && connection != 0 && id != DEFAULT_ID
    ensures AddSession(r, driver, connection, session, id) == r.(
      names := r.names[connection := id],
      registered := r.registered + multiset{connection},
      sessionToConnection := r.sessionToConnection[session := connection],
      connectionToSession := (r.connectionToSession - {r.sessionToConnection[session]})[connection := (driver, session)])
  {
  }

  lemma EnteringIgnoresRequests(r: State, driver: Ptr, connection: Ptr, id: EntityId, session: Ptr)
    requires session in r.sessionToConnection && session != 0 && connection != 0 && id != DEFAULT_ID
    ensures AddSession(Wake(r, session), driver, connection, session, id)
      == Wake(AddSession(r, driver, connection, session, id), session)
  {
    hide AddSession, Wake, Woken;
    WakeShape(r, session);
    UpdateShape(r, driver, connection, id, session);
    UpdateShape(Wake(r, session), driver, connection, id, session);
    WakeShape(AddSession(r, driver, connection, session, id), session);
  }

  lemma MovedThenEntered(r: State, driver: Ptr, connection: Ptr, id: EntityId, session: Ptr)
    requires session in r.sessions && session in r.sessionToConnection
    requires session != 0 && connection != 0 && id != DEFAULT_ID
    ensures AddSession(Moved(r, connection, session), driver, connection, session, id)
      == Reconnect(r, driver, connection, id, session)
  {
  }

  /** The new connection is entered first in the session, then in the maps; in between it asks for service. */
  lemma ReauthorizeShape(r: State, driver: Ptr, connection: Ptr, id: EntityId, session: Ptr)
    requires MapsAgree(r.connectionToSession, r.sessionToConnection, r.sessions, r.names)
    requires session in r.sessionToConnection && session != 0 && connection != 0 && id != DEFAULT_ID
    ensures session in r.sessions
    ensures AddSession(SetConnection(r, session, connection), driver, connection, session, id)
      == Wake(Reconnect(r, driver, connection, id, session), session)
  {
    hide AddSession, Wake, Reconnect;
    assert r.sessionToConnection[session] != 0;
    assert SetConnection(r, session, connection) == Wake(Moved(r, connection, session), session);
    EnteringIgnoresRequests(Moved(r, connection, session), driver, connection, id, session);
    MovedThenEntered(r, driver, connection, id, session);
  }

  lemma ReconnectedMaps(r: State, driver: Ptr, connection: Ptr, id: EntityId, session: Ptr)
    requires MapsAgree(r.connectionToSession, r.sessionToConnection, r.sessions, r.names)
    requires session in r.sessionToConnection && connection != 0 && connection !in r.connectionToSession
    requires session in r.sessions && r.sessions[session].entity == id
    ensures var next := Reconnect(r, driver, connection, id, session);
      MapsAgree(next.connectionToSession, next.sessionToConnection, next.sessions, next.names)
  {
  }

  lemma ReconnectedIndex(sites: map<nat, map<EntityId, Ptr>>, live: map<Ptr, Ptr>, sessions: map<Ptr, SessionSide>,
                         session: Ptr, connection: Ptr)
    requires IndexAgrees(sites, live, sessions) && session in live && session in sessions
    ensures IndexAgrees(
      sites, live[session := connection], sessions[session := sessions[session].(client := connection)])
  {
    hide IndexAgrees;
    SameIndex(sites, live, sessions, live[session := connection],
              sessions[session := sessions[session].(client := connection)]);
  }

  lemma ReconnectedSplit(r: State, session: Ptr, connection: Ptr)
    requires SplitAgrees(r.sessionToConnection, r.pendingDeletes, r.sessions)
    requires session in r.sessionToConnection && session in r.sessions
    ensures SplitAgrees(r.sessionToConnection[session := connection], r.pendingDeletes,
                        r.sessions[session := r.sessions[session].(client := connection)])
  {
  }

  lemma ReconnectedQueue(r: State, session: Ptr, connection: Ptr)
    requires QueueAgrees(r.pendingActions, r.sessionToConnection, r.sessions)
    requires session in r.sessionToConnection && session in r.sessions
    ensures QueueAgrees(r.pendingActions, r.sessionToConnection[session := connection],
                        r.sessions[session := r.sessions[session].(client := connection)])
  {
  }

  lemma ReconnectedCounts(r: State, driver: Ptr, connection: Ptr, id: EntityId, session: Ptr)
    requires CountsAgree(r) && session in r.sessions && session in r.sessionToConnection
    requires r.sessionToConnection[session] in r.connectionToSession && connection !in r.connectionToSession
    ensures CountsAgree(Reconnect(r, driver, connection, id, session))
  {
  }

  lemma ReconnectKeepsTables(r: State, driver: Ptr, connection: Ptr, id: EntityId, session: Ptr)
    requires TablesAgree(r, r.pendingDeletes)
    requires session in r.sessionToConnection && connection != 0 && connection !in r.connectionToSession
    requires session in r.sessions && r.sessions[session].entity == id
    ensures TablesAgree(Reconnect(r, driver, connection, id, session), r.pendingDeletes)
  {
    hide IndexAgrees, CountsAgree, SplitAgrees;
    ReconnectedMaps(r, driver, connection, id, session);
    ReconnectedIndex(r.siteToSessions, r.sessionToConnection, r.sessions, session, connection);
    ReconnectedSplit(r, session, connection);
    ReconnectedCounts(r, driver, connection, id, session);
  }

  lemma ReconnectKeeps(r: State, driver: Ptr, connection: Ptr, id: EntityId, session: Ptr)
    requires Inv(r) && session in r.sessionToConnection && connection != 0 && connection !in r.connectionToSession
    requires session in r.sessions && r.sessions[session].entity == id
    ensures Inv(Reconnect(r, driver, connection, id, session))
  {
    hide TablesAgree, QueueAgrees;
    ReconnectKeepsTables(r, driver, connection, id, session);
    ReconnectedQueue(r, session, connection);
  }

  lemma DoomedAreNotLive(r: State)
    requires TablesAgree(r, r.pendingDeletes)
    ensures forall s :: s in r.pendingDeletes ==> s !in r.sessionToConnection
  {
  }

  lemma WakeKeepsInv(r: State, session: Ptr)
    requires Inv(r)
    ensures Inv(Wake(r, session))
  {
    hide TablesAgree, QueueAgrees, Wake;
    assert r.pendingActions + [] == r.pendingActions;
    DoomedAreNotLive(r);
    WakeKeeps(r, session, r.pendingDeletes, []);
    assert Wake(r, session).pendingActions + [] == Wake(r, session).pendingActions;
  }

  lemma ReauthorizeKeepsTables(r: State, driver: Ptr, connection: Ptr, id: EntityId, makeNew: bool, session: Ptr)
    requires TablesAgree(r, r.pendingDeletes) && Fresh(r, driver, connection, session)
    ensures var next := Reauthorize(r, driver, connection, id, makeNew, session); TablesAgree(next, next.pendingDeletes)
  {
    hide IndexAgrees, CountsAgree, SplitAgrees, MapsAgree, AddSession, SetConnection, Authorize, Wake, Reconnect,
      GetEntitySession;
    AuthorizeKeepsTables(r, driver, connection, id, session);
    var existing := GetEntitySession(r, id);
    if existing != 0 && id != DEFAULT_ID {
      FoundIsLive(r, id);
      ReauthorizeShape(r, driver, connection, id, existing);
      ReconnectKeepsTables(r, driver, connection, id, existing);
      var moved := Reconnect(r, driver, connection, id, existing);
      assert moved.pendingDeletes == r.pendingDeletes by { ReconnectLeaves(r, driver, connection, id, existing); }
      WakeChangesRequests(moved, existing);
      RequestsKeepTables(moved, Wake(moved, existing), r.pendingDeletes);
    }
  }

  lemma ReconnectLeaves(r: State, driver: Ptr, connection: Ptr, id: EntityId, session: Ptr)
    requires session in r.sessions && session in r.sessionToConnection
    ensures Reconnect(r, driver, connection, id, session).pendingDeletes == r.pendingDeletes
  {
  }

  lemma ReauthorizeKeeps(r: State, driver: Ptr, connection: Ptr, id: EntityId, makeNew: bool, session: Ptr)
    requires Inv(r) && Fresh(r, driver, connection, session)
    ensures Inv(Reauthorize(r, driver, connection, id, makeNew, session))
  {
    hide IndexAgrees, QueueAgrees, CountsAgree, SplitAgrees, MapsAgree, AddSession, SetConnection, Authorize, Wake,
      Reconnect,
      GetEntitySession;
    AuthorizeKeeps(r, driver, connection, id, session);
    var existing := GetEntitySession(r, id);
    if existing != 0 && id != DEFAULT_ID {
      FoundIsLive(r, id);
      ReauthorizeShape(r, driver, connection, id, existing);
      ReconnectKeeps(r, driver, connection, id, existing);
      WakeKeepsInv(Reconnect(r, driver, connection, id, existing), existing);
    }
  }

  // ----- Servicing -----

  lemma ServedQueue(queue: seq<Ptr>, rest: seq<Ptr>, session: Ptr, live: map<Ptr, Ptr>, sessions: map<Ptr, SessionSide>)
    requires session in sessions
    requires QueueAgrees(queue + ([session] + rest), live, sessions)
    ensures QueueAgrees(queue + rest, live, sessions[session := sessions[session].(requested := false)])
  {
    var all, some := queue + ([session] + rest), queue + rest;
    assert forall i :: 0 <= i < |some| ==> some[i] == all[if i < |queue| then i else i + 1];
    assert forall s :: s in all <==> s in some || s == session;
    assert all[|queue|] == session;
  }

  lemma ServiceOneKeeps(r: State, session: Ptr, woken: seq<Ptr>, rest: seq<Ptr>)
    requires Agrees(r, r.pendingDeletes, r.pendingActions + ([session] + rest))
    ensures var next := ServiceOne(r, session, woken);
      && Agrees(next, next.pendingDeletes, next.pendingActions + rest) && next.pendingDeletes == r.pendingDeletes
      && next.sessionToConnection == r.sessionToConnection
  {
    hide TablesAgree, WakeAll;
    assert session in r.pendingActions + ([session] + rest);
    var taken := r.(sessions := r.sessions[session := r.sessions[session].(requested := false)]);
    DoomedAreNotLive(r);
    RequestsKeepTables(r, taken, r.pendingDeletes);
    ServedQueue(r.pendingActions, rest, session, r.sessionToConnection, r.sessions);
    WakeAllKeeps(taken, woken, r.pendingDeletes, rest);
  }

  /** Servicing one session changes requests, or uses a session that is gone. */
  lemma ServiceOneKeepsTables(r: State, session: Ptr, woken: seq<Ptr>, doomed: seq<Ptr>)
    requires TablesAgree(r, doomed)
    ensures var next := ServiceOne(r, session, woken);
      TablesAgree(next, doomed) && next.pendingDeletes == r.pendingDeletes
  {
    hide TablesAgree, WakeAll;
    if session in r.sessions {
      var taken := r.(sessions := r.sessions[session := r.sessions[session].(requested := false)]);
      RequestsKeepTables(r, taken, doomed);
      WakeAllChangesRequests(taken, woken);
      RequestsKeepTables(taken, WakeAll(taken, woken), doomed);
      WakeAllGrows(taken, woken);
    } else {
      TablesIgnoreMisuse(r, doomed);
    }
  }

  lemma TablesIgnoreMisuse(r: State, doomed: seq<Ptr>)
    requires TablesAgree(r, doomed)
    ensures TablesAgree(r.(misuses := r.misuses + 1), doomed)
  {
  }

  lemma {:induction false} ServiceAllKeepsTables(r: State, queue: seq<Ptr>, wakes: seq<seq<Ptr>>, doomed: seq<Ptr>)
    requires TablesAgree(r, doomed)
    ensures var next := ServiceAll(r, queue, wakes);
      TablesAgree(next, doomed) && next.pendingDeletes == r.pendingDeletes
    decreases queue
  {
    hide TablesAgree, ServiceOne;
    if queue != [] {
      ServiceOneKeepsTables(r, queue[0], WakesAt(wakes), doomed);
      ServiceAllKeepsTables(ServiceOne(r, queue[0], WakesAt(wakes)), queue[1..], Rest(wakes), doomed);
    }
  }

  lemma {:induction false} ServiceAllKeeps(r: State, queue: seq<Ptr>, wakes: seq<seq<Ptr>>)
    requires Agrees(r, r.pendingDeletes, r.pendingActions + queue)
    ensures var next := ServiceAll(r, queue, wakes);
      && Inv(next) && next.pendingDeletes == r.pendingDeletes && next.sessionToConnection == r.sessionToConnection
    decreases queue
  {
    hide Agrees, ServiceOne;
    if queue == [] {
      assert r.pendingActions + [] == r.pendingActions;
    } else {
      assert [queue[0]] + queue[1..] == queue;
      ServiceOneKeeps(r, queue[0], WakesAt(wakes), queue[1..]);
      ServiceAllKeeps(ServiceOne(r, queue[0], WakesAt(wakes)), queue[1..], Rest(wakes));
    }
  }

  // ----- Destroying -----

  predicate IsRequested(r: State, session: Ptr) {
    session in r.sessions && r.sessions[session].requested
  }

  /** One of the sessions about to be destroyed is woken, and had not asked before. */
  predicate HarmsNow(r: State, doomed: seq<Ptr>, woken: seq<Ptr>) {
    exists k :: 0 <= k < |woken| && woken[k] in doomed && !IsRequested(r, woken[k])
  }

  /** No session about to be destroyed is queued. */
  predicate Clean(queue: seq<Ptr>, doomed: seq<Ptr>) {
    forall s :: s in queue ==> s !in doomed
  }

  lemma {:induction false} WakeAllQueues(r: State, woken: seq<Ptr>, doomed: seq<Ptr>)
    requires r.pendingDeletes == [] && 0 !in doomed && forall s :: s in doomed ==> s in r.sessions
    requires Clean(r.pendingActions, doomed)
    ensures var next := WakeAll(r, woken);
      && r.pendingActions <= next.pendingActions
      && (Clean(next.pendingActions, doomed) <==> !HarmsNow(r, doomed, woken))
      && (!HarmsNow(r, doomed, woken) ==> forall s :: s in doomed ==> (IsRequested(next, s) <==> IsRequested(r, s)))
    decreases woken
  {
    if woken != [] {
      var mid := Wake(r, woken[0]);
      if woken[0] in doomed && !IsRequested(r, woken[0]) {
        WakeAllGrows(mid, woken[1..]);
        assert woken[0] in mid.pendingActions;
      } else {
        assert HarmsNow(r, doomed, woken) <==> HarmsNow(mid, doomed, woken[1..]) by {
          HarmsLater(r, mid, doomed, woken);
        }
        WakeAllQueues(mid, woken[1..], doomed);
      }
    }
  }

  lemma HarmsLater(r: State, mid: State, doomed: seq<Ptr>, woken: seq<Ptr>)
    requires woken != [] && !(woken[0] in doomed && !IsRequested(r, woken[0]))
    requires forall s :: s in doomed ==> (IsRequested(mid, s) <==> IsRequested(r, s))
    ensures HarmsNow(r, doomed, woken) <==> HarmsNow(mid, doomed, woken[1..])
  {
  }

  lemma {:induction false} WakeAllGrows(r: State, woken: seq<Ptr>)
    ensures r.pendingActions <= WakeAll(r, woken).pendingActions
    ensures WakeAll(r, woken).sessions.Keys == r.sessions.Keys
    ensures WakeAll(r, woken).pendingDeletes == r.pendingDeletes
    decreases woken
  {
    if woken != [] { WakeAllGrows(Wake(r, woken[0]), woken[1..]); }
  }

  /** While sessions are being destroyed. */
  ghost predicate Destroying(r: State, doomed: seq<Ptr>) {
    r.pendingDeletes == [] && Agrees(r, doomed, r.pendingActions) && Clean(r.pendingActions, doomed)
  }

  lemma DestroyedSplit(live: map<Ptr, Ptr>, doomed: seq<Ptr>, sessions: map<Ptr, SessionSide>)
    requires doomed != [] && SplitAgrees(live, doomed, sessions)
    ensures SplitAgrees(live, doomed[1..], sessions - {doomed[0]})
    ensures doomed[0] in sessions && doomed[0] !in live && doomed[0] !in doomed[1..]
  {
  }

  lemma DestroyedMaps(r: State, session: Ptr)
    requires MapsAgree(r.connectionToSession, r.sessionToConnection, r.sessions, r.names)
    requires session in r.sessions && session !in r.sessionToConnection
    ensures MapsAgree(
      r.connectionToSession - {r.sessions[session].client}, r.sessionToConnection, r.sessions - {session}, r.names)
  {
  }

  lemma DestroyedIndex(sites: map<nat, map<EntityId, Ptr>>, live: map<Ptr, Ptr>, sessions: map<Ptr, SessionSide>,
                       session: Ptr)
    requires IndexAgrees(sites, live, sessions) && session !in live
    ensures IndexAgrees(sites, live, sessions - {session})
  {
    hide IndexAgrees;
    SameIndex(sites, live, sessions, live, sessions - {session});
  }

  lemma DestroyedQueue(queue: seq<Ptr>, live: map<Ptr, Ptr>, sessions: map<Ptr, SessionSide>, session: Ptr)
    requires QueueAgrees(queue, live, sessions) && session !in queue && session !in live
    ensures QueueAgrees(queue, live, sessions - {session})
  {
  }

  lemma DestroyedCounts(r: State, next: State, session: Ptr)
    requires CountsAgree(r) && session in r.sessions
    requires MapsAgree(r.connectionToSession, r.sessionToConnection, r.sessions, r.names)
    requires var client := r.sessions[session].client;
      && next.connectionToSession == r.connectionToSession - {client}
      && next.released == r.released + (if client in r.connectionToSession then multiset{client} else multiset{})
    requires next.sessions == r.sessions - {session} && next.destroyed == r.destroyed + multiset{session}
    requires next.registered == r.registered && next.created == r.created
    ensures CountsAgree(next)
  {
  }

  lemma DestroyOneShape(r: State, session: Ptr, woken: seq<Ptr>)
    requires session in r.sessions && 0 !in r.connectionToSession
    ensures var told := WakeAll(r, woken);
      var client := r.sessions[session].client;
      told.connectionToSession == r.connectionToSession ==>
      DestroyOne(r, session, woken) == told.(
        connectionToSession := told.connectionToSession - {client},
        released := told.released + (if client in told.connectionToSession then multiset{client} else multiset{}),
        sessions := told.sessions - {session}, destroyed := told.destroyed + multiset{session})
  {
  }

  /** Destroying a session keeps the tables and the counts in order, whomever it wakes. */
  lemma DestroyOneKeepsTables(r: State, doomed: seq<Ptr>, woken: seq<Ptr>)
    requires TablesAgree(r, doomed) && doomed != []
    ensures TablesAgree(DestroyOne(r, doomed[0], woken), doomed[1..])
  {
    hide MapsAgree, IndexAgrees, CountsAgree, WakeAll, DestroyOne, SplitAgrees;
    var session, told := doomed[0], WakeAll(r, woken);
    WakeAllChangesRequests(r, woken);
    RequestsKeepTables(r, told, doomed);
    DestroyedSplit(told.sessionToConnection, doomed, told.sessions);
    NoNullConnection(r, doomed);
    DestroyOneShape(r, session, woken);
    DestroyedMaps(told, session);
    DestroyedIndex(told.siteToSessions, told.sessionToConnection, told.sessions, session);
    DestroyedCounts(told, DestroyOne(r, session, woken), session);
  }

  lemma {:induction false} DestroyAllKeepsTables(r: State, doomed: seq<Ptr>, wakes: seq<seq<Ptr>>)
    requires TablesAgree(r, doomed)
    ensures TablesAgree(DestroyAll(r, doomed, wakes), [])
    decreases doomed
  {
    hide TablesAgree, DestroyOne;
    if doomed != [] {
      DestroyOneKeepsTables(r, doomed, WakesAt(wakes));
      DestroyAllKeepsTables(DestroyOne(r, doomed[0], WakesAt(wakes)), doomed[1..], Rest(wakes));
    }
  }

  /** Destroying a session keeps everything in order unless it wakes one that is about to be destroyed. */
  lemma DestroyOneKeeps(r: State, doomed: seq<Ptr>, woken: seq<Ptr>)
    requires Destroying(r, doomed) && doomed != [] && !HarmsNow(r, doomed, woken)
    ensures var next := DestroyOne(r, doomed[0], woken);
      && Destroying(next, doomed[1..])
      && forall s :: s in doomed[1..] ==> (IsRequested(next, s) <==> IsRequested(r, s))
  {
    hide TablesAgree, QueueAgrees, WakeAll, HarmsNow, DestroyOne;
    var session, told := doomed[0], WakeAll(r, woken);
    assert r.pendingActions + [] == r.pendingActions && told.pendingActions + [] == told.pendingActions;
    DestroyOneKeepsTables(r, doomed, woken);
    WakeAllKeeps(r, woken, doomed, []);
    DoomedExist(r, doomed);
    WakeAllQueues(r, woken, doomed);
    NoNullConnection(r, doomed);
    DestroyOneShape(r, session, woken);
    DestroyedQueue(told.pendingActions, told.sessionToConnection, told.sessions, session);
  }

  lemma DoomedExist(r: State, doomed: seq<Ptr>)
    requires TablesAgree(r, doomed)
    ensures 0 !in doomed && NoRepeats(doomed)
    ensures forall s :: s in doomed ==> s in r.sessions && s !in r.sessionToConnection
  {
  }

  lemma NoNullConnection(r: State, doomed: seq<Ptr>)
    requires TablesAgree(r, doomed)
    ensures 0 !in r.connectionToSession
  {
  }
}
