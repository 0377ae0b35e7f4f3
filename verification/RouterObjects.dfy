/** The router as the object it is in the source (comm_RouterSessionManager.cpp): maps, a queue and a list
    updated in place. Every method is proved against the function of the same purpose in `Router`. */
module RouterObjects {
  import opened Basics
  import opened Spec = Router
  import Facts = RouterInvariant

  class RouterSessionManager {
    var connectionToSession: map<Ptr, (Ptr, Ptr)>
    var sessionToConnection: map<Ptr, Ptr>
    var siteToSessions: map<nat, map<EntityId, Ptr>>
    var pendingActions: seq<Ptr>
    var pendingDeletes: seq<Ptr>

    /** What belongs to the sessions and connections themselves. */
    var sessions: map<Ptr, SessionSide>
    var names: map<Ptr, EntityId>

    ghost var registered: multiset<Ptr>
    ghost var released: multiset<Ptr>
    ghost var created: multiset<Ptr>
    ghost var destroyed: multiset<Ptr>
    ghost var misuses: nat

    ghost function View(): State
      reads this
    {
      State(
        connectionToSession, sessionToConnection, siteToSessions, pendingActions, pendingDeletes, sessions, names,
        registered, released, created, destroyed, misuses)
    }

    constructor ()
      ensures View() == Start()
    {
      connectionToSession, sessionToConnection, siteToSessions := map[], map[], map[];
      pendingActions, pendingDeletes := [], [];
      sessions, names := map[], map[];
      registered, released, created, destroyed := multiset{}, multiset{}, multiset{}, multiset{};
      misuses := 0;
    }

    // ----- The site index -----

    method FindEntitySession(id: EntityId) returns (session: Ptr)
      ensures session == GetEntitySession(View(), id)
    {
      session := 0;
      if id.site in siteToSessions && id in siteToSessions[id.site] {
        session := siteToSessions[id.site][id];
      }
    }

    method AddEntitySession(id: EntityId, session: Ptr)
      modifies this`siteToSessions
      ensures View() == AddEntity(old(View()), id, session)
    {
      if id != DEFAULT_ID && session != 0 {
        if id.site !in siteToSessions {
          siteToSessions := siteToSessions[id.site := map[]];
        }
        var index: map<EntityId, Ptr> := siteToSessions[id.site];
        index := index[id := session];
        siteToSessions := siteToSessions[id.site := index];
        assert siteToSessions == AddEntity(old(View()), id, session).siteToSessions;
      }
    }

    method RemoveEntitySession(id: EntityId) returns (found: bool)
      modifies this`siteToSessions
      ensures View() == RemoveEntity(old(View()), id)
      ensures found <==> id in SiteOf(old(siteToSessions), id.site)
    {
      found := false;
      if id.site in siteToSessions && id in siteToSessions[id.site] {
        found := true;
        siteToSessions := siteToSessions[id.site := siteToSessions[id.site] - {id}];
        if siteToSessions[id.site] == map[] {
          siteToSessions := siteToSessions - {id.site};
        }
        assert siteToSessions == RemoveEntity(old(View()), id).siteToSessions;
      }
    }

    /** `get_online_ids` */
    method GetOnlineIds(site: nat) returns (ids: seq<EntityId>)
      ensures forall id :: id in ids <==> id in SiteOf(siteToSessions, site)
      ensures |ids| == |SiteOf(siteToSessions, site)|
    {
      ids := [];
      if site in siteToSessions {
        var left := siteToSessions[site].Keys;
        while left != {}
          invariant left <= siteToSessions[site].Keys
          invariant |ids| + |left| == |siteToSessions[site].Keys|
          invariant forall id :: id in siteToSessions[site] <==> id in ids || id in left
          decreases |left|
        {
          var id :| id in left;
          ids := ids + [id];
          left := left - {id};
        }
        assert |siteToSessions[site].Keys| == |siteToSessions[site]|;
      }
    }

    /** `get_session_online_count` */
    method GetSessionOnlineCount(site: nat) returns (count: nat)
      ensures count == |SiteOf(siteToSessions, site)|
    {
      count := 0;
      if site in siteToSessions {
        count := |siteToSessions[site]|;
      }
    }

    // ----- Sessions and connections -----

    /** A session that is not known yet. */
    method EnterNew(driver: Ptr, connection: Ptr, session: Ptr, id: EntityId)
      requires connection != 0 && session != 0 && id != DEFAULT_ID && session !in sessionToConnection
      modifies this`sessionToConnection, this`connectionToSession, this`siteToSessions, this`names, this`registered
      ensures View() == AddSession(old(View()), driver, connection, session, id)
    {
      hide AddSession;
      Facts.EntryShape(View(), driver, connection, id, session);
      registered := registered + multiset{connection};
      sessionToConnection := sessionToConnection[session := connection];
      connectionToSession := connectionToSession[connection := (driver, session)];
      AddEntitySession(id, session);
      names := names[connection := id];
    }

    /** A session that gets a new connection. */
    method EnterAgain(driver: Ptr, connection: Ptr, session: Ptr, id: EntityId)
      requires connection != 0 && session != 0 && id != DEFAULT_ID && session in sessionToConnection
      modifies this`sessionToConnection, this`connectionToSession, this`names, this`registered
      ensures View() == AddSession(old(View()), driver, connection, session, id)
    {
      hide AddSession;
      Facts.UpdateShape(View(), driver, connection, id, session);
      registered := registered + multiset{connection};
      var former := sessionToConnection[session];
      sessionToConnection := sessionToConnection[session := connection];
      connectionToSession := connectionToSession - {former};
      connectionToSession := connectionToSession[connection := (driver, session)];
      names := names[connection := id];
    }

    /** `add_session` */
    method EnterSession(driver: Ptr, connection: Ptr, session: Ptr, id: EntityId) returns (updated: bool)
      modifies this
      ensures View() == AddSession(old(View()), driver, connection, session, id)
      ensures updated
        <==> connection != 0 && session != 0 && id != DEFAULT_ID && session in old(sessionToConnection)
    {
      updated := false;
      if connection != 0 && session != 0 && id != DEFAULT_ID {
        updated := session in sessionToConnection;
        if updated {
          EnterAgain(driver, connection, session, id);
        } else {
          EnterNew(driver, connection, session, id);
        }
      }
    }

    method LeaveSession(session: Ptr)
      modifies this
      ensures View() == RemoveSession(old(View()), session)
    {
      if session != 0 && session in sessionToConnection {
        var _ := RemoveEntitySession(
          if sessionToConnection[session] in names then names[sessionToConnection[session]] else DEFAULT_ID);
        pendingDeletes := pendingDeletes + [session];
        sessionToConnection := sessionToConnection - {session};
      }
    }

    method DisconnectEntity(id: EntityId) returns (found: bool)
      modifies this
      ensures View() == DisconnectSession(old(View()), id) && found == (GetEntitySession(old(View()), id) != 0)
    {
      hide RemoveSession, GetEntitySession;
      var session := FindEntitySession(id);
      found := session != 0;
      if found {
        LeaveSession(session);
      } else {
        NobodyLeaves(View());
      }
    }

    method Release(connection: Ptr)
      modifies this`connectionToSession, this`released
      ensures View() == ReleaseConnection(old(View()), connection)
    {
      if connection in connectionToSession {
        released := released + multiset{connection};
        connectionToSession := connectionToSession - {connection};
      }
    }

    // ----- Service requests -----

    method SessionHasPendingActions(session: Ptr)
      modifies this`pendingActions
      ensures View() == HasPendingActions(old(View()), session)
    {
      if session != 0 {
        if pendingDeletes == [] {
          pendingActions := pendingActions + [session];
        } else {
          var i := 0;
          while i < |pendingDeletes| && pendingDeletes[i] != session
            invariant i <= |pendingDeletes| && session !in pendingDeletes[..i]
          {
            i := i + 1;
          }
          if i == |pendingDeletes| {
            pendingActions := pendingActions + [session];
          }
        }
      }
    }

    /** A session's `request_service`. */
    method RequestService(session: Ptr)
      modifies this`pendingActions, this`sessions
      ensures View() == Wake(old(View()), session)
    {
      if session in sessions && !sessions[session].requested {
        SessionHasPendingActions(session);
        sessions := sessions[session := sessions[session].(requested := true)];
      }
    }

    method RequestAll(woken: seq<Ptr>)
      modifies this`pendingActions, this`sessions
      ensures View() == WakeAll(old(View()), woken)
    {
      hide Wake;
      ghost var start := View();
      var i := 0;
      while i < |woken|
        invariant i <= |woken| && WakeAll(start, woken) == WakeAll(View(), woken[i..])
      {
        assert woken[i..][1..] == woken[i + 1..];
        RequestService(woken[i]);
        i := i + 1;
      }
    }

    /** A session's `set_client_connection`. */
    method SetClientConnection(session: Ptr, connection: Ptr)
      requires session in sessions
      modifies this`connectionToSession, this`released, this`pendingActions, this`sessions
      ensures View() == SetConnection(old(View()), session, connection)
    {
      var former := sessions[session].client;
      if former != 0 {
        Release(former);
      }
      sessions := sessions[session := sessions[session].(client := connection)];
      RequestService(session);
    }

    // ----- Authorization -----

    /** `id` is the entity whose password was checked, or the default one. */
    method AuthorizeClient(driver: Ptr, connection: Ptr, id: EntityId, session: Ptr)
      modifies this
      ensures View() == Authorize(old(View()), driver, connection, id, session)
    {
      hide DisconnectSession, AddSession, GetEntitySession;
      if connection != 0 && driver != 0 && id != DEFAULT_ID {
        var _ := DisconnectEntity(id);
        names := names[connection := id];
        sessions := sessions[session := SessionSide(connection, false, id)];
        created := created + multiset{session};
        var _ := EnterSession(driver, connection, session, id);
      }
    }

    method ReauthorizeClient(driver: Ptr, connection: Ptr, id: EntityId, makeNew: bool, session: Ptr)
      requires GetEntitySession(View(), id) != 0 ==> GetEntitySession(View(), id) in sessions
      modifies this
      ensures View() == Reauthorize(old(View()), driver, connection, id, makeNew, session)
    {
      hide Authorize, AddSession, SetConnection, GetEntitySession;
      if connection != 0 && driver != 0 && id != DEFAULT_ID {
        var existing := FindEntitySession(id);
        if existing != 0 {
          SetClientConnection(existing, connection);
          var _ := EnterSession(driver, connection, existing, id);
        } else if makeNew {
          AuthorizeClient(driver, connection, id, session);
        }
      }
    }

    // ----- Servicing -----

    /** A session's `process_pending`. */
    method ProcessPending(session: Ptr, woken: seq<Ptr>)
      modifies this`pendingActions, this`sessions, this`misuses
      ensures View() == ServiceOne(old(View()), session, woken)
    {
      hide WakeAll;
      if session !in sessions {
        misuses := misuses + 1;
      } else {
        sessions := sessions[session := sessions[session].(requested := false)];
        RequestAll(woken);
      }
    }

    /** A session's destructor. */
    method Destroy(session: Ptr, woken: seq<Ptr>)
      modifies this`pendingActions, this`sessions, this`misuses, this`connectionToSession, this`released, this`destroyed
      ensures View() == DestroyOne(old(View()), session, woken)
    {
      hide WakeAll, ReleaseConnection;
      if session !in sessions {
        misuses := misuses + 1;
      } else {
        var client := sessions[session].client;
        RequestAll(woken);
        if client != 0 {
          Release(client);
        }
        sessions := sessions - {session};
        destroyed := destroyed + multiset{session};
      }
    }

    /** `service_sessions`: the queues are swapped out first, so that what arrives meanwhile waits. */
    method ServiceAllSessions(serviceWakes: seq<seq<Ptr>>, deleteWakes: seq<seq<Ptr>>)
      modifies this
      ensures View() == ServiceSessions(old(View()), serviceWakes, deleteWakes)
    {
      hide ServiceOne, DestroyOne;
      var queue := pendingActions;
      pendingActions := [];
      var needDeletes := pendingDeletes != [];
      ghost var begun := View();
      ghost var queued := queue;
      var wakes := serviceWakes;
      while queue != []
        invariant ServiceAll(begun, queued, serviceWakes) == ServiceAll(View(), queue, wakes)
        decreases |queue|
      {
        ProcessPending(queue[0], WakesAt(wakes));
        queue, wakes := queue[1..], Rest(wakes);
      }
      if needDeletes {
        var deletes := pendingDeletes;
        pendingDeletes := [];
        ghost var served := View();
        ghost var doomed := deletes;
        wakes := deleteWakes;
        while deletes != []
          invariant DestroyAll(served, doomed, deleteWakes) == DestroyAll(View(), deletes, wakes)
          decreases |deletes|
        {
          Destroy(deletes[0], WakesAt(wakes));
          deletes, wakes := deletes[1..], Rest(wakes);
        }
      }
    }
  }

  lemma NobodyLeaves(r: State)
    ensures RemoveSession(r, 0) == r
  {
  }
}
