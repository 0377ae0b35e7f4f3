/** The router (comm_RouterSessionManager.cpp) as a value: three maps that depend on each other, the queue
    of sessions to service and the list of sessions to destroy, with what the router's decisions rest on in
    the sessions and connections themselves. Sessions, connections and drivers are named by address. */
module Router {
  import opened Basics

  datatype EntityId = EntityId(site: nat, number: nat)

  const DEFAULT_ID := EntityId(0, 0)

  /** A session's own `client_ptr` and `has_requested_service`, and the entity it is for. */
  datatype SessionSide = SessionSide(client: Ptr, requested: bool, entity: EntityId)

  /** The last five fields are history: how often each connection was entered and given back to its driver,
      how often each session was created and destroyed, and calls on sessions that were gone. */
  datatype State = State(
    connectionToSession: map<Ptr, (Ptr, Ptr)>,
    sessionToConnection: map<Ptr, Ptr>,
    siteToSessions: map<nat, map<EntityId, Ptr>>,
    pendingActions: seq<Ptr>,
    pendingDeletes: seq<Ptr>,
    sessions: map<Ptr, SessionSide>,
    names: map<Ptr, EntityId>,
    registered: multiset<Ptr>,
    released: multiset<Ptr>,
    created: multiset<Ptr>,
    destroyed: multiset<Ptr>,
    misuses: nat)

  function Start(): State {
    State(map[], map[], map[], [], [], map[], map[], multiset{}, multiset{}, multiset{}, multiset{}, 0)
  }

  // ----- The site index -----

  function SiteOf(sites: map<nat, map<EntityId, Ptr>>, site: nat): map<EntityId, Ptr> {
    if site in sites then sites[site] else map[]
  }

  /** `get_entity_session` */
  function GetEntitySession(r: State, id: EntityId): Ptr {
    if id in SiteOf(r.siteToSessions, id.site) then SiteOf(r.siteToSessions, id.site)[id] else 0
  }

  /** `add_entity_session` */
  function AddEntity(r: State, id: EntityId, session: Ptr): State {
    if id == DEFAULT_ID || session == 0 then r
    else r.(siteToSessions := r.siteToSessions[id.site := SiteOf(r.siteToSessions, id.site)[id := session]])
  }

  /** `remove_entity_session`: a site without sessions goes too. */
  function RemoveEntity(r: State, id: EntityId): State {
    if id !in SiteOf(r.siteToSessions, id.site) then r
    else
      var rest := r.siteToSessions[id.site] - {id};
      r.(siteToSessions := if rest == map[] then r.siteToSessions - {id.site} else r.siteToSessions[id.site := rest])
  }

  // ----- Sessions and connections -----

  /** `add_session`: a session that is known already gets a new connection. */
  function AddSession(r: State, driver: Ptr, connection: Ptr, session: Ptr, id: EntityId): State {
    if connection == 0 || session == 0 || id == DEFAULT_ID then r
    else
      var entered := r.(
        names := r.names[connection := id],
        registered := r.registered + multiset{connection},
        sessionToConnection := r.sessionToConnection[session := connection]);
      if session !in r.sessionToConnection then
        AddEntity(
          entered.(connectionToSession := r.connectionToSession[connection := (driver, session)]), id, session)
      else
        entered.(connectionToSession :=
          (r.connectionToSession - {r.sessionToConnection[session]})[connection := (driver, session)])
  }

  function NameOf(r: State, connection: Ptr): EntityId {
    if connection in r.names then r.names[connection] else DEFAULT_ID
  }

  /** `remove_session`: the session is destroyed after one last service. */
  function RemoveSession(r: State, session: Ptr): State {
    if session == 0 || session !in r.sessionToConnection then r
    else
      RemoveEntity(r, NameOf(r, r.sessionToConnection[session])).(
        pendingDeletes := r.pendingDeletes + [session],
        sessionToConnection := r.sessionToConnection - {session})
  }

  /** `disconnect_session` */
  function DisconnectSession(r: State, id: EntityId): State {
    RemoveSession(r, GetEntitySession(r, id))
  }

  /** `release_connection`: the connection goes back to its driver. */
  function ReleaseConnection(r: State, connection: Ptr): State {
    if connection !in r.connectionToSession then r
    else r.(connectionToSession := r.connectionToSession - {connection},
            released := r.released + multiset{connection})
  }

  // ----- Service requests -----

  /** `session_has_pending_actions`: nobody about to be destroyed is queued. */
  function HasPendingActions(r: State, session: Ptr): State {
    if session == 0 || session in r.pendingDeletes then r
    else r.(pendingActions := r.pendingActions + [session])
  }

  /** A session's `request_service`. */
  function Wake(r: State, session: Ptr): State {
    if session !in r.sessions || r.sessions[session].requested then r
    else HasPendingActions(r, session).(sessions := r.sessions[session := r.sessions[session].(requested := true)])
  }

  function WakeAll(r: State, woken: seq<Ptr>): State
    decreases woken
  {
    if woken == [] then r else WakeAll(Wake(r, woken[0]), woken[1..])
  }

  /** A session's `set_client_connection`. */
  function SetConnection(r: State, session: Ptr, connection: Ptr): State
    requires session in r.sessions
  {
    var former := r.sessions[session].client;
    var freed := if former == 0 then r else ReleaseConnection(r, former);
    Wake(freed.(sessions := r.sessions[session := r.sessions[session].(client := connection)]), session)
  }

  // ----- Authorization -----

  /** `authorize_client`, once the password is checked: `id` is the entity, the default one when the check
      failed, and `session` the address of the session made for it. */
  function Authorize(r: State, driver: Ptr, connection: Ptr, id: EntityId, session: Ptr): State {
    if connection == 0 || driver == 0 || id == DEFAULT_ID then r
    else
      var alone := DisconnectSession(r, id);
      AddSession(
        alone.(sessions := alone.sessions[session := SessionSide(connection, false, id)],
               created := alone.created + multiset{session},
               names := alone.names[connection := id]),
        driver, connection, session, id)
  }

  /** `reauthorize_client` */
  function Reauthorize(r: State, driver: Ptr, connection: Ptr, id: EntityId, makeNew: bool, session: Ptr): State {
    if connection == 0 || driver == 0 || id == DEFAULT_ID then r
    else
      var existing := GetEntitySession(r, id);
      if existing != 0 then
        if existing !in r.sessions then r.(misuses := r.misuses + 1)
        else AddSession(SetConnection(r, existing, connection), driver, connection, existing, id)
      else if makeNew then Authorize(r, driver, connection, id, session)
      else r
  }

  // ----- Servicing -----

  function WakesAt(wakes: seq<seq<Ptr>>): seq<Ptr> {
    if wakes == [] then [] else wakes[0]
  }

  function Rest(wakes: seq<seq<Ptr>>): seq<seq<Ptr>> {
    if wakes == [] then [] else wakes[1..]
  }

  /** A session's `process_pending`, as far as the router can tell: its request is taken back, and sessions
      ask for service, itself perhaps among them. */
  function ServiceOne(r: State, session: Ptr, woken: seq<Ptr>): State {
    if session !in r.sessions then r.(misuses := r.misuses + 1)
    else WakeAll(r.(sessions := r.sessions[session := r.sessions[session].(requested := false)]), woken)
  }

  function ServiceAll(r: State, queue: seq<Ptr>, wakes: seq<seq<Ptr>>): State
    decreases queue
  {
    if queue == [] then r else ServiceAll(ServiceOne(r, queue[0], WakesAt(wakes)), queue[1..], Rest(wakes))
  }

  /** A session's destructor: closing its channels wakes others, then its connection is given back. */
  function DestroyOne(r: State, session: Ptr, woken: seq<Ptr>): State {
    if session !in r.sessions then r.(misuses := r.misuses + 1)
    else
      var told := WakeAll(r, woken);
      var client := r.sessions[session].client;
      var freed := if client == 0 then told else ReleaseConnection(told, client);
      freed.(sessions := freed.sessions - {session}, destroyed := freed.destroyed + multiset{session})
  }

  function DestroyAll(r: State, doomed: seq<Ptr>, wakes: seq<seq<Ptr>>): State
    decreases doomed
  {
    if doomed == [] then r else DestroyAll(DestroyOne(r, doomed[0], WakesAt(wakes)), doomed[1..], Rest(wakes))
  }

  /** `service_sessions` */
  function ServiceSessions(r: State, serviceWakes: seq<seq<Ptr>>, deleteWakes: seq<seq<Ptr>>): State {
    var served := ServiceAll(r.(pendingActions := []), r.pendingActions, serviceWakes);
    if r.pendingDeletes == [] then served
    else DestroyAll(served.(pendingDeletes := []), served.pendingDeletes, deleteWakes)
  }
}
