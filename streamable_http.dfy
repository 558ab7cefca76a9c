/**
 * The Streamable HTTP controller (src/mcp/transport/streamable-http.controller.factory.ts).
 * In stateful mode it keeps two dictionaries keyed by the `mcp-session-id`
 * header, `transports` and `mcpServers`: an initialize request without a
 * session id opens a session, a request with a known id reuses it, anything
 * else is rejected, and DELETE or the transport closing ends it. In stateless
 * mode every POST gets a fresh server and transport that are closed
 * afterwards, and GET and DELETE are refused.
 *
 * Transports and servers are numbered handles. What the SDK does with a
 * request (`handleRequest`) and the responses written are recorded as events.
 */
module StreamableHttp {
  import opened Values
  import opened HandlerContext

  /** A JSON-RPC 2.0 error response with a `null` id. */
  function JsonRpcError(code: int, message: string): Json {
    JObj(map[
      "jsonrpc" := JStr("2.0"),
      "error" := JObj(map["code" := JNum(code), "message" := JStr(message)]),
      "id" := JNull])
  }

  const BadRequest := JsonRpcError(-32000, "Bad Request: No valid session ID provided")
  const SessionNotFound := JsonRpcError(-32000, "Session not found")
  const NotAllowed := JsonRpcError(-32000, "Method not allowed in stateless mode")
  const InvalidSession := JStr("Invalid or missing session ID")

  /** What the controller does, in order. */
  datatype Event =
    | Respond(status: int, body: Json)               // `res.status(status).json(body)` / `.send(body)`
    | Connect(server: nat, transport: nat)           // `server.connect(transport)`
    | RegisterHandlers(server: nat)                  // `executor.registerRequestHandlers(server, req)`
    | Handle(transport: nat)                         // `transport.handleRequest(req, res, ...)`
    | CloseOnResponseClose(transport: nat, server: nat)  // `res.on('close', ...)`
    | CloseTransport(transport: nat)
    | CloseServer(server: nat)

  // ----------------------------------------------------------- isInitializeRequest

  /** A non-null object whose `method` is `'initialize'`. */
  predicate IsInitializeMessage(msg: Json) {
    msg.JObj? && "method" in msg.fields && msg.fields["method"] == JStr("initialize")
  }

  /** `body.some(isInitializeMessage)` */
  function AnyInitialize(items: seq<Json>): (r: bool)
    ensures r <==> exists i :: 0 <= i < |items| && IsInitializeMessage(items[i])
  {
    if items == [] then false
    else if IsInitializeMessage(items[0]) then true
    else
      assert forall i :: 1 <= i < |items| ==> items[1..][i - 1] == items[i];
      AnyInitialize(items[1..])
  }

  /** `isInitializeRequest(body)` */
  function IsInitializeRequest(body: Json): bool {
    if body.JArr? then AnyInitialize(body.items) else IsInitializeMessage(body)
  }

  /**
   * A body is an initialize request exactly when it is such a message, or an
   * array (a JSON-RPC batch) holding at least one.
   */
  lemma IsInitializeRequestIff(body: Json)
    ensures IsInitializeRequest(body) <==>
      IsInitializeMessage(body) || (body.JArr? && exists i :: 0 <= i < |body.items| && IsInitializeMessage(body.items[i]))
  {
  }

  // ------------------------------------------------------------- routing

  /** The three ways a stateful POST goes. */
  datatype Route = Reuse(sessionId: string) | Initialize | Reject

  /** The branch `handleStatefulRequest` takes for the known session ids `known`. */
  function StatefulRoute(known: set<string>, header: Option<string>, body: Json): Route {
    if header.Some? && header.value != "" && header.value in known then Reuse(header.value)
    else if (header.None? || header.value == "") && IsInitializeRequest(body) then Initialize
    else Reject
  }

  /**
   * A session is opened only for an initialize body without a session id; a
   * known id is reused whatever the body; a supplied but unknown id is
   * rejected, even with an initialize body, and so is a body without an id
   * that is not an initialize request.
   */
  lemma StatefulRouteCases(known: set<string>, header: Option<string>, body: Json)
    ensures StatefulRoute(known, header, body) == Initialize <==>
      (header.None? || header == Some("")) && IsInitializeRequest(body)
    ensures forall id :: StatefulRoute(known, header, body) == Reuse(id) <==>
      header == Some(id) && id != "" && id in known
    ensures StatefulRoute(known, header, body) == Reject <==>
      (header.Some? && header.value != "" && header.value !in known) ||
      ((header.None? || header == Some("")) && !IsInitializeRequest(body))
  {
  }

  /** The outcome of the guard shared by GET and DELETE. */
  datatype Guard = NotAllowedStateless | InvalidSessionId | Proceed(sessionId: string)

  function SessionGuard(stateless: bool, known: set<string>, header: Option<string>): Guard {
    if stateless then NotAllowedStateless
    else if header.None? || header.value == "" || header.value !in known then InvalidSessionId
    else Proceed(header.value)
  }

  /**
   * In stateless mode GET and DELETE are always refused; in stateful mode
   * they go ahead exactly for a supplied, known session id.
   */
  lemma SessionGuardCases(stateless: bool, known: set<string>, header: Option<string>)
    ensures stateless ==> SessionGuard(stateless, known, header) == NotAllowedStateless
    ensures !stateless ==> (SessionGuard(stateless, known, header).Proceed? <==>
      header.Some? && header.value != "" && header.value in known)
    ensures SessionGuard(stateless, known, header).Proceed? ==> Some(SessionGuard(stateless, known, header).sessionId) == header
  {
  }

  /** Which awaited call of a request rejects, if any. */
  datatype RequestFailure =
    | NoFailure
    | ConnectFails      // `server.connect(transport)` rejects
    | ResolveFails      // resolving the executor rejects
    | HandleFails       // `transport.handleRequest` rejects

  /**
   * The events of one stateless request with transport `t` and server `s`.
   * A failure inside `createStatelessServer` leaves the locals `null`, so
   * nothing is closed; a failure in `handleRequest` closes the transport, then
   * the server.
   */
  function StatelessEvents(t: nat, s: nat, failure: RequestFailure): seq<Event> {
    match failure
    case ConnectFails => []
    case ResolveFails => [Connect(s, t)]
    case HandleFails => [Connect(s, t), RegisterHandlers(s), Handle(t), CloseTransport(t), CloseServer(s)]
    case NoFailure => [Connect(s, t), RegisterHandlers(s), Handle(t), CloseOnResponseClose(t, s)]
  }

  /**
   * A stateless request that handled its request leaves its transport and
   * server to be closed when the response closes; one that failed in
   * `handleRequest` closes both, transport first; one that failed before
   * that closes nothing, even when the server was already connected.
   */
  lemma StatelessTeardown(t: nat, s: nat, failure: RequestFailure)
    requires t != s
    ensures var ev := StatelessEvents(t, s, failure);
      (CloseTransport(t) in ev <==> failure == HandleFails) &&
      (CloseServer(s) in ev <==> failure == HandleFails) &&
      (CloseOnResponseClose(t, s) in ev <==> failure == NoFailure) &&
      (Handle(t) in ev ==> RegisterHandlers(s) in ev && Connect(s, t) in ev) &&
      (failure == ResolveFails ==> Connect(s, t) in ev && CloseServer(s) !in ev)
  {
  }

  // ------------------------------------------------------------- the controller

  class StreamableHttpController {
    var transports: map<string, nat>
    var mcpServers: map<string, ServerRef>
    const isStatelessMode: bool
    var nextHandle: nat
    var events: seq<Event>

    /**
     * The two dictionaries have the same keys, no key is empty, and each
     * server is connected to a transport carrying that session id.
     */
    predicate Valid()
      reads this
    {
      transports.Keys == mcpServers.Keys && "" !in transports &&
      forall id :: id in mcpServers ==> mcpServers[id].transportSessionId == Some(id)
    }

    /** `isStatelessMode = !!options.streamableHttp?.statelessMode` */
    constructor(statelessMode: Option<bool>)
      ensures Valid()
      ensures isStatelessMode == (statelessMode == Some(true))
      ensures transports == map[] && mcpServers == map[] && events == []
    {
      isStatelessMode := statelessMode == Some(true);
      transports := map[];
      mcpServers := map[];
      nextHandle := 0;
      events := [];
    }

    /**
     * `handleStatefulRequest`. `assignedId` is the `sessionId` the new
     * transport has after handling an initialize request (the session id
     * generator's value, or `undefined` when it assigned none); `failure` says
     * which awaited call rejects, and `threw` whether the request ended by
     * throwing. An initialize request stores its session only once both
     * `connect` and `handleRequest` have resolved.
     */
    method HandleStatefulRequest(header: Option<string>, body: Json, assignedId: Option<string>, failure: RequestFailure)
      returns (route: Route, threw: bool)
      modifies this
      ensures old(Valid()) ==> Valid()
      ensures route == StatefulRoute(old(transports).Keys, header, body)
      ensures route.Reject? ==>
        !threw && transports == old(transports) && mcpServers == old(mcpServers) && events == old(events) + [Respond(400, BadRequest)]
      ensures route.Reuse? ==> transports == old(transports) && mcpServers == old(mcpServers)
      ensures route.Reuse? && route.sessionId !in old(mcpServers) ==>
        !threw && events == old(events) + [Respond(404, SessionNotFound)]
      ensures route.Reuse? && route.sessionId in old(mcpServers) ==>
        (threw <==> failure == ResolveFails || failure == HandleFails) &&
        events == old(events) + (if failure == ResolveFails then [] else
          [RegisterHandlers(old(mcpServers)[route.sessionId].id), Handle(old(transports)[route.sessionId])])
      // while the dictionaries agree, a known session is never answered with 404
      ensures old(Valid()) && route.Reuse? ==> route.sessionId in old(mcpServers)
      ensures route.Initialize? ==>
        var t, s := old(nextHandle), old(nextHandle) + 1;
        (threw <==> failure == ConnectFails || failure == HandleFails) &&
        events == old(events) + (if failure == ConnectFails then [] else [Connect(s, t), Handle(t)]) &&
        if !threw && assignedId.Some? && assignedId.value != "" then
          transports == old(transports)[assignedId.value := t] &&
          mcpServers == old(mcpServers)[assignedId.value := ServerRef(s, assignedId)]
        else transports == old(transports) && mcpServers == old(mcpServers)
    {
      threw := false;
      route := StatefulRoute(transports.Keys, header, body);
      if route.Reuse? {
        var sessionId := route.sessionId;
        var transport := transports[sessionId];
        if sessionId !in mcpServers {
          // `this.mcpServers[sessionId]` is missing: impossible while Valid() holds
          events := events + [Respond(404, SessionNotFound)];
          return;
        }
        var mcpServer := mcpServers[sessionId];
        if failure == ResolveFails {
          return route, true;
        }
        events := events + [RegisterHandlers(mcpServer.id)];
        events := events + [Handle(transport)];
        threw := failure == HandleFails;
      } else if route.Initialize? {
        var t := nextHandle;
        var s := nextHandle + 1;
        nextHandle := nextHandle + 2;
        if failure == ConnectFails {
          return route, true;
        }
        events := events + [Connect(s, t)];
        events := events + [Handle(t)];
        if failure == HandleFails {
          return route, true;
        }
        if assignedId.Some? && assignedId.value != "" {
          transports := transports[assignedId.value := t];
          mcpServers := mcpServers[assignedId.value := ServerRef(s, assignedId)];
        }
      } else {
        events := events + [Respond(400, BadRequest)];
      }
    }

    /** `handleStatelessRequest`: returns whether the request ended by throwing. */
    method HandleStatelessRequest(failure: RequestFailure) returns (threw: bool)
      modifies this
      ensures transports == old(transports) && mcpServers == old(mcpServers)
      ensures threw <==> failure != NoFailure
      ensures events == old(events) + StatelessEvents(old(nextHandle), old(nextHandle) + 1, failure)
    {
      var t := nextHandle;
      var s := nextHandle + 1;
      nextHandle := nextHandle + 2;
      // `createStatelessServer`
      if failure == ConnectFails {
        return true;
      }
      events := events + [Connect(s, t)];
      if failure == ResolveFails {
        return true;
      }
      events := events + [RegisterHandlers(s)];
      // the locals `server` and `transport` are set from here on
      events := events + [Handle(t)];
      if failure == HandleFails {
        events := events + [CloseTransport(t), CloseServer(s)];
        return true;
      }
      events := events + [CloseOnResponseClose(t, s)];
      return false;
    }

    /** The response of a stateless request closed: close its transport, then its server. */
    method OnResponseClose(t: nat, s: nat)
      modifies this
      ensures transports == old(transports) && mcpServers == old(mcpServers)
      ensures events == old(events) + [CloseTransport(t), CloseServer(s)]
    {
      events := events + [CloseTransport(t), CloseServer(s)];
    }

    /** `handlePostRequest`: stateless or stateful handling according to the mode. */
    method HandlePostRequest(header: Option<string>, body: Json, assignedId: Option<string>, failure: RequestFailure)
      requires Valid()
      modifies this
      ensures Valid()
      ensures isStatelessMode ==> transports == old(transports) && mcpServers == old(mcpServers)
    {
      if isStatelessMode {
        var _ := HandleStatelessRequest(failure);
      } else {
        var _, _ := HandleStatefulRequest(header, body, assignedId, failure);
      }
    }

    /** `cleanupSession(sessionId)`: an empty id is ignored. */
    method CleanupSession(sessionId: string)
      requires Valid()
      modifies this
      ensures Valid()
      ensures sessionId == "" ==> transports == old(transports) && mcpServers == old(mcpServers)
      ensures transports == old(transports) - {sessionId} && mcpServers == old(mcpServers) - {sessionId}
      ensures events == old(events) && nextHandle == old(nextHandle)
    {
      if sessionId != "" {
        transports := transports - {sessionId};
        mcpServers := mcpServers - {sessionId};
      }
    }

    /** The `onclose` callback of a session's transport. */
    method OnTransportClose(sessionId: string)
      requires Valid()
      modifies this
      ensures Valid()
      ensures transports == old(transports) - {sessionId} && mcpServers == old(mcpServers) - {sessionId}
      ensures events == old(events) && nextHandle == old(nextHandle)
    {
      CleanupSession(sessionId);
    }

    /**
     * `handleGetRequest`: open the SSE stream of a known session.
     * `handleRejects` says whether `transport.handleRequest` rejects; `threw`
     * whether the request ended by throwing.
     */
    method HandleGetRequest(header: Option<string>, handleRejects: bool) returns (guard: Guard, threw: bool)
      requires Valid()
      modifies this
      ensures Valid()
      ensures guard == SessionGuard(isStatelessMode, old(transports).Keys, header)
      ensures threw <==> guard.Proceed? && handleRejects
      ensures transports == old(transports) && mcpServers == old(mcpServers)
      ensures events == old(events) + [match guard
        case NotAllowedStateless => Respond(405, NotAllowed)
        case InvalidSessionId => Respond(400, InvalidSession)
        case Proceed(id) => Handle(transports[id])]
    {
      guard := SessionGuard(isStatelessMode, transports.Keys, header);
      threw := false;
      match guard
      case NotAllowedStateless =>
        events := events + [Respond(405, NotAllowed)];
      case InvalidSessionId =>
        events := events + [Respond(400, InvalidSession)];
      case Proceed(id) =>
        events := events + [Handle(transports[id])];
        threw := handleRejects;
    }

    /**
     * `handleDeleteRequest`: let the transport answer, then forget the session;
     * when `handleRequest` rejects, `cleanupSession` is never reached.
     */
    method HandleDeleteRequest(header: Option<string>, handleRejects: bool) returns (guard: Guard, threw: bool)
      requires Valid()
      modifies this
      ensures Valid()
      ensures guard == SessionGuard(isStatelessMode, old(transports).Keys, header)
      ensures threw <==> guard.Proceed? && handleRejects
      ensures !guard.Proceed? || threw ==> transports == old(transports) && mcpServers == old(mcpServers)
      ensures guard.Proceed? && !threw ==>
        transports == old(transports) - {guard.sessionId} && mcpServers == old(mcpServers) - {guard.sessionId}
      ensures events == old(events) + [match guard
        case NotAllowedStateless => Respond(405, NotAllowed)
        case InvalidSessionId => Respond(400, InvalidSession)
        case Proceed(id) => Handle(old(transports)[id])]
    {
      guard := SessionGuard(isStatelessMode, transports.Keys, header);
      threw := false;
      match guard
      case NotAllowedStateless =>
        events := events + [Respond(405, NotAllowed)];
      case InvalidSessionId =>
        events := events + [Respond(400, InvalidSession)];
      case Proceed(id) =>
        events := events + [Handle(transports[id])];
        threw := handleRejects;
        if !threw {
          CleanupSession(id);
        }
    }
  }

  /**
   * A server stored for a session hands its methods stateful contexts, while
   * a stateless request's server, whose transport has no session id, hands
   * them stateless ones.
   */
  lemma StoredServersAreStateful(c: StreamableHttpController, id: string, request: McpRequest)
    requires c.Valid() && id in c.mcpServers
    ensures !CreateContext(c.mcpServers[id], request).stateless
    ensures forall s: nat :: CreateContext(ServerRef(s, None), request).stateless
  {
  }
}
