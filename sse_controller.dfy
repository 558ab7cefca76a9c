/**
 * The SSE controller (src/mcp/transport/sse.controller.factory.ts). Opening
 * the SSE stream creates a transport and a server for a new session id, stores
 * both and registers the response with the keep-alive service; the transport
 * closing removes all three. A message POSTed with a `sessionId` query
 * parameter goes to that session's transport after the request handlers are
 * registered on its server.
 *
 * Transports and servers are numbered handles; the session id the SDK's
 * transport draws is a parameter, and what the controller does is recorded
 * as events.
 */
module SseTransport {
  import opened Values
  import opened Endpoints
  import opened HandlerContext
  import opened SsePing

  datatype Event =
    | Respond(status: int, text: string)                   // `res.status(status).send(text)`
    | Connect(server: nat, transport: nat, endpoint: string)  // a transport posting to `endpoint`, then `connect`
    | RegisterHandlers(server: nat)                         // `executor.registerRequestHandlers(server, req)`
    | HandlePostMessage(transport: nat)                     // `transport.handlePostMessage(req, res, body)`

  /** The way a POSTed message goes. */
  datatype MessagesOutcome = SessionNotFound | ServerNotFound | Forwarded(sessionId: string)

  /** The endpoint a new transport tells its client to POST to. */
  function MessagesPath(globalPrefix: string, messagesEndpoint: string): string {
    NormalizeEndpoint(Some(globalPrefix + "/" + messagesEndpoint))
  }

  lemma {:induction false} NonSlashAppend(a: string, b: string)
    ensures NonSlash(a + b) == NonSlash(a) + NonSlash(b)
  {
    if a == [] {
      assert a + b == b;
    } else {
      assert (a + b)[0] == a[0] && (a + b)[1..] == a[1..] + b;
      NonSlashAppend(a[1..], b);
    }
  }

  /**
   * The messages path has no leading slash and no double slash, and spells
   * the global prefix's characters followed by the endpoint's, the slashes
   * aside.
   */
  lemma MessagesPathShape(globalPrefix: string, messagesEndpoint: string)
    ensures var p := MessagesPath(globalPrefix, messagesEndpoint);
      !StartsWithSlash(p) && NoDoubleSlash(p) &&
      NonSlash(p) == NonSlash(globalPrefix) + NonSlash(messagesEndpoint)
  {
    assert globalPrefix + "/" + messagesEndpoint == globalPrefix + ("/" + messagesEndpoint);
    NormalizeShape(globalPrefix + "/" + messagesEndpoint);
    NonSlashAppend(globalPrefix, "/" + messagesEndpoint);
    assert NonSlash("/" + messagesEndpoint) == NonSlash(messagesEndpoint) by {
      assert ("/" + messagesEndpoint)[1..] == messagesEndpoint;
    }
  }

  /** Without a global prefix the path is the endpoint itself. */
  lemma MessagesPathExample()
    ensures MessagesPath("", "messages") == "messages"
  {
    var s := "/messages";
    assert "" + "/" + "messages" == s;
    assert s[1..] == "messages";
    assert CollapseSlashes(s[1..]) == s[1..] by {
      CollapseKeepsClean(s[1..]);
    }
  }

  class SseController {
    const ping: SsePingService
    const messagesEndpoint: string
    var transports: map<string, nat>
    var mcpServers: map<string, ServerRef>
    var nextHandle: nat
    var events: seq<Event>

    /**
     * The two dictionaries have the same keys, every server's transport
     * carries its session id, and every connection the keep-alive service
     * pings belongs to a stored session (the service may have dropped some).
     */
    predicate Valid()
      reads this, ping
    {
      transports.Keys == mcpServers.Keys && ping.Valid() &&
      Ids(ping.activeConnections) <= transports.Keys &&
      forall id :: id in mcpServers ==> mcpServers[id].transportSessionId == Some(id)
    }

    constructor(ping: SsePingService, messagesEndpoint: string)
      requires ping.Valid() && ping.activeConnections == []
      ensures Valid()
      ensures this.ping == ping && this.messagesEndpoint == messagesEndpoint
      ensures transports == map[] && mcpServers == map[] && events == []
    {
      this.ping := ping;
      this.messagesEndpoint := messagesEndpoint;
      transports := map[];
      mcpServers := map[];
      nextHandle := 0;
      events := [];
    }

    /** `onModuleInit`: configure keep-alive from `options.sse?.pingEnabled` and `options.sse?.pingIntervalMs`. */
    method OnModuleInit(pingEnabled: Option<bool>, pingIntervalMs: Option<int>)
      requires Valid()
      modifies ping
      ensures Valid()
      ensures ping.pingIntervalMs == if pingIntervalMs.Some? then pingIntervalMs.value else old(ping.pingIntervalMs)
      ensures ping.pingInterval.Some? <==> pingEnabled != Some(false)
      ensures ping.activeConnections == old(ping.activeConnections)
    {
      ping.Configure(pingEnabled, pingIntervalMs);
    }

    /**
     * `sse`: open a session under the transport's `sessionId`, with
     * `response` the SSE response and `globalPrefix` the application's
     * global route prefix.
     */
    method Sse(globalPrefix: string, sessionId: string, response: nat)
      requires Valid()
      modifies this, ping
      ensures Valid()
      ensures var t, s := old(nextHandle), old(nextHandle) + 1;
        transports == old(transports)[sessionId := t] &&
        mcpServers == old(mcpServers)[sessionId := ServerRef(s, Some(sessionId))] &&
        events == old(events) + [Connect(s, t, MessagesPath(globalPrefix, messagesEndpoint))]
      ensures ping.activeConnections == SetConnection(old(ping.activeConnections), sessionId, response)
      ensures ping.pingInterval == old(ping.pingInterval) && ping.timers == old(ping.timers)
      ensures ping.writes == old(ping.writes) && ping.pingIntervalMs == old(ping.pingIntervalMs)
    {
      var t := nextHandle;
      var s := nextHandle + 1;
      nextHandle := nextHandle + 2;
      var endpoint := MessagesPath(globalPrefix, messagesEndpoint);
      transports := transports[sessionId := t];
      mcpServers := mcpServers[sessionId := ServerRef(s, Some(sessionId))];
      ping.RegisterConnection(sessionId, response);
      events := events + [Connect(s, t, endpoint)];
    }

    /** The transport's `onclose`: forget the session everywhere. */
    method OnClose(sessionId: string)
      requires Valid()
      modifies this, ping
      ensures Valid()
      ensures transports == old(transports) - {sessionId} && mcpServers == old(mcpServers) - {sessionId}
      ensures ping.activeConnections == WithoutConnection(old(ping.activeConnections), sessionId)
      ensures ping.pingInterval == old(ping.pingInterval) && ping.timers == old(ping.timers)
      ensures ping.writes == old(ping.writes) && ping.pingIntervalMs == old(ping.pingIntervalMs)
      ensures events == old(events) && nextHandle == old(nextHandle)
    {
      transports := transports - {sessionId};
      mcpServers := mcpServers - {sessionId};
      ping.RemoveConnection(sessionId);
    }

    /** `messages`: `sessionId` is the query parameter, `None` when it is absent. */
    method Messages(sessionId: Option<string>) returns (outcome: MessagesOutcome)
      modifies this
      ensures transports == old(transports) && mcpServers == old(mcpServers)
      ensures outcome == SessionNotFound <==> sessionId.None? || sessionId.value !in old(transports)
      ensures outcome == SessionNotFound ==> events == old(events) + [Respond(404, "Session not found")]
      ensures outcome == ServerNotFound ==> events == old(events) + [Respond(404, "MCP server not found for session")]
      ensures outcome.Forwarded? ==>
        Some(outcome.sessionId) == sessionId && outcome.sessionId in old(transports) && outcome.sessionId in old(mcpServers)
      ensures outcome.Forwarded? && outcome.sessionId in old(transports) && outcome.sessionId in old(mcpServers) ==>
        events == old(events) + [RegisterHandlers(old(mcpServers)[outcome.sessionId].id),
                                 HandlePostMessage(old(transports)[outcome.sessionId])]
      // while the dictionaries agree, a known session always has its server
      ensures old(Valid()) ==> outcome != ServerNotFound
    {
      if sessionId.None? || sessionId.value !in transports {
        events := events + [Respond(404, "Session not found")];
        return SessionNotFound;
      }
      var transport := transports[sessionId.value];
      if sessionId.value !in mcpServers {
        events := events + [Respond(404, "MCP server not found for session")];
        return ServerNotFound;
      }
      var mcpServer := mcpServers[sessionId.value];
      events := events + [RegisterHandlers(mcpServer.id)];
      events := events + [HandlePostMessage(transport)];
      return Forwarded(sessionId.value);
    }
  }
}
