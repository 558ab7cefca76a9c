/**
 * The execution context handed to tool, resource and prompt methods
 * (src/mcp/services/handlers/mcp-handler.base.ts). A context is stateless
 * when the server's transport has no session id; a stateless context only
 * warns locally, a stateful one sends progress notifications (when the
 * request carries a truthy progress token) and logging messages to the client.
 * What the context's functions do is modelled as the list of effects a call
 * has: a message to the client or a warning in the server's own log.
 */
module HandlerContext {
  import opened Values

  /** The SDK server a handler serves, seen through its transport's session id. */
  datatype ServerRef = ServerRef(id: nat, transportSessionId: Option<string>)

  /** A request as the SDK hands it to a handler: its method and its params object. */
  datatype McpRequest = McpRequest(requestMethod: string, params: map<string, Json>)

  /** The four functions of `context.log`. */
  datatype LogMethod = Debug | Error | Info | Warn

  /** What a call of a context function does. */
  datatype Effect =
    | Notify(notification: string, params: map<string, Json>)   // `server.notification(...)`
    | SendLog(level: string, data: map<string, Json>)     // `server.sendLoggingMessage(...)`
    | LocalWarn(message: string)                          // `this.logger.warn(...)`

  /** `Context`: the closures are determined by these fields. */
  datatype Context = Context(
    stateless: bool,
    progressToken: Option<Json>,
    mcpServer: ServerRef,
    mcpRequest: McpRequest)

  /** `mcpRequest.params?._meta?.progressToken` */
  function ProgressToken(request: McpRequest): (r: Option<Json>)
    ensures r.Some? <==> ("_meta" in request.params && request.params["_meta"].JObj? &&
      "progressToken" in request.params["_meta"].fields)
  {
    if "_meta" in request.params && request.params["_meta"].JObj? && "progressToken" in request.params["_meta"].fields
    then Some(request.params["_meta"].fields["progressToken"])
    else None
  }

  /** `createContext(mcpServer, mcpRequest)`, which defers to `createStatelessContext` without a session id. */
  function CreateContext(server: ServerRef, request: McpRequest): Context {
    if server.transportSessionId.None? then CreateStatelessContext(server, request)
    else Context(false, ProgressToken(request), server, request)
  }

  /** `createStatelessContext(mcpServer, mcpRequest)` */
  function CreateStatelessContext(server: ServerRef, request: McpRequest): Context {
    Context(true, None, server, request)
  }

  /** The level string `sendLoggingMessage` is given for each log function. */
  function LevelName(m: LogMethod): string {
    match m
    case Debug => "debug"
    case Error => "error"
    case Info => "info"
    case Warn => "warning"
  }

  /** The warning a stateless context logs when `fn` is called. */
  function StatelessWarning(fn: string): string {
    "Stateless context: '" + fn + "' is not supported."
  }

  const ProgressNotSupported := "reportProgress not supported in stateless"
  const LoggingNotSupported := "server report logging not supported in stateless"

  /** `{ ...progress, progressToken }` */
  function ProgressParams(progress: map<string, Json>, token: Json): map<string, Json> {
    progress["progressToken" := token]
  }

  /** `context.reportProgress(progress)` */
  function ReportProgress(ctx: Context, progress: map<string, Json>): seq<Effect> {
    if ctx.stateless then [LocalWarn(StatelessWarning(ProgressNotSupported))]
    else if TruthyOpt(ctx.progressToken) then
      [Notify("notifications/progress", ProgressParams(progress, ctx.progressToken.value))]
    else []
  }

  /** `{ message, context }`; an `undefined` context is absent once serialised. */
  function LogData(message: string, data: Option<Json>): map<string, Json> {
    if data.None? then map["message" := JStr(message)]
    else map["message" := JStr(message), "context" := data.value]
  }

  /** `context.log[m](message, data)` */
  function Log(ctx: Context, m: LogMethod, message: string, data: Option<Json>): Effect {
    if ctx.stateless then LocalWarn(StatelessWarning(LoggingNotSupported))
    else SendLog(LevelName(m), LogData(message, data))
  }

  predicate SendsToClient(e: Effect) {
    e.Notify? || e.SendLog?
  }

  /**
   * The context is stateless exactly when the transport's session id is
   * `undefined` (an empty id still counts as a session), and both kinds carry
   * the server and the request they were built from.
   */
  lemma ContextKind(server: ServerRef, request: McpRequest)
    ensures CreateContext(server, request).stateless <==> server.transportSessionId.None?
    ensures CreateContext(server, request).mcpServer == server
    ensures CreateContext(server, request).mcpRequest == request
    ensures server.transportSessionId == Some("") ==> !CreateContext(server, request).stateless
  {
  }

  /**
   * A stateful `reportProgress` sends exactly one progress notification when
   * the request's progress token is truthy and nothing otherwise; the
   * notification's params are the progress fields with `progressToken` set
   * last, so a `progressToken` among the progress fields is overridden.
   */
  lemma ReportProgressGated(server: ServerRef, request: McpRequest, progress: map<string, Json>)
    requires server.transportSessionId.Some?
    ensures var effects := ReportProgress(CreateContext(server, request), progress);
      (|effects| > 0 <==> TruthyOpt(ProgressToken(request))) &&
      (forall e :: e in effects ==> (e.Notify? && e.notification == "notifications/progress" &&
        e.params.Keys == progress.Keys + {"progressToken"} &&
        e.params["progressToken"] == ProgressToken(request).value &&
        forall k :: k in progress && k != "progressToken" ==> e.params[k] == progress[k]))
  {
  }

  /** A numeric token `0` counts as no token: no notification is sent. */
  lemma ZeroTokenSendsNothing(server: ServerRef, progress: map<string, Json>)
    requires server.transportSessionId.Some?
    ensures var request := McpRequest("tools/call", map["_meta" := JObj(map["progressToken" := JNum(0)])]);
      ReportProgress(CreateContext(server, request), progress) == []
  {
    var request := McpRequest("tools/call", map["_meta" := JObj(map["progressToken" := JNum(0)])]);
    assert ProgressToken(request) == Some(JNum(0));
  }

  /**
   * Stateful logging sends one message whose level is the log function's
   * level name; the four names are distinct, so the level identifies the function.
   */
  lemma LogLevels(ctx: Context, m: LogMethod, message: string, data: Option<Json>)
    requires !ctx.stateless
    ensures Log(ctx, m, message, data) == SendLog(LevelName(m), LogData(message, data))
    ensures LevelName(m) in {"debug", "error", "info", "warning"}
    ensures forall m' :: LevelName(m') == LevelName(m) ==> m' == m
    ensures LogData(message, data)["message"] == JStr(message)
    ensures "context" in LogData(message, data) <==> data.Some?
  {
  }

  /** In a stateless context every function only warns locally; nothing reaches the client. */
  lemma StatelessNeverSends(server: ServerRef, request: McpRequest, progress: map<string, Json>,
                            m: LogMethod, message: string, data: Option<Json>)
    requires server.transportSessionId.None?
    ensures var ctx := CreateContext(server, request);
      (forall e :: e in ReportProgress(ctx, progress) ==> !SendsToClient(e)) &&
      |ReportProgress(ctx, progress)| == 1 &&
      Log(ctx, m, message, data) == LocalWarn(StatelessWarning(LoggingNotSupported))
  {
  }
}
