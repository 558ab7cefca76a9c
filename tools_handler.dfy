/**
 * The tools handler (src/mcp/services/handlers/mcp-tools.handler.ts): it
 * installs `tools/list` and `tools/call` when at least one tool is
 * registered. Resolving the provider instance (`moduleRef.resolve`), calling
 * the tool method and `zodToJsonSchema` are outside the model and enter as
 * function parameters.
 */
module ToolsHandler {
  import opened Values
  import opened Descriptors
  import opened Registry
  import opened HandlerContext
  import opened ProtocolServer
  import ToolDecorator

  /** A call of a provider method: the registration, the arguments and the context it is given. */
  datatype Invocation = Invocation(entry: Entry, args: Option<Json>, context: Context)

  function AnnotationsJson(a: ToolAnnotations): Json {
    JObj(OptStr("title", a.title)
      + (if a.readOnlyHint.None? then map[] else map["readOnlyHint" := JBool(a.readOnlyHint.value)])
      + (if a.destructiveHint.None? then map[] else map["destructiveHint" := JBool(a.destructiveHint.value)])
      + (if a.idempotentHint.None? then map[] else map["idempotentHint" := JBool(a.idempotentHint.value)])
      + (if a.openWorldHint.None? then map[] else map["openWorldHint" := JBool(a.openWorldHint.value)]))
  }

  /** The name, description and annotations of a tool listing. */
  function ListingBase(m: Metadata): (r: map<string, Json>)
    ensures "inputSchema" !in r && "outputSchema" !in r
    ensures ("name" in r <==> m.name.Some?) && (m.name.Some? ==> r["name"] == JStr(m.name.value))
    ensures "annotations" in r <==> m.annotations.Some?
  {
    OptStr("name", m.name) + OptStr("description", m.description)
      + (if m.annotations.None? then map[] else map["annotations" := AnnotationsJson(m.annotations.value)])
  }

  /**
   * One element of the `tools/list` result: name, description and annotations,
   * `inputSchema` when parameters are set, and `outputSchema` when an output
   * schema is set, its `type` forced to `'object'`.
   */
  function ToolListing(e: Entry, toJson: Schema -> map<string, Json>): (r: map<string, Json>)
    ensures "inputSchema" in r <==> e.metadata.parameters.Some?
    ensures "inputSchema" in r ==> r["inputSchema"] == JObj(toJson(e.metadata.parameters.value))
    ensures "outputSchema" in r <==> e.metadata.outputSchema.Some?
    ensures "outputSchema" in r ==> (r["outputSchema"].JObj? &&
      var out, schema := r["outputSchema"].fields, toJson(e.metadata.outputSchema.value);
      out.Keys == schema.Keys + {"type"} && out["type"] == JStr("object") &&
      forall k :: k in schema && k != "type" ==> out[k] == schema[k])
    ensures ("name" in r <==> e.metadata.name.Some?) && (e.metadata.name.Some? ==> r["name"] == JStr(e.metadata.name.value))
    ensures "annotations" in r <==> e.metadata.annotations.Some?
  {
    var m := e.metadata;
    var base := ListingBase(m);
    var withInput := if m.parameters.None? then base else base["inputSchema" := JObj(toJson(m.parameters.value))];
    if m.outputSchema.None? then withInput
    else withInput["outputSchema" := JObj(toJson(m.outputSchema.value)["type" := JStr("object")])]
  }

  /** The `tools/list` result: one listing per tool, in registration order. */
  function ListTools(entries: seq<Entry>, toJson: Schema -> map<string, Json>): (r: Json)
    ensures r.JObj? && r.fields.Keys == {"tools"} && r.fields["tools"].JArr?
    ensures var tools, items := OfKind(entries, ToolKind), r.fields["tools"].items;
      |items| == |tools| && forall i :: 0 <= i < |tools| ==> items[i] == JObj(ToolListing(tools[i], toJson))
  {
    var tools := OfKind(entries, ToolKind);
    JObj(map["tools" := JArr(seq(|tools|, i requires 0 <= i < |tools| => JObj(ToolListing(tools[i], toJson))))])
  }

  /**
   * A tool whose metadata went through `@Tool` is always listed with an
   * `inputSchema` (the empty object schema when no parameters were given) and
   * an `outputSchema`.
   */
  lemma DecoratedToolListed(e: Entry, options: Metadata, toJson: Schema -> map<string, Json>)
    requires e.metadata == ToolDecorator.WithSchemaDefaults(options)
    ensures "inputSchema" in ToolListing(e, toJson) && "outputSchema" in ToolListing(e, toJson)
    ensures options.parameters.None? ==> ToolListing(e, toJson)["inputSchema"] == JObj(toJson(EmptyObjectSchema))
  {
  }

  /** `{ content: [{ type: 'text', text: message }], isError: true }` */
  function ToolError(message: string): Json {
    JObj(map[
      "content" := JArr([JObj(map["type" := JStr("text"), "text" := JStr(message)])]),
      "isError" := JBool(true)])
  }

  /** The SDK has checked the request against its schema: `params.name` is a string. */
  predicate WellFormedCall(request: McpRequest) {
    "name" in request.params && request.params["name"].JStr?
  }

  /** `request.params.arguments` */
  function Arguments(request: McpRequest): Option<Json> {
    if "arguments" in request.params then Some(request.params["arguments"]) else None
  }

  /**
   * The `tools/call` handler. `resolve` says what `moduleRef.resolve` gives
   * for a provider (an instance, a falsy value, or an error); `invoke` is the
   * outcome of calling the tool method. An unknown tool is thrown before the
   * `try`, so it ends the request with a protocol error.
   */
  function CallTool(entries: seq<Entry>, server: ServerRef, request: McpRequest,
                    resolve: ProviderToken -> Attempt<bool>, invoke: Invocation -> Attempt<Json>): Outcome
    requires WellFormedCall(request)
  {
    var name := request.params["name"].s;
    match FindByName(entries, ToolKind, Some(name))
    case None => Fail(MethodNotFound, MethodNotFoundText("Unknown tool: " + name))
    case Some(toolInfo) =>
      match resolve(toolInfo.providerClass)
      case Threw(message) => Respond(ToolError(message))
      case Returned(found) =>
        var context := CreateContext(server, request);
        if !found then Respond(ToolError(MethodNotFoundText("Unknown tool: " + name)))
        else
          match invoke(Invocation(toolInfo, Arguments(request), context))
          case Threw(message) => Respond(ToolError(message))
          case Returned(result) => Respond(result)
  }

  /**
   * A call ends in a protocol error exactly when no tool has the requested
   * name; a failure to resolve the provider, a missing instance and a throwing
   * method become an `isError` result; otherwise the method's result is
   * returned as it is, the method having been given the request's arguments
   * and the context built for this server and request.
   */
  lemma CallToolOutcomes(entries: seq<Entry>, server: ServerRef, request: McpRequest,
                         resolve: ProviderToken -> Attempt<bool>, invoke: Invocation -> Attempt<Json>)
    requires WellFormedCall(request)
    ensures var name, out := request.params["name"].s, CallTool(entries, server, request, resolve, invoke);
      (out.Fail? <==> forall i :: 0 <= i < |entries| ==> !Matches(entries[i], ToolKind, Some(name))) &&
      (out.Fail? ==> out == Fail(MethodNotFound, MethodNotFoundText("Unknown tool: " + name)))
    ensures var name, out := request.params["name"].s, CallTool(entries, server, request, resolve, invoke);
      out.Respond? ==>
      var info := FindByName(entries, ToolKind, Some(name)).value;
      var call := Invocation(info, Arguments(request), CreateContext(server, request));
      info in entries && Matches(info, ToolKind, Some(name)) &&
      out.result == match resolve(info.providerClass)
        case Threw(message) => ToolError(message)
        case Returned(false) => ToolError(MethodNotFoundText("Unknown tool: " + name))
        case Returned(true) => (if invoke(call).Threw? then ToolError(invoke(call).message) else invoke(call).value)
  {
    var name := request.params["name"].s;
    FindByNameFirst(entries, ToolKind, Some(name));
  }

  /** With no tool registered nothing is installed; otherwise both tool handlers are. */
  method RegisterHandlers(server: McpServer, registry: McpRegistry)
    modifies server
    ensures server.handlers ==
      if |registry.GetTools()| == 0 then old(server.handlers) else old(server.handlers) + {ToolsList, ToolsCall}
    ensures server.installed ==
      if |registry.GetTools()| == 0 then old(server.installed) else old(server.installed) + [ToolsList, ToolsCall]
  {
    if |registry.GetTools()| == 0 {
      return;
    }
    server.SetRequestHandler(ToolsList);
    server.SetRequestHandler(ToolsCall);
  }
}
