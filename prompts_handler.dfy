/**
 * The prompts handler (src/mcp/services/handlers/mcp-prompts.handler.ts): it
 * installs `prompts/list` and `prompts/get` when at least one prompt is
 * registered. Unlike the tool and resource handlers, the lookup of an unknown
 * prompt happens inside the handler's `try`, so it becomes an `isError` result.
 */
module PromptsHandler {
  import opened Values
  import opened Descriptors
  import opened Registry
  import opened HandlerContext
  import opened ProtocolServer
  import opened ToolsHandler

  /** What `Object.entries(undefined)` throws. */
  const ShapeError := "Cannot convert undefined or null to object"

  /** `{ name, description: field.description, required: !field.isOptional() }` */
  function PromptArgument(f: ShapeField): (r: Json)
    ensures r.JObj? && "name" in r.fields && "required" in r.fields
    ensures r.fields["name"] == JStr(f.key) && r.fields["required"] == JBool(!f.optional)
    ensures "description" in r.fields <==> f.description.Some?
  {
    JObj(map["name" := JStr(f.key), "required" := JBool(!f.optional)] + OptStr("description", f.description))
  }

  /** `Object.entries(shape).map(...)` */
  function PromptArguments(shape: seq<ShapeField>): (r: seq<Json>)
    ensures |r| == |shape|
    ensures forall i :: 0 <= i < |shape| ==> r[i] == PromptArgument(shape[i])
  {
    seq(|shape|, i requires 0 <= i < |shape| => PromptArgument(shape[i]))
  }

  /**
   * One element of the `prompts/list` result. Without parameters the argument
   * list is empty; with a schema that is not an object schema, `.shape` is
   * `undefined` and `Object.entries` throws.
   */
  function PromptListing(e: Entry): (r: Attempt<Json>)
    ensures r.Threw? <==> e.metadata.parameters.Some? && !e.metadata.parameters.value.ZodObject?
    ensures r.Returned? ==> (r.value.JObj? && "arguments" in r.value.fields &&
      r.value.fields["arguments"] == JArr(
        if e.metadata.parameters.None? then [] else PromptArguments(e.metadata.parameters.value.shape)))
  {
    var m := e.metadata;
    if m.parameters.Some? && !m.parameters.value.ZodObject? then Threw(ShapeError)
    else
      var args := if m.parameters.None? then [] else PromptArguments(m.parameters.value.shape);
      Returned(JObj(OptStr("name", m.name) + OptStr("description", m.description) + map["arguments" := JArr(args)]))
  }

  /** `prompts.map(PromptListing)`: the first listing that throws ends the whole list. */
  function PromptListings(prompts: seq<Entry>): (r: Attempt<seq<Json>>)
    ensures r.Returned? <==> forall i :: 0 <= i < |prompts| ==> PromptListing(prompts[i]).Returned?
    ensures r.Returned? ==> (|r.value| == |prompts| &&
      forall i :: 0 <= i < |prompts| ==> r.value[i] == PromptListing(prompts[i]).value)
  {
    if prompts == [] then Returned([])
    else
      match PromptListing(prompts[0])
      case Threw(message) => Threw(message)
      case Returned(first) =>
        match PromptListings(prompts[1..])
        case Threw(message) => Threw(message)
        case Returned(rest) =>
          assert forall i :: 1 <= i < |prompts| ==> prompts[1..][i - 1] == prompts[i];
          Returned([first] + rest)
  }

  /** The `prompts/list` result, or the error the handler throws. */
  function ListPrompts(entries: seq<Entry>): Attempt<Json> {
    match PromptListings(OfKind(entries, PromptKind))
    case Threw(message) => Threw(message)
    case Returned(prompts) => Returned(JObj(map["prompts" := JArr(prompts)]))
  }

  /** `{ contents: [{ mimeType: 'text/plain', text: message }], isError: true }` */
  function PromptError(message: string): Json {
    JObj(map[
      "contents" := JArr([JObj(map["mimeType" := JStr("text/plain"), "text" := JStr(message)])]),
      "isError" := JBool(true)])
  }

  /** The `prompts/get` handler; everything it does is inside its `try`. */
  function GetPrompt(entries: seq<Entry>, server: ServerRef, request: McpRequest,
                     resolve: ProviderToken -> Attempt<bool>, invoke: Invocation -> Attempt<Json>): Outcome
    requires WellFormedCall(request)
  {
    var name := request.params["name"].s;
    match FindByName(entries, PromptKind, Some(name))
    case None => Respond(PromptError(MethodNotFoundText("Unknown prompt: " + name)))
    case Some(promptInfo) =>
      match resolve(promptInfo.providerClass)
      case Threw(message) => Respond(PromptError(message))
      case Returned(found) =>
        if !found then Respond(PromptError(MethodNotFoundText("Unknown prompt: " + name)))
        else
          var context := CreateContext(server, request);
          match invoke(Invocation(promptInfo, Arguments(request), context))
          case Threw(message) => Respond(PromptError(message))
          case Returned(result) => Respond(result)
  }

  /**
   * A prompt request never ends in a protocol error: an unknown name, a
   * failure to resolve, a missing instance and a throwing method all become
   * an `isError` result; otherwise the method's result is returned as it is.
   */
  lemma GetPromptOutcomes(entries: seq<Entry>, server: ServerRef, request: McpRequest,
                          resolve: ProviderToken -> Attempt<bool>, invoke: Invocation -> Attempt<Json>)
    requires WellFormedCall(request)
    ensures var name, out := request.params["name"].s, GetPrompt(entries, server, request, resolve, invoke);
      out.Respond? &&
      ((forall i :: 0 <= i < |entries| ==> !Matches(entries[i], PromptKind, Some(name))) ==>
        out.result == PromptError(MethodNotFoundText("Unknown prompt: " + name)))
    ensures var name, out := request.params["name"].s, GetPrompt(entries, server, request, resolve, invoke);
      FindByName(entries, PromptKind, Some(name)).Some? ==>
      var info := FindByName(entries, PromptKind, Some(name)).value;
      var call := Invocation(info, Arguments(request), CreateContext(server, request));
      info in entries && Matches(info, PromptKind, Some(name)) &&
      out.result == match resolve(info.providerClass)
        case Threw(message) => PromptError(message)
        case Returned(false) => PromptError(MethodNotFoundText("Unknown prompt: " + name))
        case Returned(true) => (if invoke(call).Threw? then PromptError(invoke(call).message) else invoke(call).value)
  {
    FindByNameFirst(entries, PromptKind, Some(request.params["name"].s));
  }

  /** With no prompt registered nothing is installed; otherwise both prompt handlers are. */
  method RegisterHandlers(server: McpServer, registry: McpRegistry)
    modifies server
    ensures server.handlers ==
      if |registry.GetPrompts()| == 0 then old(server.handlers) else old(server.handlers) + {PromptsList, PromptsGet}
    ensures server.installed ==
      if |registry.GetPrompts()| == 0 then old(server.installed) else old(server.installed) + [PromptsList, PromptsGet]
  {
    if |registry.GetPrompts()| == 0 {
      return;
    }
    server.SetRequestHandler(PromptsList);
    server.SetRequestHandler(PromptsGet);
  }
}
