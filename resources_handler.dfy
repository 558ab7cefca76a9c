/**
 * The resources handler (src/mcp/services/handlers/mcp-resources.handler.ts):
 * it installs `resources/list` and `resources/read` when at least one
 * resource is registered. A read looks the URI up by template; the method
 * receives the template's parameters overlaid by the request's params.
 */
module ResourcesHandler {
  import opened Values
  import opened Descriptors
  import opened Registry
  import opened HandlerContext
  import opened ProtocolServer
  import opened ToolsHandler
  import UriTemplates

  /** A resource's metadata as it appears in the `resources/list` result. */
  function ResourceMetadataJson(m: Metadata): Json {
    JObj(OptStr("name", m.name) + OptStr("description", m.description) + OptStr("uri", m.uri)
      + OptStr("mimeType", m.mimeType))
  }

  /** The `resources/list` result: each resource's metadata, in registration order. */
  function ListResources(entries: seq<Entry>): (r: Json)
    ensures r.JObj? && r.fields.Keys == {"resources"} && r.fields["resources"].JArr?
    ensures var resources, items := OfKind(entries, ResourceKind), r.fields["resources"].items;
      |items| == |resources| && forall i :: 0 <= i < |resources| ==> items[i] == ResourceMetadataJson(resources[i].metadata)
  {
    var resources := OfKind(entries, ResourceKind);
    JObj(map["resources" := JArr(seq(|resources|, i requires 0 <= i < |resources| => ResourceMetadataJson(resources[i].metadata)))])
  }

  /** `{ contents: [{ uri, mimeType: 'text/plain', text: message }], isError: true }` */
  function ResourceError(uri: string, message: string): Json {
    JObj(map[
      "contents" := JArr([JObj(map["uri" := JStr(uri), "mimeType" := JStr("text/plain"), "text" := JStr(message)])]),
      "isError" := JBool(true)])
  }

  /** The SDK has checked the request against its schema: `params.uri` is a string. */
  predicate WellFormedRead(request: McpRequest) {
    "uri" in request.params && request.params["uri"].JStr?
  }

  /** `{ ...resourceInfo.params, ...request.params }`: the request's params win. */
  function RequestParams(templateParams: map<string, string>, request: McpRequest): (r: map<string, Json>)
    ensures r.Keys == templateParams.Keys + request.params.Keys
    ensures forall k :: k in request.params ==> r[k] == request.params[k]
    ensures forall k :: k in templateParams && k !in request.params ==> r[k] == JStr(templateParams[k])
  {
    StringsToJson(templateParams) + request.params
  }

  /**
   * The `resources/read` handler. An unmatched URI is thrown before the `try`
   * and ends the request with a protocol error.
   */
  function ReadResource(entries: seq<Entry>, server: ServerRef, request: McpRequest,
                        resolve: ProviderToken -> Attempt<bool>, invoke: Invocation -> Attempt<Json>): Outcome
    requires WellFormedRead(request)
  {
    var uri := request.params["uri"].s;
    match ResourceLookup(entries, uri)
    case None => Fail(MethodNotFound, MethodNotFoundText("Unknown resource: " + uri))
    case Some(resourceInfo) =>
      match resolve(resourceInfo.resource.providerClass)
      case Threw(message) => Respond(ResourceError(uri, message))
      case Returned(found) =>
        if !found then Respond(ResourceError(uri, MethodNotFoundText("Unknown resource: " + uri)))
        else
          var context := CreateContext(server, request);
          var requestParams := RequestParams(resourceInfo.params, request);
          match invoke(Invocation(resourceInfo.resource, Some(JObj(requestParams)), context))
          case Threw(message) => Respond(ResourceError(uri, message))
          case Returned(result) => Respond(result)
  }

  /**
   * A read ends in a protocol error exactly when no resource template matches
   * the URI; otherwise a failure becomes an `isError` result naming the URI,
   * and a successful call's result is returned as it is. The method is given
   * the params of the matched template overlaid by the request's params, so
   * `uri` is always among them.
   */
  lemma ReadResourceOutcomes(entries: seq<Entry>, server: ServerRef, request: McpRequest,
                             resolve: ProviderToken -> Attempt<bool>, invoke: Invocation -> Attempt<Json>)
    requires WellFormedRead(request)
    ensures var uri, out := request.params["uri"].s, ReadResource(entries, server, request, resolve, invoke);
      var resources, stripped := OfKind(entries, ResourceKind), UriTemplates.ConvertUri(uri);
      (out.Fail? <==> forall j :: 0 <= j < |resources| ==> !TemplateMatches(resources[j], stripped)) &&
      (out.Fail? ==> out == Fail(MethodNotFound, MethodNotFoundText("Unknown resource: " + uri)))
    ensures var uri, out := request.params["uri"].s, ReadResource(entries, server, request, resolve, invoke);
      out.Respond? ==>
      var info := ResourceLookup(entries, uri).value;
      var params := RequestParams(info.params, request);
      var call := Invocation(info.resource, Some(JObj(params)), CreateContext(server, request));
      "uri" in params && params["uri"] == JStr(uri) &&
      out.result == match resolve(info.resource.providerClass)
        case Threw(message) => ResourceError(uri, message)
        case Returned(false) => ResourceError(uri, MethodNotFoundText("Unknown resource: " + uri))
        case Returned(true) => (if invoke(call).Threw? then ResourceError(uri, invoke(call).message) else invoke(call).value)
  {
    ResourceLookupSpec(entries, request.params["uri"].s);
  }

  /** With no resource registered nothing is installed; otherwise both resource handlers are. */
  method RegisterHandlers(server: McpServer, registry: McpRegistry)
    modifies server
    ensures server.handlers ==
      if |registry.GetResources()| == 0 then old(server.handlers) else old(server.handlers) + {ResourcesList, ResourcesRead}
    ensures server.installed ==
      if |registry.GetResources()| == 0 then old(server.installed) else old(server.installed) + [ResourcesList, ResourcesRead]
  {
    if |registry.GetResources()| == 0 {
      return;
    }
    server.SetRequestHandler(ResourcesList);
    server.SetRequestHandler(ResourcesRead);
  }
}
