# MCP server core for NestJS, modelled in Dafny

This project models the core of a NestJS module that exposes a Model Context
Protocol (MCP) server. The model covers seven parts:

- **Registry.** It discovers the provider methods decorated as tools, resources
  and prompts, and answers lookups by name and by URI template.
- **Capabilities builder.** It advertises a capability for each category that
  has registrations.
- **Request handlers.** They install the `tools/*`, `resources/*` and `prompts/*`
  handlers, list each category, and turn a call into a result, an `isError`
  result or a protocol error.
- **Handler context.** It is given to provider methods and is either stateful
  (progress and logging reach the client) or stateless (they only warn
  locally).
- **Streamable HTTP controller.** It keeps the per-session dictionaries of
  transports and servers, or builds a fresh server per request in stateless
  mode.
- **SSE controller and keep-alive service.** They keep the SSE sessions and ping
  the open streams with event-stream comment frames.
- **`McpModule.forRoot`.** It merges options and selects the controllers and
  providers.

Pure code is modelled as datatypes, functions and lemmas. The registry, the
two controllers, the keep-alive service and the tool decorator's option
object are classes whose methods update fields. Things outside the model enter
as function parameters or numbered handles:

- resolving a provider instance;
- calling the provider method;
- converting a zod schema to JSON Schema;
- the SDK's transports.

What the controllers do with them is recorded as a sequence of events.

Each file holds one module:

| file | module | source |
|---|---|---|
| values.dfy | Values | JSON values, truthiness, `Option`, an outcome that may throw |
| descriptors.dfy | Descriptors | decorator metadata (src/mcp/decorators) |
| normalize_endpoint.dfy | Endpoints | src/mcp/utils/normalize-endpoint.ts |
| uri_templates.dfy | UriTemplates | `convertUri`, `convertTemplate` and path matching of src/mcp/services/mcp-registry.service.ts |
| registry.dfy | Registry | src/mcp/services/mcp-registry.service.ts |
| capabilities_builder.dfy | Capabilities | src/mcp/utils/capabilities-builder.ts |
| tool_decorator.dfy | ToolDecorator | src/mcp/decorators/tool.decorator.ts |
| handler_context.dfy | HandlerContext | src/mcp/services/handlers/mcp-handler.base.ts |
| protocol_server.dfy | ProtocolServer | the SDK server's handler table, as the handlers use it |
| tools_handler.dfy | ToolsHandler | src/mcp/services/handlers/mcp-tools.handler.ts |
| resources_handler.dfy | ResourcesHandler | src/mcp/services/handlers/mcp-resources.handler.ts |
| prompts_handler.dfy | PromptsHandler | src/mcp/services/handlers/mcp-prompts.handler.ts |
| mcp_executor.dfy | Executor | src/mcp/services/mcp-executor.service.ts |
| streamable_http.dfy | StreamableHttp | src/mcp/transport/streamable-http.controller.factory.ts |
| sse_ping.dfy | SsePing | src/mcp/services/sse-ping.service.ts |
| sse_controller.dfy | SseTransport | src/mcp/transport/sse.controller.factory.ts |
| mcp_module.dfy | McpModule | src/mcp/mcp.module.ts |

## Model

| member | source | states |
|---|---|---|
| Endpoints.CollapseSlashes | src/mcp/utils/normalize-endpoint.ts:5 | `replace(/\/+/g, '/')`, one character at a time: a `/` followed by another `/` is dropped, anything else kept; no contract of its own, its properties are the lemmas below |
| Endpoints.NormalizeEndpoint | src/mcp/utils/normalize-endpoint.ts:4-7 | `normalizeEndpoint`: `null`/`undefined` to the empty string, otherwise slash runs collapsed and one leading slash dropped; no contract of its own, its properties are the lemmas below |
| Endpoints.CollapseShape | src/mcp/utils/normalize-endpoint.ts:5 | replacing runs of `/` leaves no `//`, never lengthens the string, and keeps its first and last character |
| Endpoints.CollapseKeepsClean | src/mcp/utils/normalize-endpoint.ts:5 | a string without `//` is left unchanged by the replacement |
| Endpoints.CollapseKeepsNonSlash | src/mcp/utils/normalize-endpoint.ts:5 | the replacement keeps every non-slash character, in order |
| Endpoints.CollapseRun | src/mcp/utils/normalize-endpoint.ts:5 | a run of one or more slashes in front of text not starting with `/` becomes a single slash |
| Endpoints.CollapseRunBetween | src/mcp/utils/normalize-endpoint.ts:5 | `a` + a run of k >= 1 slashes + `b`, with `a` not ending and `b` not starting with `/`, collapses to the collapsed `a`, one `/`, and the collapsed `b` |
| Endpoints.NormalizeMissing | src/mcp/utils/normalize-endpoint.ts:5 | `null`/`undefined` normalises to the empty string |
| Endpoints.NormalizeShape | src/mcp/utils/normalize-endpoint.ts:4-7 | a normalised endpoint has no `//`, does not start with `/`, and keeps the non-slash characters of the input |
| Endpoints.NormalizeIdempotent | src/mcp/utils/normalize-endpoint.ts:4-7 | normalising twice gives the same as normalising once |
| Endpoints.NormalizeKeepsTrailingSlash | src/mcp/utils/normalize-endpoint.ts:4-7 | a trailing slash survives normalisation when the input has a non-slash character |
| Endpoints.NormalizeExample | src/mcp/utils/normalize-endpoint.ts:4-7 | `//a//b/` normalises to `a/b/` |
| UriTemplates.IndexOfSep | src/mcp/services/mcp-registry.service.ts:218-219 | the index of the first `://`, or none exactly when the string has none |
| UriTemplates.ConvertUri | src/mcp/services/mcp-registry.service.ts:217-223 | `convertUri`: the URI itself without `://`, else `split('://')[1]`; no contract of its own, its properties are the lemmas below |
| UriTemplates.ConvertUriUnchanged | src/mcp/services/mcp-registry.service.ts:217-223 | a URI without `://` is returned unchanged |
| UriTemplates.ConvertUriBetween | src/mcp/services/mcp-registry.service.ts:218-219 | with `://`, the result is the text between the first `://` and the next one (or the end), as `split('://')[1]` gives, and holds no `://` |
| UriTemplates.ConvertUriIdempotent | src/mcp/services/mcp-registry.service.ts:217-223 | converting a converted URI changes nothing |
| UriTemplates.ConvertUriExample | src/mcp/services/mcp-registry.service.ts:217-223 | `scheme://items/42` becomes `items/42`; `items/42` stays |
| UriTemplates.WordRun | src/mcp/services/mcp-registry.service.ts:214 | the length of the longest prefix of `\w` characters |
| UriTemplates.PlaceholderAt | src/mcp/services/mcp-registry.service.ts:214 | a positive result n means the string starts with `{`, n word characters and `}` |
| UriTemplates.ConvertTemplate | src/mcp/services/mcp-registry.service.ts:213-215 | `replace(/{(\w+)}/g, ':$1')` scanned left to right; no contract of its own, its properties are the lemmas below |
| UriTemplates.ConvertTemplateNoBrace | src/mcp/services/mcp-registry.service.ts:213-215 | a template without `{` is unchanged |
| UriTemplates.ConvertTemplatePlaceholder | src/mcp/services/mcp-registry.service.ts:214 | a leading `{word}` becomes `:word` and the rest is converted on |
| UriTemplates.ConvertTemplatePrefix | src/mcp/services/mcp-registry.service.ts:214 | a brace-free prefix is kept as it is |
| UriTemplates.ConvertTemplateLiteral | src/mcp/services/mcp-registry.service.ts:214 | a template not starting with a `{word}` placeholder keeps its first character and the rest is converted on |
| UriTemplates.ConvertTemplateStrayBrace | src/mcp/services/mcp-registry.service.ts:214 | a `{` not followed by a word character is copied and conversion resumes after it |
| UriTemplates.ConvertTemplateDoubleBraceExample | src/mcp/services/mcp-registry.service.ts:213-215 | `{{id}}` becomes `{:id}`: only the inner brace opens a placeholder |
| UriTemplates.ConvertTemplateExample | src/mcp/services/mcp-registry.service.ts:213-215 | `items/{id}` becomes `items/:id` |
| UriTemplates.MatchPath | src/mcp/services/mcp-registry.service.ts:247-248 | `match(path, { decode })(uri)`: both split at `/`, segment by segment; a `:name` segment takes any non-empty segment, a literal segment one equal to it up to the case of ASCII letters, as path-to-regexp's default `sensitive: false` does; no contract of its own, its meaning is the lemmas below |
| UriTemplates.MatchSegmentsIff | src/mcp/services/mcp-registry.service.ts:247-248 | a template matches iff it has as many segments as the path and each segment accepts its counterpart; the parameters are then exactly the template's parameter names, each bound to a segment it captured |
| UriTemplates.MatchLiteralThenParam | src/mcp/services/mcp-registry.service.ts:247-248 | `lit/:name` matches `lit/value` with `{name: value}` and does not match `lit` alone |
| UriTemplates.MatchLiteralIgnoresCase | src/mcp/services/mcp-registry.service.ts:247-248 | `lit/:name` matches `other/value` iff `other` equals `lit` up to the case of ASCII letters, and then binds `{name: value}` with the value as written |
| UriTemplates.MatchPathIgnoresCaseExample | src/mcp/services/mcp-registry.service.ts:247-248 | `items/:id` matches `ITEMS/42` with `{id: "42"}` |
| UriTemplates.MatchPathLiteralMismatchExample | src/mcp/services/mcp-registry.service.ts:247-248 | `items/:id` does not match `itemz/42`: only case is ignored |
| Registry.WithDefaultName | src/mcp/services/mcp-registry.service.ts:115-119 | a falsy metadata name is replaced by the method name; a truthy one and every other field are kept |
| Registry.McpRegistry.constructor | src/mcp/services/mcp-registry.service.ts:34 | the registry starts empty |
| Registry.McpRegistry.AddDiscovery | src/mcp/services/mcp-registry.service.ts:108-127 | exactly one entry is appended: kind, metadata with the default name, provider token, method name |
| Registry.McpRegistry.AddMethod | src/mcp/services/mcp-registry.service.ts:71-91 | one method adds a tool, a resource and a prompt entry, in that order, for each kind of metadata it bears |
| Registry.McpRegistry.AddInstance | src/mcp/services/mcp-registry.service.ts:70-92 | an instance adds its methods' entries in method order |
| Registry.McpRegistry.DiscoverWrapper | src/mcp/services/mcp-registry.service.ts:52-62 | a wrapper without an instance is filtered out and registers nothing; one with an instance registers its methods' entries |
| Registry.McpRegistry.DiscoverTools | src/mcp/services/mcp-registry.service.ts:48-103 | discovery appends the entries of every wrapper holding an instance, in wrapper order |
| Registry.MethodsEntriesSnoc | src/mcp/services/mcp-registry.service.ts:71-91 | the entries of one more method are appended after those of the earlier ones |
| Registry.DiscoveredSnoc | src/mcp/services/mcp-registry.service.ts:70-92 | the entries of one more wrapper are appended after those of the earlier ones |
| Registry.DiscoveredAppend | src/mcp/services/mcp-registry.service.ts:50-62 | discovering providers followed by controllers gives the providers' entries followed by the controllers' |
| Registry.MethodsEntriesNamed | src/mcp/services/mcp-registry.service.ts:108-127 | every entry of an instance is named and carries that instance's token |
| Registry.DiscoveredNamed | src/mcp/services/mcp-registry.service.ts:52-119 | every discovered entry is named and comes from a wrapper that holds an instance |
| Registry.OfKind | src/mcp/services/mcp-registry.service.ts:174-204 | `filter(d => d.type === k)` over the discovered entries; no contract of its own, its properties are the lemmas below |
| Registry.OfKindMembers | src/mcp/services/mcp-registry.service.ts:174-176 | filtering by kind keeps exactly the entries of that kind |
| Registry.OfKindAppend | src/mcp/services/mcp-registry.service.ts:174-204 | filtering distributes over concatenation |
| Registry.FindByName | src/mcp/services/mcp-registry.service.ts:181-211 | `find(d => d.type === k && d.metadata.name === name)`; no contract of its own, its meaning is `FindByNameFirst` |
| Registry.FirstNamedSpec | src/mcp/services/mcp-registry.service.ts:181-183 | `find` by name gives none iff no element has the name, and otherwise the first element that has it |
| Registry.FindByNameUnfold | src/mcp/services/mcp-registry.service.ts:181-211 | the lookup over a non-empty list takes its head when that matches, else searches the tail |
| Registry.FindByNameFirst | src/mcp/services/mcp-registry.service.ts:181-211 | a lookup by kind and name gives none iff no entry of that kind has the name, and otherwise the first such entry in registration order |
| Registry.McpRegistry.GetTools | src/mcp/services/mcp-registry.service.ts:174-176 | exactly the registered tools, in registration order (the kind filter `OfKind` of the registrations) |
| Registry.McpRegistry.GetResources | src/mcp/services/mcp-registry.service.ts:188-190 | exactly the registered resources, in registration order (the kind filter `OfKind` of the registrations) |
| Registry.McpRegistry.GetPrompts | src/mcp/services/mcp-registry.service.ts:202-204 | exactly the registered prompts, in registration order (the kind filter `OfKind` of the registrations) |
| Registry.McpRegistry.FindTool | src/mcp/services/mcp-registry.service.ts:181-183 | a found tool is registered, is a tool and has the requested name; the result is the by-name lookup `FindByName`, so the first such tool in registration order |
| Registry.McpRegistry.FindResource | src/mcp/services/mcp-registry.service.ts:195-197 | a found resource is registered, is a resource and has the requested name; the result is the by-name lookup `FindByName`, so the first such resource in registration order |
| Registry.McpRegistry.FindPrompt | src/mcp/services/mcp-registry.service.ts:209-211 | a found prompt is registered, is a prompt and has the requested name; the result is the by-name lookup `FindByName`, so the first such prompt in registration order |
| Registry.NameLookupNeverFails | src/mcp/services/mcp-registry.service.ts:250-252 | looking up a resource's own name always finds a resource, so the `continue` after a failed lookup is never taken |
| Registry.ResourceLookup | src/mcp/services/mcp-registry.service.ts:229-262 | `findResourceByUri` as a scan over the resources; no contract of its own, its meaning is `ResourceLookupSpec` |
| Registry.LookupFromSpec | src/mcp/services/mcp-registry.service.ts:242-261 | scanning from position i finds none iff no later resource's template matches, and otherwise stops at the first that does |
| Registry.ResourceLookupSpec | src/mcp/services/mcp-registry.service.ts:229-262 | none iff no resource's template matches the stripped URI; otherwise the params are those of the first matching template, and the resource is the first resource bearing that template's resource's name |
| Registry.ResourceLookupShadowed | src/mcp/services/mcp-registry.service.ts:250-257 | when two resources share a name and only the second's template matches, the first is returned with the second's params |
| Registry.TemplatePathExample | src/mcp/services/mcp-registry.service.ts:245-246 | the template `items/{id}` becomes the path `items/:id` |
| Registry.MatchPathExample | src/mcp/services/mcp-registry.service.ts:247-248 | `items/:id` matches `items/42` with `{id: "42"}` |
| Registry.SingleResourceLookup | src/mcp/services/mcp-registry.service.ts:229-262 | a lone resource whose template matches the stripped URI is found, with the matched parameters |
| Registry.ResourceLookupExample | src/mcp/services/mcp-registry.service.ts:229-262 | a resource with URI `items/{id}` is found for `scheme://items/42` with `{id: "42"}` |
| Registry.McpRegistry.FindResourceByUri | src/mcp/services/mcp-registry.service.ts:229-262 | the loop returns the first match, as the lookup specification says |
| Capabilities.BuildMcpCapabilities | src/mcp/utils/capabilities-builder.ts:9-44 | the keys are the caller's plus the advertised categories; an advertised category the caller left falsy gets `{listChanged: true}`, and every other value is the caller's |
| Capabilities.AdvertisedIff | src/mcp/utils/capabilities-builder.ts:19-41 | a category is truthy in the result iff it has registrations or the caller gave it a truthy value; with registrations, a truthy caller value is kept |
| Capabilities.EmptyCategoryUntouched | src/mcp/utils/capabilities-builder.ts:14-16 | a category without registrations is exactly as the caller gave it, possibly absent |
| Capabilities.OtherFieldsCopied | src/mcp/utils/capabilities-builder.ts:14-16 | every other caller field is copied unchanged and no other field appears |
| Capabilities.ResourceTemplatesWithResources | src/mcp/utils/capabilities-builder.ts:25-34 | with a resource registered, `resources` and `resourceTemplates` are both advertised |
| Capabilities.BuildIdempotent | src/mcp/utils/capabilities-builder.ts:14-43 | building again from a built result changes nothing |
| Capabilities.OneResourceExample | src/mcp/utils/capabilities-builder.ts:19-43 | one resource and no caller capabilities give exactly `{resources, resourceTemplates}` |
| ToolDecorator.ToolOptions.constructor | src/mcp/decorators/tool.decorator.ts:21-27 | the option object holds the given fields |
| ToolDecorator.WithSchemaDefaults | src/mcp/decorators/tool.decorator.ts:39-44 | missing parameters become `z.object({})` and a missing output schema `z.any()`; all else is kept |
| ToolDecorator.Tool | src/mcp/decorators/tool.decorator.ts:38-46 | the caller's option object is updated in place with the defaults and is the metadata stored |
| ToolDecorator.WithSchemaDefaultsIdempotent | src/mcp/decorators/tool.decorator.ts:39-44 | applying the defaults twice is the same as once |
| ToolDecorator.DecoratedShape | src/mcp/decorators/tool.decorator.ts:38-45 | decorated metadata always has both schemas; given schemas, name, description and annotations are kept |
| HandlerContext.ProgressToken | src/mcp/services/handlers/mcp-handler.base.ts:28 | a token exists iff `params._meta` is an object holding `progressToken` |
| HandlerContext.CreateContext | src/mcp/services/handlers/mcp-handler.base.ts:19-26 | `createContext`, deferring to `createStatelessContext` without a session id; no contract of its own, its meaning is `ContextKind` |
| HandlerContext.ReportProgress | src/mcp/services/handlers/mcp-handler.base.ts:30-40 | `reportProgress` as the effects it has; no contract of its own, its meaning is `ReportProgressGated` and `StatelessNeverSends` |
| HandlerContext.Log | src/mcp/services/handlers/mcp-handler.base.ts:41-105 | each `log.*` function as the effect it has; no contract of its own, its meaning is `LogLevels` and `StatelessNeverSends` |
| HandlerContext.ContextKind | src/mcp/services/handlers/mcp-handler.base.ts:19-26 | the context is stateless iff the transport's session id is `undefined` (an empty id is stateful); it carries the server and the request |
| HandlerContext.ReportProgressGated | src/mcp/services/handlers/mcp-handler.base.ts:30-40 | a stateful context notifies `notifications/progress` iff the token is truthy, with the progress fields and `progressToken` set last |
| HandlerContext.ZeroTokenSendsNothing | src/mcp/services/handlers/mcp-handler.base.ts:31 | the numeric token `0` sends no notification |
| HandlerContext.LogLevels | src/mcp/services/handlers/mcp-handler.base.ts:41-66 | each stateful log function sends one logging message whose level is debug, error, info or warning, distinct per function, and whose data holds the message |
| HandlerContext.StatelessNeverSends | src/mcp/services/handlers/mcp-handler.base.ts:72-105 | a stateless context sends nothing to the client; each function only warns locally |
| ProtocolServer.McpServer.constructor | src/mcp/services/handlers/mcp-tools.handler.ts:21 | a server starts with none of the core's `tools/*`, `resources/*` or `prompts/*` handlers installed (the SDK's own `ping` and `initialize` handlers are outside this table) |
| ProtocolServer.McpServer.SetRequestHandler | src/mcp/services/handlers/mcp-tools.handler.ts:27 | installing a handler adds its method name to the handler table and appends it to the installation order |
| ToolsHandler.ToolListing | src/mcp/services/handlers/mcp-tools.handler.ts:28-55 | `inputSchema` is present iff parameters are set; `outputSchema` is present iff an output schema is set, and is the converted schema with `type` forced to `object`; name and annotations are present iff set |
| ToolsHandler.ListTools | src/mcp/services/handlers/mcp-tools.handler.ts:27-60 | `{tools}` holds one listing per registered tool, in registration order |
| ToolsHandler.DecoratedToolListed | src/mcp/services/handlers/mcp-tools.handler.ts:37-52 | a tool declared with `@Tool` always lists both schemas; without parameters its input schema is that of `z.object({})` |
| ToolsHandler.CallTool | src/mcp/services/handlers/mcp-tools.handler.ts:62-114 | the `tools/call` handler as a value; no contract of its own, its outcomes are `CallToolOutcomes` |
| ToolsHandler.CallToolOutcomes | src/mcp/services/handlers/mcp-tools.handler.ts:62-114 | a protocol error -32601 with the message `MCP error -32601: Unknown tool: <name>` iff no tool has the name; otherwise the first tool with that name is used and resolve failures, a missing instance and a throwing method become `isError` results, else the method's result is returned |
| ToolsHandler.RegisterHandlers | src/mcp/services/handlers/mcp-tools.handler.ts:21-115 | nothing is installed without tools; otherwise `tools/list` and `tools/call` are |
| ResourcesHandler.ListResources | src/mcp/services/handlers/mcp-resources.handler.ts:26-33 | `{resources}` holds each registered resource's metadata, in order |
| ResourcesHandler.RequestParams | src/mcp/services/handlers/mcp-resources.handler.ts:69-72 | the keys are the template params' and the request params'; a request param wins over a template param of the same name |
| ResourcesHandler.ReadResource | src/mcp/services/handlers/mcp-resources.handler.ts:35-95 | the `resources/read` handler as a value; no contract of its own, its outcomes are `ReadResourceOutcomes` |
| ResourcesHandler.ReadResourceOutcomes | src/mcp/services/handlers/mcp-resources.handler.ts:35-95 | a protocol error -32601 with the message `MCP error -32601: Unknown resource: <uri>` iff no template matches; otherwise failures become `isError` results carrying the URI, and the method is called with the merged params, whose `uri` is the request's |
| ResourcesHandler.RegisterHandlers | src/mcp/services/handlers/mcp-resources.handler.ts:20-96 | nothing is installed without resources; otherwise `resources/list` and `resources/read` are |
| PromptsHandler.PromptArgument | src/mcp/services/handlers/mcp-prompts.handler.ts:34-38 | an argument is named by its shape key, is required iff the field is not optional, and has a description iff the field has one |
| PromptsHandler.PromptArguments | src/mcp/services/handlers/mcp-prompts.handler.ts:32-40 | one argument per shape field, in order |
| PromptsHandler.PromptListing | src/mcp/services/handlers/mcp-prompts.handler.ts:29-41 | listing throws iff the parameters are set but are not an object schema; without parameters the arguments are empty |
| PromptsHandler.ListPrompts | src/mcp/services/handlers/mcp-prompts.handler.ts:26-46 | the `prompts/list` handler: `{prompts}` from the listings, or the first throw; no contract of its own, its meaning is `PromptListings` |
| PromptsHandler.PromptListings | src/mcp/services/handlers/mcp-prompts.handler.ts:26-46 | the list succeeds iff every prompt's listing does, and then holds them in order |
| PromptsHandler.GetPrompt | src/mcp/services/handlers/mcp-prompts.handler.ts:48-102 | the `prompts/get` handler as a value; no contract of its own, its outcomes are `GetPromptOutcomes` |
| PromptsHandler.GetPromptOutcomes | src/mcp/services/handlers/mcp-prompts.handler.ts:48-102 | `prompts/get` always responds: an unknown name, resolve failures, a missing instance and a throwing method all become `isError` results; else the method's result |
| PromptsHandler.RegisterHandlers | src/mcp/services/handlers/mcp-prompts.handler.ts:21-103 | nothing is installed without prompts; otherwise `prompts/list` and `prompts/get` are |
| Executor.RegisterRequestHandlers | src/mcp/services/mcp-executor.service.ts:31-35 | the tool, resource and prompt handlers are installed in that order (the server's installation sequence grows by exactly those names), each category only when it has registrations; the handler table grows by the same names |
| StreamableHttp.AnyInitialize | src/mcp/transport/streamable-http.controller.factory.ts:348-356 | some element of the batch is an object whose `method` is `initialize` |
| StreamableHttp.IsInitializeRequest | src/mcp/transport/streamable-http.controller.factory.ts:347-363 | `isInitializeRequest` for a message or a batch; no contract of its own, its meaning is `IsInitializeRequestIff` |
| StreamableHttp.IsInitializeRequestIff | src/mcp/transport/streamable-http.controller.factory.ts:347-363 | a body is an initialize request iff it is such a message or a batch holding one |
| StreamableHttp.StatefulRoute | src/mcp/transport/streamable-http.controller.factory.ts:194-254 | the branch `handleStatefulRequest` takes; no contract of its own, its meaning is `StatefulRouteCases` |
| StreamableHttp.StatefulRouteCases | src/mcp/transport/streamable-http.controller.factory.ts:194-254 | a known non-empty session id is reused whatever the body; an initialize body without a session id opens a session; an unknown supplied id is rejected even with an initialize body |
| StreamableHttp.SessionGuard | src/mcp/transport/streamable-http.controller.factory.ts:290-308 | the guard GET and DELETE share; no contract of its own, its meaning is `SessionGuardCases` |
| StreamableHttp.SessionGuardCases | src/mcp/transport/streamable-http.controller.factory.ts:290-308 | GET and DELETE are refused in stateless mode, and in stateful mode proceed iff a known non-empty session id is supplied |
| StreamableHttp.StatelessEvents | src/mcp/transport/streamable-http.controller.factory.ts:150-174 | the events of one stateless request by which awaited call rejects; no contract of its own, its meaning is `StatelessTeardown` |
| StreamableHttp.StatelessTeardown | src/mcp/transport/streamable-http.controller.factory.ts:150-174 | a failure in `handleRequest` closes the transport and then the server; a failure while creating the server closes nothing, even once connected; success defers closing to the response's close |
| StreamableHttp.StreamableHttpController.constructor | src/mcp/transport/streamable-http.controller.factory.ts:51 | stateless mode iff `streamableHttp.statelessMode` is true; no sessions |
| StreamableHttp.StreamableHttpController.HandleStatefulRequest | src/mcp/transport/streamable-http.controller.factory.ts:180-283 | follows the route: 400 `Bad Request` and no change when rejected; on reuse, handlers registered and then the request handled, both skipped when resolving the executor rejects; on initialize, a new server and transport stored under the assigned id only when that id is truthy and both `connect` and `handleRequest` resolved, nothing stored when either rejects; the request throws exactly when one of its awaited calls rejects; the 404 branch cannot be taken while both dictionaries have the same keys |
| StreamableHttp.StreamableHttpController.HandleStatelessRequest | src/mcp/transport/streamable-http.controller.factory.ts:139-175 | the sessions are untouched; the request throws iff some step failed, and the events are those of the teardown specification |
| StreamableHttp.StreamableHttpController.OnResponseClose | src/mcp/transport/streamable-http.controller.factory.ts:163-167 | closing a stateless response closes its transport and then its server |
| StreamableHttp.StreamableHttpController.HandlePostRequest | src/mcp/transport/streamable-http.controller.factory.ts:108-134 | stateless mode never touches the session dictionaries; the dictionaries keep the same keys |
| StreamableHttp.StreamableHttpController.CleanupSession | src/mcp/transport/streamable-http.controller.factory.ts:366-372 | the id is removed from both dictionaries; an empty id changes nothing |
| StreamableHttp.StreamableHttpController.OnTransportClose | src/mcp/transport/streamable-http.controller.factory.ts:234-236 | a transport closing removes its session from both dictionaries; nothing else changes |
| StreamableHttp.StreamableHttpController.HandleGetRequest | src/mcp/transport/streamable-http.controller.factory.ts:288-313 | 405 in stateless mode, 400 `Invalid or missing session ID` for a missing or unknown id, else the session's transport handles the request; throws iff it got that far and `handleRequest` rejects; no state changes |
| StreamableHttp.StreamableHttpController.HandleDeleteRequest | src/mcp/transport/streamable-http.controller.factory.ts:318-344 | as GET, and when the session is known its transport handles the request and then, only if `handleRequest` resolved, the session is removed from both dictionaries; a rejection throws and leaves the session stored |
| StreamableHttp.StoredServersAreStateful | src/mcp/services/handlers/mcp-handler.base.ts:24-26 | a stored session's server hands out stateful contexts, and a stateless request's server stateless ones |
| SsePing.PingFrame | src/mcp/services/sse-ping.service.ts:120 | the ping is a comment line, starting with `:` and ending in a blank line |
| SsePing.SetConnection | src/mcp/services/sse-ping.service.ts:58-65 | `Map.set` on the insertion-ordered connection list; no contract of its own, its meaning is `SetConnectionMembers` and `SetConnectionDistinct` |
| SsePing.SetConnectionMembers | src/mcp/services/sse-ping.service.ts:58-65 | registering maps the id to the new response, keeps every other entry, and appends a new id at the end |
| SsePing.SetConnectionDistinct | src/mcp/services/sse-ping.service.ts:63 | registering keeps the ids distinct and replaces an existing id in place |
| SsePing.WithoutConnection | src/mcp/services/sse-ping.service.ts:70-73 | `Map.delete` on the connection list; no contract of its own, its meaning is `WithoutConnectionSpec` |
| SsePing.WithoutConnectionSpec | src/mcp/services/sse-ping.service.ts:70-73 | removing drops exactly the entries with that id, keeps the rest in order, and changes nothing for an unknown id |
| SsePing.SweepSpec | src/mcp/services/sse-ping.service.ts:115-136 | a sweep keeps exactly the writable entries, and each of them, and no other response, receives one ping |
| SsePing.SsePingService.constructor | src/mcp/services/sse-ping.service.ts:16-29 | no timer, no connections, a 30000 ms interval |
| SsePing.SsePingService.StopPingInterval | src/mcp/services/sse-ping.service.ts:94-100 | afterwards no timer runs and `pingInterval` is null; nothing else changes |
| SsePing.SsePingService.StartPingInterval | src/mcp/services/sse-ping.service.ts:78-89 | any running timer is cleared and exactly one new one runs, with the current interval |
| SsePing.SsePingService.Configure | src/mcp/services/sse-ping.service.ts:43-53 | the interval changes only when one is given; anything but `pingEnabled: false` starts a timer, `false` stops it |
| SsePing.SsePingService.OnModuleDestroy | src/mcp/services/sse-ping.service.ts:35-38 | the timer is stopped; the connections, the writes, the interval and the timer counter are unchanged |
| SsePing.SsePingService.RegisterConnection | src/mcp/services/sse-ping.service.ts:58-65 | the connection list is the `Map.set` of the id; the timer, the interval, the timer counter and the writes are unchanged |
| SsePing.SsePingService.RemoveConnection | src/mcp/services/sse-ping.service.ts:70-73 | the connection list is the `Map.delete` of the id; the timer, the interval, the timer counter and the writes are unchanged |
| SsePing.SsePingService.PingOne | src/mcp/services/sse-ping.service.ts:116-135 | a writable response gets the frame; any other is removed; the timer, the interval and the timer counter are unchanged |
| SsePing.SsePingService.SweepOne | src/mcp/services/sse-ping.service.ts:116-135 | one turn of the sweep: the live list and the writes move past the current entry exactly as the sweep specification says |
| SsePing.SsePingService.SendPingToAllConnections | src/mcp/services/sse-ping.service.ts:105-137 | the loop leaves exactly the kept entries and writes exactly the sweep's pings, removing entries as it reaches them |
| SseTransport.MessagesPath | src/mcp/transport/sse.controller.factory.ts:76-81 | the normalised `${globalPrefix}/${messagesEndpoint}`; no contract of its own, its meaning is `MessagesPathShape` |
| SseTransport.MessagesPathShape | src/mcp/transport/sse.controller.factory.ts:76-81 | the messages path has no leading slash and no `//`, and spells the prefix followed by the endpoint, slashes aside |
| SseTransport.MessagesPathExample | src/mcp/transport/sse.controller.factory.ts:77-79 | without a global prefix the path is `messages` |
| SseTransport.SseController.constructor | src/mcp/transport/sse.controller.factory.ts:48-58 | no sessions |
| SseTransport.SseController.OnModuleInit | src/mcp/transport/sse.controller.factory.ts:63-69 | the keep-alive service is configured from the `sse` options |
| SseTransport.SseController.Sse | src/mcp/transport/sse.controller.factory.ts:75-115 | the new transport and server are stored under the session id, the response is registered for pings, and the transport posts to the normalised messages path; the ping timer, interval and writes are unchanged |
| SseTransport.SseController.OnClose | src/mcp/transport/sse.controller.factory.ts:107-112 | the session is removed from both dictionaries and from the keep-alive service; the ping timer, interval and writes and the events are unchanged |
| SseTransport.SseController.Messages | src/mcp/transport/sse.controller.factory.ts:122-152 | 404 `Session not found` iff the id is missing or unknown, with no state change; a known session has its handlers registered before the body is forwarded; the second 404 cannot happen while both dictionaries have the same keys |
| McpModule.Merge | src/mcp/mcp.module.ts:18-39 | `{ ...defaults, ...options }` key by key; no contract of its own, its meaning is `MergeIsShallow` |
| McpModule.MergedOptions | src/mcp/mcp.module.ts:39-44 | the merged options with the three endpoints normalised; every other field as merged |
| McpModule.MergeIsShallow | src/mcp/mcp.module.ts:18-39 | a caller's `sse` or `streamableHttp` object replaces the default whole, and a key set to `undefined` wins too |
| McpModule.EndpointsNormalised | src/mcp/mcp.module.ts:40-44 | every endpoint is normal; an endpoint set to `undefined` becomes the empty string |
| McpModule.DefaultEndpoints | src/mcp/mcp.module.ts:24-26 | the defaults `sse`, `messages`, `mcp` are kept as they are |
| McpModule.TransportList | src/mcp/mcp.module.ts:63-65 | the array as given, a single value wrapped, or `[SSE]` when undefined |
| McpModule.TransportDefaults | src/mcp/mcp.module.ts:19-23 | without a `transport` key all three transports are on; with `transport: undefined` only SSE |
| McpModule.CreateControllersFromOptions | src/mcp/mcp.module.ts:56-93 | the SSE controller iff SSE is listed, followed by the Streamable HTTP controller iff listed; STDIO adds none |
| McpModule.CreateProvidersFromOptions | src/mcp/mcp.module.ts:95-118 | options, registry and executor first, then the ping service iff SSE and the stdio service iff STDIO, without duplicates |
| McpModule.ForRoot | src/mcp/mcp.module.ts:17-54 | only the registry is exported; the options provider holds the merged options; controllers and providers follow the transport list and use the normalised endpoints |

## Left out

- Logging through Nest's `Logger` is not modelled; neither is the `discovered` name list the registry only logs.
- The handlers' protocol-level request validation is left to the SDK, which checks requests against its schemas. `WellFormedCall` and `WellFormedRead` assume it has run.
- `zodToJsonSchema` enters as a parameter. Zod schemas are reduced to object shapes, `z.any()`, and other schemas.
- Path matching is a stand-in for path-to-regexp: literal segments and `:name` segments over `/`. Percent-decoding, optional and wildcard parts, and the optional trailing slash are not modelled. Case is ignored for ASCII letters only; path-to-regexp's case-insensitive regular expression also folds other letters. A `:name` that shares its segment with literal text (`{name}.txt` becomes `:name.txt`) is a literal segment in the model, where path-to-regexp binds `name` to the text before `.txt`; such templates answer the -32601 protocol error in the model.
- Metadata aliasing is not modelled: the registry writes the default name into the metadata object that the decorator shares. The model copies values instead.
- Floating-point numbers, `NaN`, and the `undefined` value of a log call's `context` key are not modelled. JSON numbers are integers, and an absent context leaves the key out.
- Promises, `await` order and `void` fire-and-forget sends are not modelled. Every effect is an event, in program order.
- The catch in `handlePostRequest` is not modelled: the un-awaited call means a rejected promise bypasses it, so its 500 answer is left out.
- The session dictionaries of the Streamable HTTP controller are plain objects in the source. Inherited property names such as `constructor` would look like known sessions there; the model uses maps.
- A duplicate session id from a custom generator overwrites the stored session in the model. The earlier transport's `onclose` would then remove the newer session; that closure identity is not modelled.
- Timers are numbered handles, and `Date.now()` and its ISO rendering are a parameter. The timer firing is the sweep method being called.
- Connection handles, `ContextIdFactory`, `ModuleRef.resolve` and the request scope are not modelled, nor is the HTTP request passed as the provider method's third argument (the invocation is supplied per call). So are the SDK transports' own protocol handling and the random UUIDs; they enter as parameters or handles.
- `enableJsonResponse`, `instructions`, `name` and `version` are passed on to the SDK unchanged and are not modelled further.
- The STDIO service and the Google Drive sample tool are not part of this model. Nor are the DTOs and other modules of the application.
- StreamableHttp.StreamableHttpController.HandlePostRequest: states only that stateless mode keeps the dictionaries and that their invariant holds. The routing is stated by the two methods it dispatches to.
