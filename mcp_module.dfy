/**
 * The module's option handling (src/mcp/mcp.module.ts, with the option
 * shapes of src/mcp/interfaces/mcp-options.interface.ts). `forRoot` spreads
 * the caller's options over the defaults, normalises the three endpoints, and
 * picks the controllers and providers from the transport list.
 *
 * A caller's option is `Absent` when the key is not in the object and
 * `Present(None)` when the key is there with the value `undefined`: an object
 * spread copies the latter over the default. Guards, class decorators, the
 * session id generator and the server capabilities are opaque handles or
 * values the module only passes on.
 */
module McpModule {
  import opened Values
  import opened Endpoints

  datatype TransportType = Sse | StreamableHttp | Stdio

  /** `transport?: McpTransportType | McpTransportType[]` */
  datatype TransportOption = Single(transport: TransportType) | Many(transports: seq<TransportType>)

  datatype SseOptions = SseOptions(pingEnabled: Option<bool>, pingIntervalMs: Option<int>)

  datatype StreamableHttpOptions = StreamableHttpOptions(
    enableJsonResponse: Option<bool>, sessionIdGenerator: Option<nat>, statelessMode: Option<bool>)

  /** `McpOptions`, with `None` for an `undefined` field. */
  datatype McpOptions = McpOptions(
    name: string,
    version: string,
    capabilities: Option<map<string, Json>>,
    instructions: Option<string>,
    transport: Option<TransportOption>,
    sseEndpoint: Option<string>,
    messagesEndpoint: Option<string>,
    mcpEndpoint: Option<string>,
    globalApiPrefix: Option<string>,
    guards: Option<seq<nat>>,
    decorators: Option<seq<nat>>,
    sse: Option<SseOptions>,
    streamableHttp: Option<StreamableHttpOptions>)

  /** A key of the caller's options object: missing, or present with a value that may be `undefined`. */
  datatype Field<T> = Absent | Present(value: Option<T>)

  /** The caller's options object; `name` and `version` are required. */
  datatype UserOptions = UserOptions(
    name: string,
    version: string,
    capabilities: Field<map<string, Json>>,
    instructions: Field<string>,
    transport: Field<TransportOption>,
    sseEndpoint: Field<string>,
    messagesEndpoint: Field<string>,
    mcpEndpoint: Field<string>,
    globalApiPrefix: Field<string>,
    guards: Field<seq<nat>>,
    decorators: Field<seq<nat>>,
    sse: Field<SseOptions>,
    streamableHttp: Field<StreamableHttpOptions>)

  const DefaultTransports := [Sse, StreamableHttp, Stdio]
  const DefaultStreamableHttp := StreamableHttpOptions(Some(true), None, Some(true))
  const DefaultSse := SseOptions(Some(true), Some(30000))

  /** One key of `{ ...defaultOptions, ...options }`. */
  function Spread<T>(user: Field<T>, default: Option<T>): Option<T> {
    if user.Present? then user.value else default
  }

  /** `{ ...defaultOptions, ...options }` */
  function Merge(user: UserOptions): McpOptions {
    McpOptions(
      user.name, user.version,
      Spread(user.capabilities, None),
      Spread(user.instructions, None),
      Spread(user.transport, Some(Many(DefaultTransports))),
      Spread(user.sseEndpoint, Some("sse")),
      Spread(user.messagesEndpoint, Some("messages")),
      Spread(user.mcpEndpoint, Some("mcp")),
      Spread(user.globalApiPrefix, None),
      Spread(user.guards, Some([])),
      Spread(user.decorators, Some([])),
      Spread(user.sse, Some(DefaultSse)),
      Spread(user.streamableHttp, Some(DefaultStreamableHttp)))
  }

  /** The options `forRoot` hands on: merged, with the three endpoints normalised. */
  function MergedOptions(user: UserOptions): (r: McpOptions)
    ensures r.sseEndpoint == Some(NormalizeEndpoint(Merge(user).sseEndpoint))
    ensures r.messagesEndpoint == Some(NormalizeEndpoint(Merge(user).messagesEndpoint))
    ensures r.mcpEndpoint == Some(NormalizeEndpoint(Merge(user).mcpEndpoint))
    ensures r.(sseEndpoint := None, messagesEndpoint := None, mcpEndpoint := None) ==
      Merge(user).(sseEndpoint := None, messagesEndpoint := None, mcpEndpoint := None)
  {
    var merged := Merge(user);
    merged.(
      sseEndpoint := Some(NormalizeEndpoint(merged.sseEndpoint)),
      messagesEndpoint := Some(NormalizeEndpoint(merged.messagesEndpoint)),
      mcpEndpoint := Some(NormalizeEndpoint(merged.mcpEndpoint)))
  }

  /**
   * The merge is shallow: a caller's `sse` or `streamableHttp` object
   * replaces the default one whole, so the default `statelessMode: true` and
   * `pingEnabled: true` are lost as soon as the caller gives such an object
   * without them; a key the caller sets to `undefined` also wins.
   */
  lemma MergeIsShallow(user: UserOptions)
    ensures user.sse.Present? ==> MergedOptions(user).sse == user.sse.value
    ensures user.sse.Absent? ==> MergedOptions(user).sse == Some(SseOptions(Some(true), Some(30000)))
    ensures user.streamableHttp.Present? ==> MergedOptions(user).streamableHttp == user.streamableHttp.value
    ensures user.streamableHttp.Absent? ==>
      MergedOptions(user).streamableHttp.value.statelessMode == Some(true)
    ensures user.transport == Present(None) ==> MergedOptions(user).transport == None
  {
  }

  /**
   * Every endpoint comes out normalised; an endpoint the caller leaves out
   * keeps its default, while one the caller sets to `undefined` becomes the
   * empty string, which the later `?? 'sse'` fallback no longer replaces.
   */
  lemma EndpointsNormalised(user: UserOptions)
    ensures var r := MergedOptions(user);
      r.sseEndpoint.Some? && NormalizeEndpoint(r.sseEndpoint) == r.sseEndpoint.value &&
      r.messagesEndpoint.Some? && NormalizeEndpoint(r.messagesEndpoint) == r.messagesEndpoint.value &&
      r.mcpEndpoint.Some? && NormalizeEndpoint(r.mcpEndpoint) == r.mcpEndpoint.value
    ensures user.sseEndpoint == Present(None) ==> MergedOptions(user).sseEndpoint == Some("")
    ensures user.messagesEndpoint == Present(None) ==> MergedOptions(user).messagesEndpoint == Some("")
    ensures user.mcpEndpoint == Present(None) ==> MergedOptions(user).mcpEndpoint == Some("")
  {
    var m := Merge(user);
    NormalizeIdempotent(m.sseEndpoint);
    NormalizeIdempotent(m.messagesEndpoint);
    NormalizeIdempotent(m.mcpEndpoint);
  }

  /** The default endpoints are already normal. */
  lemma DefaultEndpoints(user: UserOptions)
    requires user.sseEndpoint.Absent? && user.messagesEndpoint.Absent? && user.mcpEndpoint.Absent?
    ensures var r := MergedOptions(user);
      r.sseEndpoint == Some("sse") && r.messagesEndpoint == Some("messages") && r.mcpEndpoint == Some("mcp")
  {
    var merged := Merge(user);
    assert merged.sseEndpoint == Some("sse");
    assert merged.messagesEndpoint == Some("messages");
    assert merged.mcpEndpoint == Some("mcp");
    NormalizeSlashFree("sse");
    NormalizeSlashFree("messages");
    NormalizeSlashFree("mcp");
  }

  /** `Array.isArray(t) ? t : [t ?? McpTransportType.SSE]` */
  function TransportList(transport: Option<TransportOption>): (r: seq<TransportType>)
    ensures transport.None? ==> r == [Sse]
    ensures transport.Some? && transport.value.Single? ==> r == [transport.value.transport]
    ensures transport.Some? && transport.value.Many? ==> r == transport.value.transports
  {
    match transport
    case None => [Sse]
    case Some(Single(t)) => [t]
    case Some(Many(ts)) => ts
  }

  /** Without a `transport` key all three transports are on; with `transport: undefined` only SSE is. */
  lemma TransportDefaults(user: UserOptions)
    ensures user.transport.Absent? ==> TransportList(MergedOptions(user).transport) == [Sse, StreamableHttp, Stdio]
    ensures user.transport == Present(None) ==> TransportList(MergedOptions(user).transport) == [Sse]
  {
  }

  function OrDefault<T>(o: Option<T>, default: T): T {
    if o.Some? then o.value else default
  }

  /** A controller class the module declares, with what it was created from. */
  datatype Controller =
    | SseController(sseEndpoint: string, messagesEndpoint: string, guards: seq<nat>, decorators: seq<nat>)
    | StreamableHttpController(mcpEndpoint: string, guards: seq<nat>, decorators: seq<nat>)

  datatype Provider = OptionsProvider(options: McpOptions) | RegistryService | ExecutorService | PingService | StdioService

  datatype DynamicModule = DynamicModule(controllers: seq<Controller>, providers: seq<Provider>, exports: seq<Provider>)

  /** `createControllersFromOptions` */
  method CreateControllersFromOptions(options: McpOptions) returns (controllers: seq<Controller>)
    ensures var ts := TransportList(options.transport);
      var guards, decorators := OrDefault(options.guards, []), OrDefault(options.decorators, []);
      controllers ==
        (if Sse in ts
         then [SseController(OrDefault(options.sseEndpoint, "sse"), OrDefault(options.messagesEndpoint, "messages"), guards, decorators)]
         else []) +
        (if StreamableHttp in ts then [StreamableHttpController(OrDefault(options.mcpEndpoint, "mcp"), guards, decorators)] else [])
    ensures |controllers| <= 2
    ensures forall i :: 0 < i < |controllers| ==> controllers[i].StreamableHttpController?
  {
    var sseEndpoint := OrDefault(options.sseEndpoint, "sse");
    var messagesEndpoint := OrDefault(options.messagesEndpoint, "messages");
    var mcpEndpoint := OrDefault(options.mcpEndpoint, "mcp");
    var guards := OrDefault(options.guards, []);
    var transports := TransportList(options.transport);
    controllers := [];
    var decorators := OrDefault(options.decorators, []);
    if Sse in transports {
      controllers := controllers + [SseController(sseEndpoint, messagesEndpoint, guards, decorators)];
    }
    if StreamableHttp in transports {
      controllers := controllers + [StreamableHttpController(mcpEndpoint, guards, decorators)];
    }
    // STDIO is served by a provider, not a controller
  }

  /** `createProvidersFromOptions` */
  method CreateProvidersFromOptions(options: McpOptions) returns (providers: seq<Provider>)
    ensures |providers| >= 3 && providers[..3] == [OptionsProvider(options), RegistryService, ExecutorService]
    ensures PingService in providers <==> Sse in TransportList(options.transport)
    ensures StdioService in providers <==> Stdio in TransportList(options.transport)
    ensures forall i, j :: 0 <= i < j < |providers| ==> providers[i] != providers[j]
    ensures |providers| == 3 + (if Sse in TransportList(options.transport) then 1 else 0) +
      (if Stdio in TransportList(options.transport) then 1 else 0)
  {
    providers := [OptionsProvider(options), RegistryService, ExecutorService];
    var transports := TransportList(options.transport);
    if Sse in transports {
      providers := providers + [PingService];
    }
    if Stdio in transports {
      providers := providers + [StdioService];
    }
  }

  /** `forRoot(options)` */
  method ForRoot(user: UserOptions) returns (m: DynamicModule)
    ensures m.exports == [RegistryService]
    ensures |m.providers| >= 3 && m.providers[0] == OptionsProvider(MergedOptions(user))
    ensures var ts := TransportList(MergedOptions(user).transport);
      (PingService in m.providers <==> Sse in ts) && (StdioService in m.providers <==> Stdio in ts) &&
      ((exists c :: c in m.controllers && c.SseController?) <==> Sse in ts) &&
      ((exists c :: c in m.controllers && c.StreamableHttpController?) <==> StreamableHttp in ts)
    ensures forall c :: c in m.controllers && c.SseController? ==>
      c.sseEndpoint == MergedOptions(user).sseEndpoint.value &&
      c.messagesEndpoint == MergedOptions(user).messagesEndpoint.value
    ensures forall c :: c in m.controllers && c.StreamableHttpController? ==>
      c.mcpEndpoint == MergedOptions(user).mcpEndpoint.value
  {
    var options := MergedOptions(user);
    var providers := CreateProvidersFromOptions(options);
    var controllers := CreateControllersFromOptions(options);
    m := DynamicModule(controllers, providers, [RegistryService]);
    var ts := TransportList(options.transport);
    if Sse in ts {
      assert controllers[0].SseController?;
    }
    if StreamableHttp in ts {
      assert controllers[|controllers| - 1].StreamableHttpController?;
    }
  }
}
