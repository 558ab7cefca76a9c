/**
 * The request-scoped executor (src/mcp/services/mcp-executor.service.ts): it
 * owns one handler per category and installs their request handlers on the
 * server of the session being created.
 */
module Executor {
  import opened Registry
  import opened ProtocolServer
  import ToolsHandler
  import ResourcesHandler
  import PromptsHandler

  /** The handlers a category installs: its two request methods when it has registrations. */
  function Installs(registered: seq<Entry>, list: string, call: string): (r: seq<string>)
    ensures |registered| == 0 <==> r == []
    ensures r != [] ==> r == [list, call]
  {
    if |registered| == 0 then [] else [list, call]
  }

  /**
   * `McpExecutorService.registerRequestHandlers`: the tool, resource and
   * prompt handlers, in that order; each category with registrations gets
   * its two handlers and nothing else is installed.
   */
  method RegisterRequestHandlers(server: McpServer, registry: McpRegistry)
    modifies server
    ensures server.installed == old(server.installed)
      + Installs(registry.GetTools(), ToolsList, ToolsCall)
      + Installs(registry.GetResources(), ResourcesList, ResourcesRead)
      + Installs(registry.GetPrompts(), PromptsList, PromptsGet)
    ensures server.handlers == old(server.handlers)
      + (if |registry.GetTools()| == 0 then {} else {ToolsList, ToolsCall})
      + (if |registry.GetResources()| == 0 then {} else {ResourcesList, ResourcesRead})
      + (if |registry.GetPrompts()| == 0 then {} else {PromptsList, PromptsGet})
  {
    ghost var before := server.installed;
    ToolsHandler.RegisterHandlers(server, registry);
    ghost var afterTools := server.installed;
    assert afterTools == before + Installs(registry.GetTools(), ToolsList, ToolsCall);
    ResourcesHandler.RegisterHandlers(server, registry);
    ghost var afterResources := server.installed;
    assert afterResources == afterTools + Installs(registry.GetResources(), ResourcesList, ResourcesRead);
    PromptsHandler.RegisterHandlers(server, registry);
    assert server.installed == afterResources + Installs(registry.GetPrompts(), PromptsList, PromptsGet);
  }
}
