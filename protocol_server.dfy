/**
 * What the handlers need of the SDK's protocol server: a table of installed
 * request handlers, the two ways a request can end (a result sent back, or a
 * protocol error), the shape of the SDK's `McpError` message, and JSON
 * helpers for the records the handlers build.
 */
module ProtocolServer {
  import opened Values
  import opened HandlerContext

  /** How a request ends: the handler's result, or a JSON-RPC error with the code and the message the client receives. */
  datatype Outcome = Respond(result: Json) | Fail(code: int, message: string)

  /** `ErrorCode.MethodNotFound` */
  const MethodNotFound: int := -32601

  /** The message of `new McpError(ErrorCode.MethodNotFound, message)`. */
  function MethodNotFoundText(message: string): string {
    "MCP error -32601: " + message
  }

  /** `{ key: value }` where an `undefined` value leaves the key out once serialised. */
  function OptStr(key: string, value: Option<string>): map<string, Json> {
    if value.None? then map[] else map[key := JStr(value.value)]
  }

  /** The list/call handlers a server answers, by JSON-RPC method name. */
  const ToolsList := "tools/list"
  const ToolsCall := "tools/call"
  const ResourcesList := "resources/list"
  const ResourcesRead := "resources/read"
  const PromptsList := "prompts/list"
  const PromptsGet := "prompts/get"

  /**
   * The SDK's `McpServer`: the handlers installed with `setRequestHandler`,
   * as the table it answers from and as the order they were installed in.
   */
  class McpServer {
    const ref: ServerRef
    var handlers: set<string>
    var installed: seq<string>

    constructor(ref: ServerRef)
      ensures this.ref == ref && handlers == {} && installed == []
    {
      this.ref := ref;
      handlers := {};
      installed := [];
    }

    /** `server.setRequestHandler(schema, handler)` for the request method `m`. */
    method SetRequestHandler(m: string)
      modifies this
      ensures handlers == old(handlers) + {m}
      ensures installed == old(installed) + [m]
    {
      handlers := handlers + {m};
      installed := installed + [m];
    }
  }
}
