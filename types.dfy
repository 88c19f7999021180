/** Values exchanged between the agent loop, the Gemini model client and the
    MCP tool session. The two external services are oracles: total functions
    chosen by the caller, so every property of the loop holds for every
    behaviour of the model and of the tools. */
module Types {

  datatype Option<+T> = None | Some(value: T)

  /** The argument mapping of a function call. Argument values are JSON in
      the original; here they are opaque text. */
  type Args = map<string, string>

  /** The role of one turn of the transcript: "user" or "model". */
  datatype Role = User | Model

  /** A call the model asks for. `args` may be missing (None). */
  datatype FunctionCall = FunctionCall(name: string, args: Option<Args>)

  /** The payload of a function response: the dict `{"result": …}` or
      `{"error": …}` built by the loop. */
  type ToolResponse = map<string, string>

  datatype Part =
    | Text(text: string)
    | Call(call: FunctionCall)
    | FunctionResponse(name: string, response: ToolResponse)

  /** One turn of the transcript (`types.Content`). */
  datatype Content = Content(role: Role, parts: seq<Part>)

  /** A tool as listed by the MCP session. The input schema is opaque JSON text. */
  datatype ToolDescriptor = ToolDescriptor(name: string, description: Option<string>, inputSchema: string)

  /** A function declaration as the model client expects it. */
  datatype FunctionDeclaration = FunctionDeclaration(name: string, description: Option<string>, parameters: string)

  /** The sampling temperature of a completion request: `Zero` is 0, `One` is 1.0. */
  datatype Temperature = Zero | One

  /** One completion request: the transcript as it stood when the request was
      issued, the temperature and the function declarations offered. */
  datatype Request = Request(contents: seq<Content>, temperature: Temperature, tools: seq<FunctionDeclaration>)

  /** What `session.call_tool` does: it returns a result whose `content` is a
      list of text items, flagged `isError` or not, or it raises an exception
      of class `kind` with message `message`. */
  datatype CallToolResult =
    | Returned(isError: bool, content: seq<string>)
    | Raised(kind: string, message: string)

  /** The externally visible effects of one run, in order: an info notice shown
      before a tool is called, the tool call itself, and the warning notice. */
  datatype Event =
    | Info(tool: string, args: Args)
    | ToolCall(tool: string, args: Args)
    | Warning(message: string)

  /** The model client: the reply (the content of the first candidate) to the
      `i`-th completion request. */
  type ModelClient = (nat, Request) -> Content

  /** The tool session: the outcome of the call made at position `i` of
      round `r`, by tool name and arguments. The round and the position let
      the same call fail once and succeed when it is retried, as a live
      server may. */
  type ToolSession = (nat, nat, string, Args) -> CallToolResult
}
