/**
 * The values exchanged with the chat-completion endpoint, as the server code sees them:
 * plain dict messages that the code builds itself, and the two kinds of response objects
 * the client library returns (a whole completion, and the message of one of its choices).
 */
module ChatTypes {
  import opened Wrappers

  /** The `function` part of a tool-call request: which tool, and its JSON argument text. */
  datatype FunctionCall = FunctionCall(name: string, arguments: string)

  /** One tool-call request emitted by the model. */
  datatype ToolCall = ToolCall(id: string, func: FunctionCall)

  /** A response message object: `content` is None while a tool call is pending. */
  datatype ResponseMessage = ResponseMessage(content: Option<string>, toolCalls: Option<seq<ToolCall>>)

  datatype Choice = Choice(message: ResponseMessage)

  /** A raw completion response object; `choices` may in principle be empty. */
  datatype Completion = Completion(choices: seq<Choice>)

  /**
   * One entry of a transcript, distinguished by its Python shape rather than its role:
   * a dict built by the server, a response message object, or a whole completion object.
   */
  datatype Entry =
    | DictMessage(role: string, content: string, toolCallId: Option<string>, name: Option<string>)
    | MessageObject(message: ResponseMessage)
    | CompletionObject(completion: Completion)

  /** A dict message with only `role` and `content` keys. */
  function Message(role: string, content: string): Entry {
    DictMessage(role, content, None, None)
  }

  /** A tool declaration advertised to the model: one required string argument. */
  datatype ToolDefinition = ToolDefinition(name: string, description: string, parameter: string, parameterDescription: string)

  /**
   * One request to the completion endpoint. `temperature` and `toolChoice` are None when
   * the call leaves them out, `tools` is empty when no tools are advertised.
   */
  datatype Request = Request(
    model: string,
    messages: seq<Entry>,
    temperature: Option<real>,
    tools: seq<ToolDefinition>,
    toolChoice: Option<string>)

  /** The completion endpoint: returns a completion object, or raises with the given text. */
  type CompletionEndpoint = Request -> Result<Completion, string>

  /** Python's `str` applied to an optional text: `str(None)` is "None". */
  function PyStr(o: Option<string>): string {
    match o
    case None => "None"
    case Some(s) => s
  }

  /** The text of the IndexError Python raises for `xs[0]` on an empty list. */
  const IndexErrorText: string := "list index out of range"
}
