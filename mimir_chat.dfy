/**
 * The tool-augmented chat loop of mimir_chat.py and its result classifier.
 *
 * One completion request advertises two ingestion tools. If the model asks for tools, each
 * call, in emission order, is looked up, its JSON arguments decoded, the tool invoked, a
 * `tool` message appended and one follow-up completion (without tools) appended. Anything
 * that raises on the way is turned into one appended assistant error message.
 */
module MimirChat {
  import opened Wrappers
  import opened ChatTypes

  /** Records the Python default of the `model` argument; Dafny callers pass the model explicitly. */
  const DefaultModel: string := "gpt-4"

  /** The model every follow-up request uses, whatever model the caller chose. */
  const FollowUpModel: string := "gpt-3.5-turbo"

  /**
   * The orchestration prompt (a fixed text: the f-string interpolates nothing). Its opening
   * sentence is kept; the rest of the instructions and the worked example are not transcribed.
   */
  const SystemPrompt: string :=
    "You are a helpful assistant. Mention the user's query, then answer the question solely in the context. Reference the source of your answer. [instructions and example]\n        "

  /** The user's text inside the fixed whitespace wrapper. */
  function UserContent(userMsg: string): string {
    "\n            " + userMsg + "\n        "
  }

  /** The `[system, user]` transcript every run begins with. */
  function InitialMessages(userMsg: string): seq<Entry> {
    [Message("system", SystemPrompt), Message("user", UserContent(userMsg))]
  }

  const YoutubeTool: ToolDefinition := ToolDefinition(
    "pinecone_youtube_upload",
    "Given a YouTube URL, upload the video to the Pinecone vector database.",
    "youtube_url",
    "The URL of the YouTube video. should start with https://www.youtube.com/watch?v=")

  const WebsiteTool: ToolDefinition := ToolDefinition(
    "pinecone_website_upload",
    "Given a website URL that is NOT youtube, it will add its HTML contents to the Pinecone vector store.",
    "website_url",
    "A website url.")

  /** The two tools the first request advertises. */
  const Tools: seq<ToolDefinition> := [YoutubeTool, WebsiteTool]

  /** The functions a tool name can resolve to. */
  datatype ToolKind = YoutubeUpload | WebsiteUpload

  /** The two-entry dispatch table; it names exactly the advertised tools. */
  const AvailableFunctions: map<string, ToolKind> :=
    map["pinecone_youtube_upload" := YoutubeUpload, "pinecone_website_upload" := WebsiteUpload]

  /** Keyword arguments decoded from a tool call's JSON text. */
  type Kwargs = map<string, string>

  /**
   * Everything the loop calls but does not define. Each returns a value or fails with
   * the text `str(e)` of the exception it raised.
   */
  datatype Collaborators = Collaborators(
    complete: CompletionEndpoint,
    decodeArguments: string -> Result<Kwargs, string>,
    youtubeUpload: Kwargs -> Result<string, string>,
    websiteUpload: Kwargs -> Result<string, string>)

  const ErrorPrefix: string := "Function Call: There was an error "

  /** The text of the KeyError raised by a dispatch-table miss. */
  function KeyErrorText(key: string): string {
    "'" + key + "'"
  }

  /** The assistant message the exception handler appends. */
  function ErrorEntry(e: string): Entry {
    Message("assistant", ErrorPrefix + e)
  }

  predicate IsErrorEntry(x: Entry) {
    x.DictMessage? && x.role == "assistant"
  }

  /** The only request that advertises tools and lets the model choose. */
  function FirstRequest(model: string, messages: seq<Entry>): Request {
    Request(model, messages, None, Tools, Some("auto"))
  }

  function FollowUpRequest(messages: seq<Entry>): Request {
    Request(FollowUpModel, messages, None, [], None)
  }

  /** Python's truthiness of `tool_calls`: neither None nor empty. */
  predicate HasToolCalls(m: ResponseMessage) {
    m.toolCalls.Some? && |m.toolCalls.value| > 0
  }

  function Invoke(env: Collaborators, kind: ToolKind, args: Kwargs): Result<string, string> {
    match kind
    case YoutubeUpload => env.youtubeUpload(args)
    case WebsiteUpload => env.websiteUpload(args)
  }

  /** The tool message for one call, or the failure of the lookup, the decoding or the tool. */
  function ToolMessage(env: Collaborators, call: ToolCall): (r: Result<Entry, string>)
    ensures call.func.name !in AvailableFunctions ==> r == Failure(KeyErrorText(call.func.name))
    ensures call.func.name in AvailableFunctions && env.decodeArguments(call.func.arguments).Failure? ==>
      r == Failure(env.decodeArguments(call.func.arguments).error)
    ensures
      && call.func.name in AvailableFunctions
      && env.decodeArguments(call.func.arguments).Success?
      && Invoke(env, AvailableFunctions[call.func.name], env.decodeArguments(call.func.arguments).value).Failure?
      ==> r == Failure(Invoke(env, AvailableFunctions[call.func.name], env.decodeArguments(call.func.arguments).value).error)
    ensures r.Success? <==>
      && call.func.name in AvailableFunctions
      && env.decodeArguments(call.func.arguments).Success?
      && Invoke(env, AvailableFunctions[call.func.name], env.decodeArguments(call.func.arguments).value).Success?
    ensures r.Success? ==>
      && r.value.DictMessage?
      && r.value.role == "tool"
      && r.value.toolCallId == Some(call.id)
      && r.value.name == Some(call.func.name)
      && Success(r.value.content) == Invoke(env, AvailableFunctions[call.func.name], env.decodeArguments(call.func.arguments).value)
  {
    var name := call.func.name;
    if name !in AvailableFunctions then Failure(KeyErrorText(name))
    else match env.decodeArguments(call.func.arguments)
      case Failure(e) => Failure(e)
      case Success(args) =>
        match Invoke(env, AvailableFunctions[name], args)
        case Failure(e) => Failure(e)
        case Success(output) => Success(DictMessage("tool", output, Some(call.id), Some(name)))
  }

  /** The transcript a run returns, with the requests it sent, in order. */
  datatype Run = Run(messages: seq<Entry>, sent: seq<Request>)

  /**
   * Reference semantics of the dispatch loop over the remaining calls, from the transcript
   * and request trace accumulated so far.
   */
  function Dispatch(env: Collaborators, calls: seq<ToolCall>, messages: seq<Entry>, sent: seq<Request>): (r: Run)
    ensures |messages| <= |r.messages| && |sent| <= |r.sent|
    decreases |calls|
  {
    if calls == [] then Run(messages, sent)
    else match ToolMessage(env, calls[0])
      case Failure(e) => Run(messages + [ErrorEntry(e)], sent)
      case Success(tool) =>
        var withTool := messages + [tool];
        var request := FollowUpRequest(withTool);
        match env.complete(request)
        case Failure(e) => Run(withTool + [ErrorEntry(e)], sent + [request])
        case Success(answer) => Dispatch(env, calls[1..], withTool + [CompletionObject(answer)], sent + [request])
  }

  /** Reference semantics of one whole run. */
  function ChatSpec(env: Collaborators, userMsg: string, model: string): (r: Run)
    ensures |r.messages| >= 3 && |r.sent| >= 1
  {
    var initial := InitialMessages(userMsg);
    var first := FirstRequest(model, initial);
    match env.complete(first)
    case Failure(e) => Run(initial + [ErrorEntry(e)], [first])
    case Success(response) =>
      if |response.choices| == 0 then Run(initial + [ErrorEntry(IndexErrorText)], [first])
      else
        var m := response.choices[0].message;
        if !HasToolCalls(m) then Run(initial + [MessageObject(m)], [first])
        else Dispatch(env, m.toolCalls.value, initial + [MessageObject(m)], [first])
  }

  /**
   * The chat loop. Returns the transcript and the requests sent to the completion endpoint;
   * it never fails, since every exception becomes an appended error message.
   */
  method ChatFunctionCall(env: Collaborators, userMsg: string, model: string)
    returns (messages: seq<Entry>, sent: seq<Request>)
    ensures Run(messages, sent) == ChatSpec(env, userMsg, model)
  {
    messages := InitialMessages(userMsg);
    var first := FirstRequest(model, messages);
    sent := [first];
    var response := env.complete(first);
    if response.Failure? {
      messages := messages + [ErrorEntry(response.error)];
      return;
    }
    if |response.value.choices| == 0 {
      messages := messages + [ErrorEntry(IndexErrorText)];
      return;
    }
    var responseMessage := response.value.choices[0].message;
    if !HasToolCalls(responseMessage) {
      messages := messages + [MessageObject(responseMessage)];
      return;
    }
    var toolCalls := responseMessage.toolCalls.value;
    messages := messages + [MessageObject(responseMessage)];
    var i := 0;
    while i < |toolCalls|
      invariant 0 <= i <= |toolCalls|
      invariant Dispatch(env, toolCalls[i..], messages, sent) == ChatSpec(env, userMsg, model)
    {
      var toolCall := toolCalls[i];
      var functionName := toolCall.func.name;
      if functionName !in AvailableFunctions {
        messages := messages + [ErrorEntry(KeyErrorText(functionName))];
        return;
      }
      var functionArgs := env.decodeArguments(toolCall.func.arguments);
      if functionArgs.Failure? {
        messages := messages + [ErrorEntry(functionArgs.error)];
        return;
      }
      var functionResponse := Invoke(env, AvailableFunctions[functionName], functionArgs.value);
      if functionResponse.Failure? {
        messages := messages + [ErrorEntry(functionResponse.error)];
        return;
      }
      messages := messages + [DictMessage("tool", functionResponse.value, Some(toolCall.id), Some(functionName))];
      var followUp := FollowUpRequest(messages);
      sent := sent + [followUp];
      var secondResponse := env.complete(followUp);
      if secondResponse.Failure? {
        messages := messages + [ErrorEntry(secondResponse.error)];
        return;
      }
      messages := messages + [CompletionObject(secondResponse.value)];
      i := i + 1;
    }
  }

  /** The sentinel returned when the last entry has neither `choices` nor `content`. */
  const ErrorFindingMessage: string := "Error finding message"

  /** The Python class name of an entry, as a TypeError message shows it. */
  function TypeName(x: Entry): string {
    match x
    case DictMessage(_, _, _, _) => "dict"
    case MessageObject(_) => "ChatCompletionMessage"
    case CompletionObject(_) => "ChatCompletion"
  }

  /**
   * Classifies the last entry by its shape: a completion object yields its first choice's
   * content and the content of the entry before it; a message object yields its content; any
   * dict yields the sentinel. Fails where the Python code raises: on an empty list, on a
   * missing or unsubscriptable second-to-last entry, or on an empty choice list.
   */
  function DetermineAssistantToolMessages(messages: seq<Entry>): (r: Result<(string, Option<string>), string>)
    ensures messages == [] ==> r == Failure(IndexErrorText)
    ensures messages != [] && !messages[|messages| - 1].CompletionObject? ==> r.Success? && r.value.1 == None
    ensures r.Success? && r.value.1.Some? ==> messages[|messages| - 1].CompletionObject?
    ensures messages != [] && messages[|messages| - 1].DictMessage? ==> r == Success((ErrorFindingMessage, None))
    ensures messages != [] && messages[|messages| - 1].MessageObject? ==>
      r == Success((PyStr(messages[|messages| - 1].message.content), None))
    ensures messages != [] && messages[|messages| - 1].CompletionObject? ==>
      var c := messages[|messages| - 1].completion;
      if |messages| < 2 then r == Failure(IndexErrorText)
      else if !messages[|messages| - 2].DictMessage? then
        r == Failure("'" + TypeName(messages[|messages| - 2]) + "' object is not subscriptable")
      else if |c.choices| == 0 then r == Failure(IndexErrorText)
      else r == Success((PyStr(c.choices[0].message.content), Some(messages[|messages| - 2].content)))
  {
    if messages == [] then Failure(IndexErrorText)
    else
      var last := messages[|messages| - 1];
      match last
      case CompletionObject(c) =>
        if |messages| < 2 then Failure(IndexErrorText)
        else if !messages[|messages| - 2].DictMessage? then
          Failure("'" + TypeName(messages[|messages| - 2]) + "' object is not subscriptable")
        else if |c.choices| == 0 then Failure(IndexErrorText)
        else Success((PyStr(c.choices[0].message.content), Some(messages[|messages| - 2].content)))
      case MessageObject(m) => Success((PyStr(m.content), None))
      case DictMessage(_, _, _, _) => Success((ErrorFindingMessage, None))
  }
}
