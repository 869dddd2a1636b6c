# Mimir chat loop and prompt registries, modelled in Dafny

This project models the server-side logic of a small chat backend:

- **Tool-augmented chat loop** (`server/chalicelib/mimir_chat.py`). It builds a `[system, user]`
  transcript and sends one completion request that advertises two ingestion tools
  (`pinecone_youtube_upload`, `pinecone_website_upload`) with `tool_choice="auto"`. With no
  tool calls in the reply, it appends the reply message. Otherwise it appends the assistant
  message. Then, for each tool call in the order the model emitted them, it resolves the name
  in a two-entry table, decodes the JSON arguments, invokes the tool, appends a `tool` message
  and appends one follow-up completion requested with model `gpt-3.5-turbo` and no tools. Any
  exception becomes one appended assistant error message.
- **Result classifier** `determine_assistant_tool_messages`. It looks at the Python shape of the
  last transcript entry: a completion object (has `choices`), a message object (has `content`),
  or anything else, which includes every plain dict.
- **Prompt template registry**, in two variants. The one in `kitsune_1_chatbot.py` appends a fixed
  conversation suffix; the one in `chat_openai.py` does not. The single-shot call
  `send_message_to_openai` sends exactly `[system prompt, user message]`.

Modules:

- `Wrappers`: Option and Result.
- `ChatTypes`: the wire values. A transcript `Entry` is a dict message, a response message
  object or a completion object, so the classifier can branch on shape.
- `Personas`: the four persona literals shared by both registries.
- `ChatOpenAI` and `Kitsune1Chatbot`: the two registries.
- `MimirChat`: the loop and the classifier.
- `MimirChatProofs`: what a run returns and sends.

The loop is the imperative method `MimirChat.ChatFunctionCall`. It is proved equal to the
recursive reference semantics `MimirChat.ChatSpec` / `MimirChat.Dispatch`, and the properties
are lemmas about that reference.

Collaborators become parameters. The completion endpoint, `json.loads` and the two Pinecone
ingestion functions are fields of `MimirChat.Collaborators`: total functions that return
`Success(value)` or `Failure(str(e))`. The loop's own exceptions are made explicit:

- the KeyError of a dispatch-table miss;
- the IndexError of `choices[0]` on an empty choice list.

The method also returns `sent`, the requests it made in order. This trace is the network side
effect, so the model can say which requests carry tools.

Registry functions are Dafny functions with no `reads` clause. That makes both of them
deterministic and stateless by construction.

## Model

| member | source | states |
|---|---|---|
| `MimirChat.ChatFunctionCall` | server/chalicelib/mimir_chat.py:45-169 | The loop, with its appends and its early exits through the exception handler, returns exactly the transcript and request trace of the reference semantics. |
| `MimirChat.ChatSpec` | server/chalicelib/mimir_chat.py:116-169 | Reference semantics of one run; every run returns at least three entries and sends at least one request. |
| `MimirChat.Dispatch` | server/chalicelib/mimir_chat.py:138-155 | Reference semantics of the per-call loop; it never shrinks the transcript or the request trace. |
| `MimirChat.ToolMessage` | server/chalicelib/mimir_chat.py:140-149 | An unknown name fails with the KeyError text. A decoding failure carries the decoder's own error text, and a failing tool carries the tool's own error text. A tool message exists exactly when lookup, decoding and invocation all succeed. It then has role `tool`, the call's id and name, and the tool's return value as content. |
| `MimirChat.DetermineAssistantToolMessages` | server/chalicelib/mimir_chat.py:23-39 | For any list: a completion object as last entry yields `(str(choices[0].message.content), messages[-2]["content"])`, and raises IndexError when there is no entry before it or no choice, or TypeError when the entry before it is not a dict. A message object yields `(str(content), None)`. Any dict yields `("Error finding message", None)`. An empty list raises IndexError. Only a completion object can yield a tool context. |
| `MimirChatProofs.DispatchGrows` | server/chalicelib/mimir_chat.py:138-155 | The per-call loop only appends, to both the transcript and the request trace. It sends at most one follow-up per call. |
| `MimirChatProofs.DispatchRounds` | server/chalicelib/mimir_chat.py:138-155 | Follow-up i is the request made on the first 2i+2 entries. Entry 2i+1 is the tool message of its call. Entry 2i+2 is that follow-up's completion object, or its error. |
| `MimirChatProofs.DispatchLength` | server/chalicelib/mimir_chat.py:138-166 | The transcript has 2n+1 entries for n requests sent, or 2n+2 when a tool call failed. |
| `MimirChatProofs.DispatchToolFailure` | server/chalicelib/mimir_chat.py:140-166 | A transcript of 2n+2 entries means the next call's tool message failed, and that failure's error entry is appended. |
| `MimirChatProofs.DispatchErrorOnlyLast` | server/chalicelib/mimir_chat.py:138-166 | The per-call loop appends no error entry except as its last entry. |
| `MimirChatProofs.DispatchCompletes` | server/chalicelib/mimir_chat.py:138-166 | If every tool and every follow-up it reaches returns normally, the loop completes all calls: two entries and one request per call. Otherwise it ends with an error entry. |
| `MimirChatProofs.TranscriptStartsWithPrompt` | server/chalicelib/mimir_chat.py:67-76 | Every returned transcript starts with the system message and the user message wrapped in the fixed whitespace. |
| `MimirChatProofs.RequestsSeePrefixes` | server/chalicelib/mimir_chat.py:136-167 | Request i carries the first 2i+2 entries of the final transcript, and each request's list is a proper prefix of every later one. So nothing already in the list is changed or removed. |
| `MimirChatProofs.OnlyFirstRequestAdvertisesTools` | server/chalicelib/mimir_chat.py:118-155 | The first request carries the caller's model, the `[system, user]` list, both tools and `tool_choice="auto"`. Every later request uses `gpt-3.5-turbo` with no tools and no tool choice. At most one is sent per tool call of the first reply, so there is no second round of dispatch. |
| `MimirChatProofs.FollowUpAfterEachToolMessage` | server/chalicelib/mimir_chat.py:144-155 | Request i (i >= 1) is made right after the tool message of call i-1, on everything accumulated so far. Its outcome is the entry appended next. |
| `MimirChatProofs.NoToolCallsTranscript` | server/chalicelib/mimir_chat.py:126-158 | When `tool_calls` is None or empty, the transcript is exactly `[system, user, reply message object]` and one request is sent. |
| `MimirChatProofs.SuccessfulToolCallsTranscript` | server/chalicelib/mimir_chat.py:130-155 | With k tool calls and every collaborator succeeding, the transcript has 3+2k entries and 1+k requests. It holds the assistant message, then, per call in order, its tool message and its follow-up's completion object. |
| `MimirChatProofs.ErrorEntryIsLastAndUnique` | server/chalicelib/mimir_chat.py:116-167 | At most one error entry is appended, always last. It is present exactly when something the try block ran raised: a collaborator, the table lookup or `choices[0]`. |
| `MimirChatProofs.FailedRequestKeepsTranscript` | server/chalicelib/mimir_chat.py:118-166 | A request that raises is the last one sent. The transcript is then exactly the list it was sent with, plus one `Function Call: There was an error …` entry. |
| `MimirChatProofs.RunWithoutDispatchOnFailure` | server/chalicelib/mimir_chat.py:118-166 | A first request that raises leaves `[system, user, error]` and one request sent. |
| `MimirChatProofs.FailedToolCallEndsTranscript` | server/chalicelib/mimir_chat.py:140-166 | A failed lookup, decode or tool ends the transcript with that failure's error entry. For an unknown function name this is the KeyError text. |
| `MimirChatProofs.ClassifyDirectAnswer` | server/chalicelib/mimir_chat.py:32-34 | With no tool calls, the classifier returns `(str(reply content), None)`. |
| `MimirChatProofs.ClassifyAfterToolCalls` | server/chalicelib/mimir_chat.py:25-30 | After k >= 1 successful tool calls, the classifier returns the last follow-up's first-choice content and the last tool's output. It raises IndexError when that follow-up has no choices. |
| `MimirChatProofs.ClassifyAfterFailure` | server/chalicelib/mimir_chat.py:35-39 | After any failure, the classifier meets the error dict and returns `("Error finding message", None)`. |
| `Kitsune1Chatbot.FetchSystemPrompt` | server/chalicelib/kitsune_1_chatbot.py:40-107 | Total. Every result ends with the suffix and is one of the four persona-plus-suffix prompts. |
| `Kitsune1Chatbot.SelectsExactly` | server/chalicelib/kitsune_1_chatbot.py:53-107 | In both directions: each persona is selected exactly by its id. The default is selected by every other string, other casings included. |
| `Kitsune1Chatbot.PromptsDistinct` | server/chalicelib/kitsune_1_chatbot.py:53-107 | The four possible prompts are pairwise distinct. |
| `Kitsune1Chatbot.KeepsPlaceholders` | server/chalicelib/kitsune_1_chatbot.py:46-51 | The suffix is not interpolated, so every prompt contains the literal text `{history}` and `{input}`. |
| `Kitsune1Chatbot.SuffixPlaceholders` | server/chalicelib/kitsune_1_chatbot.py:46-51 | The placeholders begin at offsets 31 and 52 of the suffix. |
| `Kitsune1Chatbot.ExtendsChatOpenAIRegistry` | server/chalicelib/kitsune_1_chatbot.py:53-107 | For every id, this registry's prompt is the other registry's prompt followed by the suffix. |
| `Kitsune1Chatbot.ChatOpenAIHasNoSuffix` | server/chalicelib/chat_openai.py:12-54 | No prompt of the suffix-free registry ends with the suffix. |
| `Kitsune1Chatbot.AssembleRequest` | server/chalicelib/kitsune_1_chatbot.py:13-30 | The request holds exactly two messages: the system message with the registry prompt, then the user message verbatim. Model and temperature pass through unchanged, and no tools are advertised. |
| `Kitsune1Chatbot.SendMessageToOpenAI` | server/chalicelib/kitsune_1_chatbot.py:8-36 | Returns the first choice's content of the reply to that request. Endpoint errors propagate, and an empty choice list raises IndexError. |
| `ChatOpenAI.FetchSystemPrompt` | server/chalicelib/chat_openai.py:4-54 | Total. The result is exactly one of the four literals with nothing appended, and any id outside the three known ones gets the default. |
| `ChatOpenAI.SelectsExactly` | server/chalicelib/chat_openai.py:12-54 | In both directions: exact-match selection of each persona, and the default for every other string. |
| `ChatOpenAI.PersonasDistinct` | server/chalicelib/chat_openai.py:12-54 | The four persona literals are pairwise distinct. |
| `ChatOpenAI.DistinctIdsDistinctPrompts` | server/chalicelib/chat_openai.py:12-54 | Two different ids, at least one of them known, get different prompts. |
| `ChatOpenAI.SendMessageToOpenAIWithHistory` | server/chalicelib/chat_openai.py:55-58 | The stub returns None for every argument. |

## Left out

- The OpenAI client: construction, API keys from the environment and `load_dotenv`. The
  completion endpoint is a parameter instead.
- The Pinecone search and ingestion functions. They live in a module that is not part of this
  model and are abstract parameters here.
- JSON decoding of tool arguments. It is an abstract `decodeArguments` that may fail. Its failure
  also covers a decoded value that is not an object, where `**` raises TypeError.
- Argument values and tool return values are modelled as text. Other JSON value types and
  non-string tool results are not.
- `MimirChat.KeyErrorText` is `'name'`. Python's repr escaping, for a name that contains quotes or
  unprintable characters, is not modelled.
- Collaborators are modelled as functions of their arguments. Two identical tool calls in one
  run get the same result, whereas the real Pinecone upload has side effects and may answer
  differently the second time.
- The exact text of collaborator exceptions: each failure carries whatever text `str(e)` gives.
- Only `Exception` is caught in the source. Exceptions outside that class, such as keyboard
  interrupts, do not occur in the model.
- `print` and `logging` calls. They have no effect on results.
- The `temperature` float is an opaque `real` that is only passed through.
- Default arguments. The default model `"gpt-4"` is the constant `MimirChat.DefaultModel`;
  Dafny callers pass the model explicitly.
- Persona prose and the orchestration prompt are not transcribed. Each persona constant keeps its
  literal's opening line break and indentation, its first sentence and its trailing
  indentation, with a marker for the rest of the prose. The suffix is exact.
  Every distinctness and exact-selection lemma (`ChatOpenAI.PersonasDistinct`,
  `ChatOpenAI.SelectsExactly`, `ChatOpenAI.DistinctIdsDistinctPrompts`,
  `Kitsune1Chatbot.PromptsDistinct`, `Kitsune1Chatbot.SelectsExactly`) and
  `Kitsune1Chatbot.ChatOpenAIHasNoSuffix` are proved about these constants, which differ where
  the full literals differ.
- The `__main__` block of `kitsune_1_chatbot.py`. It calls the function with the wrong number of
  arguments.
- `server/chalicelib/audio.py` (S3 wrappers and an empty text-to-speech stub) and all frontend
  files (React UI).
- Two behaviours a reader might expect are not what the code does:
  - An unknown tool name does not raise a dedicated error. The KeyError is caught like any other
    exception and becomes the error message.
  - The single-shot call returns `content`, which may be None.
