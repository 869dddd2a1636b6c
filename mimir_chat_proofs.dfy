/**
 * What a run of the chat loop returns and sends, proved about its reference semantics
 * (`MimirChat.ChatSpec`, which `MimirChat.ChatFunctionCall` is proved to follow).
 */
module MimirChatProofs {
  import opened Wrappers
  import opened ChatTypes
  import opened MimirChat

  /** The entry appended after a follow-up request: its completion object, or the error. */
  function AnswerEntry(answer: Result<Completion, string>): Entry {
    match answer
    case Success(c) => CompletionObject(c)
    case Failure(e) => ErrorEntry(e)
  }

  /** The tool calls of the first response, or none when the run does not reach dispatch. */
  function FirstToolCalls(env: Collaborators, userMsg: string, model: string): seq<ToolCall> {
    match env.complete(FirstRequest(model, InitialMessages(userMsg)))
    case Failure(_) => []
    case Success(response) =>
      if |response.choices| > 0 && HasToolCalls(response.choices[0].message)
      then response.choices[0].message.toolCalls.value
      else []
  }

  /** Nothing the try block ran raised: no collaborator, no table lookup, no `choices[0]`. */
  predicate RunSucceeded(env: Collaborators, userMsg: string, model: string) {
    var answer := env.complete(FirstRequest(model, InitialMessages(userMsg)));
    var calls := FirstToolCalls(env, userMsg, model);
    var sent := ChatSpec(env, userMsg, model).sent;
    && answer.Success?
    && |answer.value.choices| > 0
    && (forall j | 0 <= j < |calls| :: ToolMessage(env, calls[j]).Success?)
    && (forall i | 1 <= i < |sent| :: env.complete(sent[i]).Success?)
  }

  // ---------------------------------------------------------------------------------------
  // The dispatch loop

  /** Dispatch only appends, and sends at most one follow-up per call. */
  lemma {:induction false} DispatchGrows(env: Collaborators, calls: seq<ToolCall>, messages: seq<Entry>, sent: seq<Request>)
    ensures var r := Dispatch(env, calls, messages, sent);
      messages <= r.messages && sent <= r.sent && |r.sent| <= |sent| + |calls|
    decreases |calls|
  {
    if calls != [] {
      match ToolMessage(env, calls[0])
      case Failure(_) =>
      case Success(tool) =>
        var withTool := messages + [tool];
        var request := FollowUpRequest(withTool);
        match env.complete(request)
        case Failure(_) =>
        case Success(answer) =>
          var next := withTool + [CompletionObject(answer)];
          DispatchGrows(env, calls[1..], next, sent + [request]);
          assert messages <= next;
    }
  }

  /** One dispatch step in which the tool and its follow-up both return normally. */
  lemma DispatchStep(env: Collaborators, calls: seq<ToolCall>, messages: seq<Entry>, sent: seq<Request>, tool: Entry, answer: Completion)
    requires calls != [] && ToolMessage(env, calls[0]) == Success(tool)
    requires env.complete(FollowUpRequest(messages + [tool])) == Success(answer)
    ensures Dispatch(env, calls, messages, sent)
         == Dispatch(env, calls[1..], messages + [tool] + [CompletionObject(answer)], sent + [FollowUpRequest(messages + [tool])])
  {
  }

  /** Transcript lengths: 2n+1 entries for n requests, or 2n+2 when a tool call failed. */
  lemma {:induction false} DispatchLength(env: Collaborators, calls: seq<ToolCall>, messages: seq<Entry>, sent: seq<Request>)
    requires |messages| == 2 * |sent| + 1
    ensures var r := Dispatch(env, calls, messages, sent);
      |r.messages| == 2 * |r.sent| + 1 || |r.messages| == 2 * |r.sent| + 2
    decreases |calls|
  {
    if calls != [] {
      match ToolMessage(env, calls[0])
      case Failure(_) =>
      case Success(tool) =>
        match env.complete(FollowUpRequest(messages + [tool]))
        case Failure(_) =>
        case Success(answer) =>
          DispatchStep(env, calls, messages, sent, tool, answer);
          DispatchLength(env, calls[1..], messages + [tool] + [CompletionObject(answer)], sent + [FollowUpRequest(messages + [tool])]);
    }
  }

  /**
   * Starting from a transcript of 2n+1 entries with n requests sent, request i of the dispatch
   * loop is the follow-up made on the first 2i+2 entries, entry 2i+1 is the tool message of
   * call i - n, and entry 2i+2 is what that follow-up produced.
   */
  lemma {:induction false} DispatchRounds(env: Collaborators, calls: seq<ToolCall>, messages: seq<Entry>, sent: seq<Request>)
    requires |messages| == 2 * |sent| + 1
    ensures var r := Dispatch(env, calls, messages, sent);
      && sent <= r.sent && |r.sent| <= |sent| + |calls|
      && (forall i | |sent| <= i < |r.sent| ::
            && 2 * i + 2 < |r.messages|
            && r.sent[i] == FollowUpRequest(r.messages[..2 * i + 2])
            && Success(r.messages[2 * i + 1]) == ToolMessage(env, calls[i - |sent|])
            && r.messages[2 * i + 2] == AnswerEntry(env.complete(r.sent[i])))
    decreases |calls|
  {
    DispatchGrows(env, calls, messages, sent);
    if calls != [] {
      match ToolMessage(env, calls[0])
      case Failure(e) =>
      case Success(tool) =>
        var withTool := messages + [tool];
        var request := FollowUpRequest(withTool);
        match env.complete(request)
        case Failure(e) =>
          var r := Dispatch(env, calls, messages, sent);
          assert r.messages == withTool + [ErrorEntry(e)] && r.sent == sent + [request];
          assert r.messages[..2 * |sent| + 2] == withTool;
        case Success(answer) =>
          var next := withTool + [CompletionObject(answer)];
          DispatchStep(env, calls, messages, sent, tool, answer);
          RoundsAfterStep(env, calls, messages, sent, tool, answer);
    }
  }

  /** The inductive step of DispatchRounds, for a round that completed. */
  lemma {:induction false} RoundsAfterStep(env: Collaborators, calls: seq<ToolCall>, messages: seq<Entry>, sent: seq<Request>, tool: Entry, answer: Completion)
    requires |messages| == 2 * |sent| + 1
    requires calls != [] && ToolMessage(env, calls[0]) == Success(tool)
    requires env.complete(FollowUpRequest(messages + [tool])) == Success(answer)
    ensures var r := Dispatch(env, calls[1..], messages + [tool] + [CompletionObject(answer)], sent + [FollowUpRequest(messages + [tool])]);
      && sent <= r.sent && |r.sent| <= |sent| + |calls|
      && (forall i | |sent| <= i < |r.sent| ::
            && 2 * i + 2 < |r.messages|
            && r.sent[i] == FollowUpRequest(r.messages[..2 * i + 2])
            && Success(r.messages[2 * i + 1]) == ToolMessage(env, calls[i - |sent|])
            && r.messages[2 * i + 2] == AnswerEntry(env.complete(r.sent[i])))
    decreases |calls|, 0
  {
    var withTool := messages + [tool];
    var request := FollowUpRequest(withTool);
    var next := withTool + [CompletionObject(answer)];
    var rest := calls[1..];
    var r := Dispatch(env, rest, next, sent + [request]);
    DispatchRounds(env, rest, next, sent + [request]);
    DispatchGrows(env, rest, next, sent + [request]);
    assert r.sent[|sent|] == request;
    assert r.messages[..|next|] == next;
    assert r.messages[..2 * |sent| + 2] == withTool;
    assert r.messages[2 * |sent| + 1] == tool && r.messages[2 * |sent| + 2] == CompletionObject(answer);
  }

  /** When the transcript has 2n+2 entries for n requests, a tool call failed and its error is last. */
  lemma {:induction false} DispatchToolFailure(env: Collaborators, calls: seq<ToolCall>, messages: seq<Entry>, sent: seq<Request>)
    requires |messages| == 2 * |sent| + 1
    ensures var r := Dispatch(env, calls, messages, sent);
      |r.messages| == 2 * |r.sent| + 2 ==>
        && |sent| <= |r.sent| < |sent| + |calls|
        && ToolMessage(env, calls[|r.sent| - |sent|]).Failure?
        && r.messages[2 * |r.sent| + 1] == ErrorEntry(ToolMessage(env, calls[|r.sent| - |sent|]).error)
    decreases |calls|
  {
    if calls != [] {
      match ToolMessage(env, calls[0])
      case Failure(_) =>
      case Success(tool) =>
        match env.complete(FollowUpRequest(messages + [tool]))
        case Failure(_) =>
        case Success(answer) =>
          var next := messages + [tool] + [CompletionObject(answer)];
          var request := FollowUpRequest(messages + [tool]);
          DispatchStep(env, calls, messages, sent, tool, answer);
          DispatchToolFailure(env, calls[1..], next, sent + [request]);
          var r := Dispatch(env, calls[1..], next, sent + [request]);
          if |r.messages| == 2 * |r.sent| + 2 {
            assert calls[1..][|r.sent| - |sent + [request]|] == calls[|r.sent| - |sent|];
          }
    }
  }

  /** Dispatch appends no error entry except possibly as its last entry. */
  lemma {:induction false} DispatchErrorOnlyLast(env: Collaborators, calls: seq<ToolCall>, messages: seq<Entry>, sent: seq<Request>)
    ensures var r := Dispatch(env, calls, messages, sent);
      forall i | |messages| <= i < |r.messages| - 1 :: !IsErrorEntry(r.messages[i])
    decreases |calls|
  {
    if calls != [] {
      match ToolMessage(env, calls[0])
      case Failure(e) =>
      case Success(tool) =>
        match env.complete(FollowUpRequest(messages + [tool]))
        case Failure(e) =>
          assert !IsErrorEntry(tool);
        case Success(answer) =>
          var next := messages + [tool] + [CompletionObject(answer)];
          var request := FollowUpRequest(messages + [tool]);
          DispatchStep(env, calls, messages, sent, tool, answer);
          DispatchErrorOnlyLast(env, calls[1..], next, sent + [request]);
          DispatchGrows(env, calls[1..], next, sent + [request]);
          var r := Dispatch(env, calls[1..], next, sent + [request]);
          assert r.messages[..|next|] == next;
          assert r.messages[|messages|] == tool && r.messages[|messages| + 1] == CompletionObject(answer);
    }
  }

  /**
   * Dispatch completes every call, with two entries and one request per call, exactly when
   * every tool and every follow-up it reached returned normally; otherwise its last entry is
   * an error entry.
   */
  lemma {:induction false} DispatchCompletes(env: Collaborators, calls: seq<ToolCall>, messages: seq<Entry>, sent: seq<Request>)
    ensures var r := Dispatch(env, calls, messages, sent);
      var succeeded :=
        && (forall j | 0 <= j < |calls| :: ToolMessage(env, calls[j]).Success?)
        && (forall i | |sent| <= i < |r.sent| :: env.complete(r.sent[i]).Success?);
      && (succeeded ==>
            && |r.sent| == |sent| + |calls|
            && |r.messages| == |messages| + 2 * |calls|
            && (calls != [] ==> r.messages[|r.messages| - 1].CompletionObject?))
      && (!succeeded ==> |r.messages| > |messages| && IsErrorEntry(r.messages[|r.messages| - 1]))
    decreases |calls|
  {
    var r := Dispatch(env, calls, messages, sent);
    if calls == [] {
      assert r.messages == messages && r.sent == sent;
    } else {
      match ToolMessage(env, calls[0])
      case Failure(e) =>
        assert r.messages == messages + [ErrorEntry(e)];
        assert !ToolMessage(env, calls[0]).Success?;
      case Success(tool) =>
        var request := FollowUpRequest(messages + [tool]);
        match env.complete(request)
        case Failure(e) =>
          assert r.messages == messages + [tool] + [ErrorEntry(e)];
          assert r.sent == sent + [request];
          assert env.complete(r.sent[|sent|]).Failure?;
        case Success(answer) =>
          var next := messages + [tool] + [CompletionObject(answer)];
          DispatchStep(env, calls, messages, sent, tool, answer);
          CompletesAfterStep(env, calls, messages, sent, tool, answer);
    }
  }

  /** The inductive step of DispatchCompletes, for a round that completed. */
  lemma {:induction false} CompletesAfterStep(env: Collaborators, calls: seq<ToolCall>, messages: seq<Entry>, sent: seq<Request>, tool: Entry, answer: Completion)
    requires calls != [] && ToolMessage(env, calls[0]) == Success(tool)
    requires env.complete(FollowUpRequest(messages + [tool])) == Success(answer)
    ensures var request := FollowUpRequest(messages + [tool]);
      var r := Dispatch(env, calls[1..], messages + [tool] + [CompletionObject(answer)], sent + [request]);
      var succeeded :=
        && (forall j | 0 <= j < |calls| :: ToolMessage(env, calls[j]).Success?)
        && (forall i | |sent| <= i < |r.sent| :: env.complete(r.sent[i]).Success?);
      && (succeeded ==>
            && |r.sent| == |sent| + |calls|
            && |r.messages| == |messages| + 2 * |calls|
            && r.messages[|r.messages| - 1].CompletionObject?)
      && (!succeeded ==> |r.messages| > |messages| && IsErrorEntry(r.messages[|r.messages| - 1]))
    decreases |calls|, 0
  {
    var request := FollowUpRequest(messages + [tool]);
    var next := messages + [tool] + [CompletionObject(answer)];
    var rest := calls[1..];
    DispatchCompletes(env, rest, next, sent + [request]);
    DispatchGrows(env, rest, next, sent + [request]);
    var r := Dispatch(env, rest, next, sent + [request]);
    assert r.sent[|sent|] == request;
    assert rest == [] ==> r.messages == next;
    assert (forall j | 0 <= j < |calls| :: ToolMessage(env, calls[j]).Success?)
       <==> (forall j | 0 <= j < |rest| :: ToolMessage(env, rest[j]).Success?)
    by {
      assert forall j | 0 <= j < |rest| :: rest[j] == calls[j + 1];
      assert forall j | 1 <= j < |calls| :: calls[j] == rest[j - 1];
    }
    assert (forall i | |sent| <= i < |r.sent| :: env.complete(r.sent[i]).Success?)
       <==> (forall i | |sent + [request]| <= i < |r.sent| :: env.complete(r.sent[i]).Success?);
  }

  // ---------------------------------------------------------------------------------------
  // Whole runs

  /** A run that reaches dispatch is the dispatch loop over the first response's tool calls. */
  lemma RunDispatches(env: Collaborators, userMsg: string, model: string)
    requires FirstToolCalls(env, userMsg, model) != []
    ensures var response := env.complete(FirstRequest(model, InitialMessages(userMsg))).value;
      && response.choices != []
      && FirstToolCalls(env, userMsg, model) == response.choices[0].message.toolCalls.value
      && ChatSpec(env, userMsg, model)
         == Dispatch(env, FirstToolCalls(env, userMsg, model),
                     InitialMessages(userMsg) + [MessageObject(response.choices[0].message)],
                     [FirstRequest(model, InitialMessages(userMsg))])
  {
  }

  /** A run that does not reach dispatch ends after its first request with one appended entry. */
  lemma RunWithoutDispatch(env: Collaborators, userMsg: string, model: string)
    requires FirstToolCalls(env, userMsg, model) == []
    ensures var r := ChatSpec(env, userMsg, model);
      && r.sent == [FirstRequest(model, InitialMessages(userMsg))]
      && |r.messages| == 3 && r.messages[..2] == InitialMessages(userMsg)
  {
    var r := ChatSpec(env, userMsg, model);
    assert r.messages[..2] == InitialMessages(userMsg);
  }

  /** Every transcript starts with the system prompt and the wrapped user message. */
  lemma {:induction false} TranscriptStartsWithPrompt(env: Collaborators, userMsg: string, model: string)
    ensures var r := ChatSpec(env, userMsg, model);
      && |r.messages| >= 3
      && r.messages[0] == Message("system", SystemPrompt)
      && r.messages[1] == Message("user", "\n            " + userMsg + "\n        ")
  {
    var r := ChatSpec(env, userMsg, model);
    if FirstToolCalls(env, userMsg, model) == [] {
      RunWithoutDispatch(env, userMsg, model);
    } else {
      RunDispatches(env, userMsg, model);
      var response := env.complete(FirstRequest(model, InitialMessages(userMsg))).value;
      var start := InitialMessages(userMsg) + [MessageObject(response.choices[0].message)];
      DispatchGrows(env, FirstToolCalls(env, userMsg, model), start, [FirstRequest(model, InitialMessages(userMsg))]);
      assert r.messages[..3] == start;
    }
  }

  /**
   * Append-only: every request carries a prefix of the final transcript (request i its first
   * 2i+2 entries), so each request's list is a proper prefix of every later one.
   */
  lemma {:induction false} RequestsSeePrefixes(env: Collaborators, userMsg: string, model: string)
    ensures var r := ChatSpec(env, userMsg, model);
      && |r.sent| >= 1
      && (forall i | 0 <= i < |r.sent| :: 2 * i + 2 < |r.messages| && r.sent[i].messages == r.messages[..2 * i + 2])
      && (forall i, j | 0 <= i < j < |r.sent| :: r.sent[i].messages < r.sent[j].messages)
  {
    var r := ChatSpec(env, userMsg, model);
    var initial := InitialMessages(userMsg);
    if FirstToolCalls(env, userMsg, model) == [] {
      RunWithoutDispatch(env, userMsg, model);
    } else {
      RunDispatches(env, userMsg, model);
      var response := env.complete(FirstRequest(model, initial)).value;
      var start := initial + [MessageObject(response.choices[0].message)];
      var calls := FirstToolCalls(env, userMsg, model);
      DispatchGrows(env, calls, start, [FirstRequest(model, initial)]);
      DispatchRounds(env, calls, start, [FirstRequest(model, initial)]);
      assert r.messages[..3] == start;
      assert r.messages[..2] == initial;
      assert r.sent[0] == FirstRequest(model, initial);
    }
    forall i, j | 0 <= i < j < |r.sent| ensures r.sent[i].messages < r.sent[j].messages {
      assert r.sent[i].messages == r.messages[..2 * i + 2];
      assert r.sent[j].messages == r.messages[..2 * j + 2];
      assert r.messages[..2 * i + 2] == r.messages[..2 * j + 2][..2 * i + 2];
    }
  }

  /**
   * Only the first request carries the two tools and `tool_choice="auto"`; every later one
   * is a follow-up with the fixed model and no tools, at most one per tool call of the first
   * response, so there is never a second round of dispatch.
   */
  lemma {:induction false} OnlyFirstRequestAdvertisesTools(env: Collaborators, userMsg: string, model: string)
    ensures var r := ChatSpec(env, userMsg, model);
      && |r.sent| >= 1
      && r.sent[0] == Request(model, InitialMessages(userMsg), None, [YoutubeTool, WebsiteTool], Some("auto"))
      && (forall i | 1 <= i < |r.sent| ::
            r.sent[i].model == "gpt-3.5-turbo" && r.sent[i].tools == [] && r.sent[i].toolChoice == None)
      && |r.sent| <= 1 + |FirstToolCalls(env, userMsg, model)|
  {
    var initial := InitialMessages(userMsg);
    if FirstToolCalls(env, userMsg, model) == [] {
      RunWithoutDispatch(env, userMsg, model);
    } else {
      RunDispatches(env, userMsg, model);
      var response := env.complete(FirstRequest(model, initial)).value;
      var start := initial + [MessageObject(response.choices[0].message)];
      DispatchRounds(env, FirstToolCalls(env, userMsg, model), start, [FirstRequest(model, initial)]);
    }
  }

  /**
   * Each follow-up is made right after the tool message of its call: request i (i >= 1) sees
   * the transcript up to and including the tool message of tool call i - 1, and the entry
   * after that tool message is what the follow-up returned.
   */
  lemma {:induction false} FollowUpAfterEachToolMessage(env: Collaborators, userMsg: string, model: string)
    ensures var r := ChatSpec(env, userMsg, model);
      var calls := FirstToolCalls(env, userMsg, model);
      && |r.sent| <= 1 + |calls|
      && (forall i | 1 <= i < |r.sent| ::
            && 2 * i + 2 < |r.messages|
            && r.sent[i] == FollowUpRequest(r.messages[..2 * i + 2])
            && Success(r.messages[2 * i + 1]) == ToolMessage(env, calls[i - 1])
            && r.messages[2 * i + 2] == AnswerEntry(env.complete(r.sent[i])))
  {
    var initial := InitialMessages(userMsg);
    if FirstToolCalls(env, userMsg, model) == [] {
      RunWithoutDispatch(env, userMsg, model);
    } else {
      RunDispatches(env, userMsg, model);
      var response := env.complete(FirstRequest(model, initial)).value;
      var start := initial + [MessageObject(response.choices[0].message)];
      DispatchRounds(env, FirstToolCalls(env, userMsg, model), start, [FirstRequest(model, initial)]);
    }
  }

  /** Without tool calls the transcript is `[system, user, response message]`. */
  lemma NoToolCallsTranscript(env: Collaborators, userMsg: string, model: string, response: Completion)
    requires env.complete(FirstRequest(model, InitialMessages(userMsg))) == Success(response)
    requires |response.choices| > 0 && !HasToolCalls(response.choices[0].message)
    ensures var r := ChatSpec(env, userMsg, model);
      && r.messages == InitialMessages(userMsg) + [MessageObject(response.choices[0].message)]
      && |r.messages| == 3
      && r.sent == [FirstRequest(model, InitialMessages(userMsg))]
  {
  }

  /**
   * When every collaborator returns normally and the model asked for k tools, the transcript
   * has 3 + 2k entries: the assistant message, then per call in order its tool message and the
   * completion object its follow-up returned; exactly k follow-ups are sent.
   */
  lemma {:induction false} SuccessfulToolCallsTranscript(env: Collaborators, userMsg: string, model: string, response: Completion)
    requires env.complete(FirstRequest(model, InitialMessages(userMsg))) == Success(response)
    requires |response.choices| > 0 && HasToolCalls(response.choices[0].message)
    requires RunSucceeded(env, userMsg, model)
    ensures var r := ChatSpec(env, userMsg, model);
      var calls := response.choices[0].message.toolCalls.value;
      && |r.messages| == 3 + 2 * |calls|
      && |r.sent| == 1 + |calls|
      && r.messages[2] == MessageObject(response.choices[0].message)
      && (forall i | 1 <= i < |r.sent| ::
            && Success(r.messages[2 * i + 1]) == ToolMessage(env, calls[i - 1])
            && env.complete(r.sent[i]).Success?
            && r.messages[2 * i + 2] == CompletionObject(env.complete(r.sent[i]).value))
  {
    var initial := InitialMessages(userMsg);
    var calls := FirstToolCalls(env, userMsg, model);
    var start := initial + [MessageObject(response.choices[0].message)];
    RunDispatches(env, userMsg, model);
    DispatchCompletes(env, calls, start, [FirstRequest(model, initial)]);
    DispatchGrows(env, calls, start, [FirstRequest(model, initial)]);
    FollowUpAfterEachToolMessage(env, userMsg, model);
    var r := ChatSpec(env, userMsg, model);
    assert r.messages[..3] == start;
  }

  /**
   * Errors never propagate: at most one error entry is ever appended, always as the last entry,
   * and it is there exactly when something the try block ran raised: a collaborator, the table
   * lookup or `choices[0]`.
   */
  lemma {:induction false} ErrorEntryIsLastAndUnique(env: Collaborators, userMsg: string, model: string)
    ensures var r := ChatSpec(env, userMsg, model);
      && |r.messages| >= 3
      && (forall i | 0 <= i < |r.messages| - 1 :: !IsErrorEntry(r.messages[i]))
      && (IsErrorEntry(r.messages[|r.messages| - 1]) <==> !RunSucceeded(env, userMsg, model))
  {
    var r := ChatSpec(env, userMsg, model);
    var initial := InitialMessages(userMsg);
    TranscriptStartsWithPrompt(env, userMsg, model);
    if FirstToolCalls(env, userMsg, model) == [] {
      RunWithoutDispatch(env, userMsg, model);
      assert |r.sent| == 1;
    } else {
      RunDispatches(env, userMsg, model);
      var response := env.complete(FirstRequest(model, initial)).value;
      var calls := FirstToolCalls(env, userMsg, model);
      var start := initial + [MessageObject(response.choices[0].message)];
      DispatchGrows(env, calls, start, [FirstRequest(model, initial)]);
      DispatchErrorOnlyLast(env, calls, start, [FirstRequest(model, initial)]);
      DispatchCompletes(env, calls, start, [FirstRequest(model, initial)]);
      assert r.messages[..3] == start;
      forall i | 0 <= i < 3 ensures !IsErrorEntry(r.messages[i]) {
        assert r.messages[i] == start[i];
      }
    }
  }

  /**
   * A request that raises is the last one sent, and the transcript is then exactly the list it
   * was sent with plus one error entry carrying the exception's text.
   */
  lemma {:induction false} FailedRequestKeepsTranscript(env: Collaborators, userMsg: string, model: string, i: nat)
    requires i < |ChatSpec(env, userMsg, model).sent|
    requires env.complete(ChatSpec(env, userMsg, model).sent[i]).Failure?
    ensures var r := ChatSpec(env, userMsg, model);
      && i == |r.sent| - 1
      && r.messages == r.sent[i].messages + [ErrorEntry(env.complete(r.sent[i]).error)]
  {
    var r := ChatSpec(env, userMsg, model);
    RequestsSeePrefixes(env, userMsg, model);
    if i == 0 {
      OnlyFirstRequestAdvertisesTools(env, userMsg, model);
      RunWithoutDispatchOnFailure(env, userMsg, model);
    } else {
      assert FirstToolCalls(env, userMsg, model) != [] by {
        if FirstToolCalls(env, userMsg, model) == [] { RunWithoutDispatch(env, userMsg, model); }
      }
      FollowUpAfterEachToolMessage(env, userMsg, model);
      ErrorEntryIsLastAndUnique(env, userMsg, model);
      var e := env.complete(r.sent[i]).error;
      assert r.messages[2 * i + 2] == ErrorEntry(e);
      assert 2 * i + 2 == |r.messages| - 1;
      DispatchLengthOfRun(env, userMsg, model);
      assert r.messages == r.messages[..2 * i + 2] + [ErrorEntry(e)];
    }
  }

  /** A first request that raises leaves `[system, user, error]`. */
  lemma RunWithoutDispatchOnFailure(env: Collaborators, userMsg: string, model: string)
    requires env.complete(FirstRequest(model, InitialMessages(userMsg))).Failure?
    ensures var r := ChatSpec(env, userMsg, model);
      && r.sent == [FirstRequest(model, InitialMessages(userMsg))]
      && r.messages == InitialMessages(userMsg) + [ErrorEntry(env.complete(r.sent[0]).error)]
  {
  }

  /** The transcript has 2n+1 entries for n requests, or 2n+2 when a tool call failed. */
  lemma DispatchLengthOfRun(env: Collaborators, userMsg: string, model: string)
    ensures var r := ChatSpec(env, userMsg, model);
      |r.messages| == 2 * |r.sent| + 1 || |r.messages| == 2 * |r.sent| + 2
  {
    var initial := InitialMessages(userMsg);
    if FirstToolCalls(env, userMsg, model) == [] {
      RunWithoutDispatch(env, userMsg, model);
    } else {
      RunDispatches(env, userMsg, model);
      var response := env.complete(FirstRequest(model, initial)).value;
      var start := initial + [MessageObject(response.choices[0].message)];
      DispatchLength(env, FirstToolCalls(env, userMsg, model), start, [FirstRequest(model, initial)]);
    }
  }

  /**
   * A transcript of 2n+2 entries for n requests means tool call n - 1 failed (an unknown name,
   * bad arguments or a raising tool) and its error, with the KeyError text for an unknown
   * name, is the last entry.
   */
  lemma {:induction false} FailedToolCallEndsTranscript(env: Collaborators, userMsg: string, model: string)
    ensures var r := ChatSpec(env, userMsg, model);
      var calls := FirstToolCalls(env, userMsg, model);
      |r.messages| == 2 * |r.sent| + 2 ==>
        && 1 <= |r.sent| <= |calls|
        && ToolMessage(env, calls[|r.sent| - 1]).Failure?
        && r.messages[|r.messages| - 1] == ErrorEntry(ToolMessage(env, calls[|r.sent| - 1]).error)
        && (calls[|r.sent| - 1].func.name !in AvailableFunctions ==>
              r.messages[|r.messages| - 1] == ErrorEntry(KeyErrorText(calls[|r.sent| - 1].func.name)))
  {
    var initial := InitialMessages(userMsg);
    if FirstToolCalls(env, userMsg, model) == [] {
      RunWithoutDispatch(env, userMsg, model);
    } else {
      RunDispatches(env, userMsg, model);
      var response := env.complete(FirstRequest(model, initial)).value;
      var start := initial + [MessageObject(response.choices[0].message)];
      DispatchToolFailure(env, FirstToolCalls(env, userMsg, model), start, [FirstRequest(model, initial)]);
    }
  }

  // ---------------------------------------------------------------------------------------
  // The classifier applied to what the loop returns

  /** Without tool calls the classifier returns the reply's content and no tool context. */
  lemma ClassifyDirectAnswer(env: Collaborators, userMsg: string, model: string, response: Completion)
    requires env.complete(FirstRequest(model, InitialMessages(userMsg))) == Success(response)
    requires |response.choices| > 0 && !HasToolCalls(response.choices[0].message)
    ensures DetermineAssistantToolMessages(ChatSpec(env, userMsg, model).messages)
         == Success((PyStr(response.choices[0].message.content), None))
  {
    NoToolCallsTranscript(env, userMsg, model, response);
  }

  /**
   * After k >= 1 completed tool calls the classifier returns the last follow-up's answer and
   * the last tool's output; it raises IndexError when that follow-up returned no choices.
   */
  lemma {:induction false} ClassifyAfterToolCalls(env: Collaborators, userMsg: string, model: string, response: Completion)
    requires env.complete(FirstRequest(model, InitialMessages(userMsg))) == Success(response)
    requires |response.choices| > 0 && HasToolCalls(response.choices[0].message)
    requires RunSucceeded(env, userMsg, model)
    ensures var r := ChatSpec(env, userMsg, model);
      var calls := response.choices[0].message.toolCalls.value;
      && |r.sent| == 1 + |calls|
      && env.complete(r.sent[|r.sent| - 1]).Success?
      && ToolMessage(env, calls[|calls| - 1]).Success?
      && var answer := env.complete(r.sent[|r.sent| - 1]).value;
         var output := ToolMessage(env, calls[|calls| - 1]).value.content;
         && (|answer.choices| > 0 ==>
               DetermineAssistantToolMessages(r.messages)
               == Success((PyStr(answer.choices[0].message.content), Some(output))))
         && (|answer.choices| == 0 ==> DetermineAssistantToolMessages(r.messages) == Failure(IndexErrorText))
  {
    SuccessfulToolCallsTranscript(env, userMsg, model, response);
    var r := ChatSpec(env, userMsg, model);
    var k := |r.sent| - 1;
    assert 1 <= k < |r.sent|;
    assert |r.messages| - 1 == 2 * k + 2 && |r.messages| - 2 == 2 * k + 1;
  }

  /** After any failure the classifier finds the error dict and returns the sentinel. */
  lemma ClassifyAfterFailure(env: Collaborators, userMsg: string, model: string)
    requires !RunSucceeded(env, userMsg, model)
    ensures DetermineAssistantToolMessages(ChatSpec(env, userMsg, model).messages)
         == Success((ErrorFindingMessage, None))
  {
    ErrorEntryIsLastAndUnique(env, userMsg, model);
  }
}
