/**
 * Prompt registry and single-shot chat call of kitsune_1_chatbot.py. This registry returns the
 * same persona literals as chat_openai.py, each followed by a fixed conversation suffix whose
 * placeholders are left uninterpolated (the suffix is not an f-string).
 */
module Kitsune1Chatbot {
  import opened Wrappers
  import opened ChatTypes
  import opened Personas
  import ChatOpenAI

  /** The two placeholders of the suffix, which stay as literal text. */
  const HistoryPlaceholder: string := "{history}"
  const InputPlaceholder: string := "{input}"

  /**
   * The conversation suffix, character for character; it is written in pieces only so that
   * the placeholders have names.
   */
  const Suffix: string :=
    "\n    Current conversation:\n    " + HistoryPlaceholder + "\n    Human: " + InputPlaceholder + "\n    AI:\n    "

  predicate EndsWith(s: string, t: string) {
    |t| <= |s| && s[|s| - |t|..] == t
  }

  /** `t` occurs in `s` starting at position `i`. */
  predicate OccursAt(s: string, t: string, i: nat) {
    i + |t| <= |s| && s[i..i + |t|] == t
  }

  ghost predicate Contains(s: string, t: string) {
    exists i: nat :: OccursAt(s, t, i)
  }

  /** The persona for a template id followed by the suffix. */
  function FetchSystemPrompt(promptTemplate: string): (r: string)
    ensures EndsWith(r, Suffix)
    ensures r in {Girlfriend + Suffix, Therapist + Suffix, Trainer + Suffix, Default + Suffix}
  {
    if promptTemplate == "girlfriend" then Girlfriend + Suffix
    else if promptTemplate == "therapist" then Therapist + Suffix
    else if promptTemplate == "trainer" then Trainer + Suffix
    else Default + Suffix
  }

  /** For every id this registry's prompt is the other registry's prompt plus the suffix. */
  lemma ExtendsChatOpenAIRegistry(promptTemplate: string)
    ensures FetchSystemPrompt(promptTemplate) == ChatOpenAI.FetchSystemPrompt(promptTemplate) + Suffix
  {
  }

  /** The other registry's prompts do not carry the suffix. */
  lemma ChatOpenAIHasNoSuffix(promptTemplate: string)
    ensures !EndsWith(ChatOpenAI.FetchSystemPrompt(promptTemplate), Suffix)
  {
    var p := ChatOpenAI.FetchSystemPrompt(promptTemplate);
    var body := p[|Indent|..|p| - |Indent|];
    assert p == Indent + body + Indent;
    assert p[|p| - 6] == Indent[3] == ' ';
    var after := "\n    AI:\n    ";
    assert Suffix[|Suffix| - 6] == after[7] == ':';
  }

  /** Appending the same suffix keeps distinct bodies distinct. */
  lemma SuffixCancels(a: string, b: string)
    requires a + Suffix == b + Suffix
    ensures a == b
  {
    assert |a| == |b|;
    assert a == (a + Suffix)[..|a|];
    assert b == (b + Suffix)[..|b|];
  }

  /** The four possible prompts are pairwise distinct. */
  lemma PromptsDistinct()
    ensures Girlfriend + Suffix != Therapist + Suffix
    ensures Girlfriend + Suffix != Trainer + Suffix
    ensures Girlfriend + Suffix != Default + Suffix
    ensures Therapist + Suffix != Trainer + Suffix
    ensures Therapist + Suffix != Default + Suffix
    ensures Trainer + Suffix != Default + Suffix
  {
    ChatOpenAI.PersonasDistinct();
    if Girlfriend + Suffix == Therapist + Suffix { SuffixCancels(Girlfriend, Therapist); }
    if Girlfriend + Suffix == Trainer + Suffix { SuffixCancels(Girlfriend, Trainer); }
    if Girlfriend + Suffix == Default + Suffix { SuffixCancels(Girlfriend, Default); }
    if Therapist + Suffix == Trainer + Suffix { SuffixCancels(Therapist, Trainer); }
    if Therapist + Suffix == Default + Suffix { SuffixCancels(Therapist, Default); }
    if Trainer + Suffix == Default + Suffix { SuffixCancels(Trainer, Default); }
  }

  /** Only the exact ids select a persona; every other string, other casings included, gets the default. */
  lemma SelectsExactly(promptTemplate: string)
    ensures FetchSystemPrompt(promptTemplate) == Girlfriend + Suffix <==> promptTemplate == "girlfriend"
    ensures FetchSystemPrompt(promptTemplate) == Therapist + Suffix <==> promptTemplate == "therapist"
    ensures FetchSystemPrompt(promptTemplate) == Trainer + Suffix <==> promptTemplate == "trainer"
    ensures FetchSystemPrompt(promptTemplate) == Default + Suffix <==> promptTemplate !in KnownTemplates
  {
    PromptsDistinct();
  }

  /** A slice of a three-part concatenation that covers exactly the middle part. */
  lemma MiddleSlice(p: string, m: string, q: string)
    ensures (p + m + q)[|p|..|p| + |m|] == m
  {
  }

  /** An occurrence in `s` is still an occurrence after a prefix is put in front of `s`. */
  lemma OccursAfterPrefix(p: string, s: string, t: string, i: nat)
    requires OccursAt(s, t, i)
    ensures OccursAt(p + s, t, |p| + i)
  {
    assert (p + s)[|p| + i..|p| + i + |t|] == s[i..i + |t|];
  }

  /** Where the two placeholders stand in the suffix. */
  lemma SuffixPlaceholders()
    ensures OccursAt(Suffix, HistoryPlaceholder, 31) && OccursAt(Suffix, InputPlaceholder, 52)
  {
    var before, human, after := "\n    Current conversation:\n    ", "\n    Human: ", "\n    AI:\n    ";
    var rest := human + InputPlaceholder + after;
    assert Suffix == before + HistoryPlaceholder + rest;
    MiddleSlice(before, HistoryPlaceholder, rest);
    MiddleSlice(human, InputPlaceholder, after);
    OccursAfterPrefix(before + HistoryPlaceholder, rest, InputPlaceholder, 12);
  }

  /** Every prompt contains the literal placeholders `{history}` and `{input}`. */
  lemma KeepsPlaceholders(promptTemplate: string)
    ensures Contains(FetchSystemPrompt(promptTemplate), "{history}")
    ensures Contains(FetchSystemPrompt(promptTemplate), "{input}")
  {
    var body := ChatOpenAI.FetchSystemPrompt(promptTemplate);
    ExtendsChatOpenAIRegistry(promptTemplate);
    SuffixPlaceholders();
    OccursAfterPrefix(body, Suffix, HistoryPlaceholder, 31);
    OccursAfterPrefix(body, Suffix, InputPlaceholder, 52);
  }

  /** The exact request the single-shot call sends: the registry prompt, then the user's text. */
  function AssembleRequest(userMessage: string, promptTemplate: string, model: string, temperature: real): (req: Request)
    ensures |req.messages| == 2
    ensures req.messages[0] == Message("system", FetchSystemPrompt(promptTemplate))
    ensures req.messages[1] == Message("user", userMessage)
    ensures req.model == model && req.temperature == Some(temperature)
    ensures req.tools == [] && req.toolChoice == None
  {
    Request(model, [Message("system", FetchSystemPrompt(promptTemplate)), Message("user", userMessage)],
            Some(temperature), [], None)
  }

  /**
   * One completion request, returning the first choice's content (None when the model sent
   * none). Endpoint failures propagate; an empty choice list raises IndexError.
   */
  function SendMessageToOpenAI(
    complete: CompletionEndpoint, userMessage: string, promptTemplate: string, model: string, temperature: real): (r: Result<Option<string>, string>)
    ensures var answer := complete(AssembleRequest(userMessage, promptTemplate, model, temperature));
      && (answer.Failure? ==> r == Failure(answer.error))
      && (answer.Success? && |answer.value.choices| > 0 ==> r == Success(answer.value.choices[0].message.content))
      && (answer.Success? && |answer.value.choices| == 0 ==> r == Failure(IndexErrorText))
  {
    match complete(AssembleRequest(userMessage, promptTemplate, model, temperature))
    case Failure(e) => Failure(e)
    case Success(response) =>
      if |response.choices| == 0 then Failure(IndexErrorText)
      else Success(response.choices[0].message.content)
  }
}
