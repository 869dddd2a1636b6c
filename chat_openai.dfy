/**
 * Prompt registry of chat_openai.py: a total map from a template id to a fixed persona
 * literal, and the unfinished history-aware chat entry point.
 */
module ChatOpenAI {
  import opened Wrappers
  import opened Personas

  /** The persona literal for a template id; anything but an exact known id gets the default. */
  function FetchSystemPrompt(promptTemplate: string): (r: string)
    ensures r in {Girlfriend, Therapist, Trainer, Default}
    ensures promptTemplate !in KnownTemplates ==> r == Default
  {
    if promptTemplate == "girlfriend" then Girlfriend
    else if promptTemplate == "therapist" then Therapist
    else if promptTemplate == "trainer" then Trainer
    else Default
  }

  /** The four persona literals are pairwise distinct. */
  lemma PersonasDistinct()
    ensures Girlfriend != Therapist && Girlfriend != Trainer && Girlfriend != Default
    ensures Therapist != Trainer && Therapist != Default && Trainer != Default
  {
  }

  /** Each persona is selected by exactly one id, and the default by every other string. */
  lemma SelectsExactly(promptTemplate: string)
    ensures FetchSystemPrompt(promptTemplate) == Girlfriend <==> promptTemplate == "girlfriend"
    ensures FetchSystemPrompt(promptTemplate) == Therapist <==> promptTemplate == "therapist"
    ensures FetchSystemPrompt(promptTemplate) == Trainer <==> promptTemplate == "trainer"
    ensures FetchSystemPrompt(promptTemplate) == Default <==> promptTemplate !in KnownTemplates
  {
    PersonasDistinct();
  }

  /** Distinct known ids give distinct prompts, and no known id gives the default. */
  lemma DistinctIdsDistinctPrompts(a: string, b: string)
    requires a in KnownTemplates && a != b
    ensures FetchSystemPrompt(a) != FetchSystemPrompt(b)
  {
    SelectsExactly(a);
    SelectsExactly(b);
  }

  /** The history-aware variant is a stub: it returns None whatever it is given. */
  function SendMessageToOpenAIWithHistory(
    userMessage: string, promptTemplate: string, model: string, temperature: real, chatId: string): (r: Option<string>)
    ensures r == None
  {
    None
  }
}
