/**
 * The four persona bodies of the prompt registry. Both registry variants return the same four
 * literals (character for character), one of them followed by a fixed suffix. Each literal
 * opens with a line break and eight spaces and ends with a line break and eight spaces; the
 * constants here keep that framing and the opening sentence of each persona, and stand for
 * the rest of the prose with a marker instead of transcribing it.
 */
module Personas {

  /** The line break and indentation that open and close every persona literal. */
  const Indent: string := "\n        "

  const Girlfriend: string :=
    Indent + "Imagine you are the user's girlfriend. [persona prose]" + Indent

  const Therapist: string :=
    Indent + "You are a calm therapist, equipped with a deep understanding of human emotions and psychological principles. [persona prose]" + Indent

  const Trainer: string :=
    Indent + "As a really enthusiastic personal trainer, you embody motivation, discipline, and expertise in fitness and nutrition. [persona prose]" + Indent

  /** The generic conversation prompt used for every unrecognised template id. */
  const Default: string :=
    Indent + "The following is a friendly conversation between a human and an AI. [persona prose]" + Indent

  /** The template ids that select a persona; matching is exact (case-sensitive). */
  const KnownTemplates: set<string> := {"girlfriend", "therapist", "trainer"}
}
