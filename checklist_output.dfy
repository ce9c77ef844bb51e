/**
 * The spoken answer of a checklist turn: a literal text, optionally the index of the checklist
 * the next turn continues with, and whether the assistant keeps listening afterwards.
 */
module ChecklistOutput {
  import opened Wrappers

  /** A skill offered for the next conversational turn. */
  datatype NextSkill =
    | ChecklistInteraction(checklistIndex: nat)   // continue the run of this checklist
    | ConfirmStart(candidate: nat)                // yes/no: start this checklist?

  /**
   * `Output` is the plain record (`keepListening` defaults to true). `StartConfirmation` is the
   * anonymous subclass the start skill builds to ask "Do you want to start ...?": it has no
   * checklist index, keeps the default `keepListening`, and offers a yes/no skill instead.
   */
  datatype ChecklistSkillOutput =
    | Output(literal: string, checklistIndex: Option<nat>, keepListening: bool := true)
    | StartConfirmation(literal: string, candidate: nat)
  {
    /** The text that is spoken and shown as the headline. */
    function SpeechOutput(): (r: string)
      ensures r == literal
    {
      literal
    }

    /** The skills the next turn is routed to. */
    function NextSkills(): (r: seq<NextSkill>)
      ensures |r| <= 1
      ensures Output? ==> (r == [] <==> checklistIndex.None?)
      ensures Output? ==> forall i: nat :: r == [ChecklistInteraction(i)] <==> checklistIndex == Some(i)
      ensures StartConfirmation? ==> r == [ConfirmStart(candidate)]
    {
      match this
      case Output(_, index, _) => if index.Some? then [ChecklistInteraction(index.value)] else []
      case StartConfirmation(_, candidate) => [ConfirmStart(candidate)]
    }

    function KeepListening(): (r: bool)
      ensures Output? ==> r == keepListening
      ensures StartConfirmation? ==> r
    {
      match this
      case Output(_, _, keep) => keep
      case StartConfirmation(_, _) => true
    }

    /**
     * A new plain output whose text is `update` applied to this one's, with the same checklist
     * index and listening flag. On the confirmation variant the result is a plain output
     * without index: the yes/no continuation of the subclass is not carried over.
     */
    function UpdateText(update: string -> string): (r: ChecklistSkillOutput)
      ensures r.Output?
      ensures r.SpeechOutput() == update(SpeechOutput())
      ensures r.KeepListening() == KeepListening()
      ensures Output? ==> r.NextSkills() == NextSkills()
      ensures StartConfirmation? ==> r.NextSkills() == []
    {
      match this
      case Output(text, index, keep) => Output(update(text), index, keep)
      case StartConfirmation(text, _) => Output(update(text), None)
    }
  }
}
