/** The research worker's state and output schema (src/states/researcher_state.py). */
module ResearcherStates {
  import opened Wrappers
  import opened Messages

  /** `ResearcherState`; missing keys are represented by their reading defaults. */
  datatype ResearcherState = ResearcherState(
    messages: seq<Message>,
    toolCallIterations: int,
    researchTopic: string,
    compressedResearch: string,
    rawNotes: seq<string>)

  /** A researcher node's partial update: `None` means the key is absent. */
  datatype ResearcherUpdate = ResearcherUpdate(
    messages: Option<seq<Message>>,
    toolCallIterations: Option<int>,
    researchTopic: Option<string>,
    compressedResearch: Option<string>,
    rawNotes: Option<seq<string>>)

  const NoResearcherUpdate := ResearcherUpdate(None, None, None, None, None)

  /** `ResearcherOutputState`: what the sub-graph hands back to its caller. */
  datatype ResearcherOutputState = ResearcherOutputState(
    compressedResearch: string,
    rawNotes: seq<string>,
    messages: seq<Message>)

  /**
   * The declared reducers: messages append (`add_messages`), `raw_notes`
   * concatenates (`operator.add`), the rest overwrite.
   */
  function MergeResearcher(s: ResearcherState, u: ResearcherUpdate): ResearcherState
  {
    ResearcherState(
      messages := s.messages + u.messages.GetOr([]),
      toolCallIterations := u.toolCallIterations.GetOr(s.toolCallIterations),
      researchTopic := u.researchTopic.GetOr(s.researchTopic),
      compressedResearch := u.compressedResearch.GetOr(s.compressedResearch),
      rawNotes := s.rawNotes + u.rawNotes.GetOr([]))
  }

  /** The projection of the final state onto the output schema. */
  function Output(s: ResearcherState): (o: ResearcherOutputState)
    ensures o.compressedResearch == s.compressedResearch && o.rawNotes == s.rawNotes && o.messages == s.messages
  {
    ResearcherOutputState(s.compressedResearch, s.rawNotes, s.messages)
  }

  // The next two lemmas declare the reducers field by field, as the proofs use them; the
  // run lemmas of the research graph state what follows from them.

  /** The list fields only grow: the old history and notes are prefixes of the new ones. */
  lemma MergeResearcherAppends(s: ResearcherState, u: ResearcherUpdate)
    ensures s.messages <= MergeResearcher(s, u).messages
    ensures MergeResearcher(s, u).messages == s.messages + u.messages.GetOr([])
    ensures s.rawNotes <= MergeResearcher(s, u).rawNotes
    ensures MergeResearcher(s, u).rawNotes == s.rawNotes + u.rawNotes.GetOr([])
  {
  }

  /** The scalar fields take the written value, or keep the old one. */
  lemma MergeResearcherOverwrites(s: ResearcherState, u: ResearcherUpdate)
    ensures MergeResearcher(s, u).researchTopic == u.researchTopic.GetOr(s.researchTopic)
    ensures MergeResearcher(s, u).compressedResearch == u.compressedResearch.GetOr(s.compressedResearch)
    ensures MergeResearcher(s, u).toolCallIterations == u.toolCallIterations.GetOr(s.toolCallIterations)
  {
  }
}
