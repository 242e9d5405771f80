/**
 * The knowledge-extraction branch (src/nodes/context_pruning_node.py): turn the raw-notes
 * buffer into facts for the knowledge base.
 */
module ContextPruningNode {
  import opened Wrappers
  import opened Text
  import opened Messages
  import opened SupervisorStates

  /** The character budget of the notes placed in the extraction prompt. */
  const MaxPrunedChars: nat := 20000

  const PrunedPrefix := "[SYSTEM] Context Pruned. "
  const PrunedSuffix := " new facts added to Knowledge Base. Raw notes buffer cleared."
  const PruningFailedPrefix := "[SYSTEM] Context Pruning failed: "

  /** What the structured extraction call produced: the facts, or the text of the exception. */
  datatype ExtractionOutcome = Extracted(newFacts: seq<Fact>) | ExtractionFailed(error: string)

  /** The notes text the prompt embeds: `"\n".join(raw_notes)[:20000]`. */
  function PromptNotes(rawNotes: seq<string>): (r: string)
    ensures |r| <= MaxPrunedChars
    ensures |r| <= |Join("\n", rawNotes)| && r == Join("\n", rawNotes)[..|r|]
    ensures |Join("\n", rawNotes)| <= MaxPrunedChars ==> r == Join("\n", rawNotes)
  {
    Truncate(Join("\n", rawNotes), MaxPrunedChars)
  }

  function SuccessMessage(count: nat): string
  {
    PrunedPrefix + IntToString(count) + PrunedSuffix
  }

  function FailureMessage(error: string): string
  {
    PruningFailedPrefix + error
  }

  /**
   * `context_pruning_node`. `extract` stands for the extraction model, applied to the
   * prompt's notes text; its failures are caught and logged, never propagated.
   */
  function ContextPruning(rawNotes: seq<string>, extract: string -> ExtractionOutcome): (u: Update)
    // the empty-buffer gate
    ensures rawNotes == [] ==> u == NoUpdate
    // otherwise raw_notes is written as [], the facts go to the knowledge base, one system message
    ensures rawNotes != [] ==> Keys(u) == {RawNotesKey, KnowledgeBaseKey, MessagesKey}
    ensures rawNotes != [] ==> u.rawNotes == Some([])
    ensures rawNotes != [] ==> u.messages.Some? && |u.messages.value| == 1 && u.messages.value[0].SystemMessage?
    ensures rawNotes != [] ==>
      match extract(PromptNotes(rawNotes))
      case Extracted(facts) =>
        u.knowledgeBase == Some(facts) && u.messages.value[0].content == SuccessMessage(|facts|)
      case ExtractionFailed(e) =>
        u.knowledgeBase == Some([]) && u.messages.value[0].content == FailureMessage(e)
  {
    if rawNotes == [] then NoUpdate
    else
      var outcome := extract(PromptNotes(rawNotes));
      var newFacts := if outcome.Extracted? then outcome.newFacts else [];
      var message := if outcome.Extracted? then SuccessMessage(|newFacts|) else FailureMessage(outcome.error);
      var u := NoUpdate.(
        rawNotes := Some([]),
        knowledgeBase := Some(newFacts),
        messages := Some([SystemMessage(message)]));
      assert Keys(u) == {RawNotesKey, KnowledgeBaseKey, MessagesKey} by {
        forall k: Key ensures k in Keys(u) <==> k in {RawNotesKey, KnowledgeBaseKey, MessagesKey} { }
      }
      u
  }

  /** A failed extraction is reported in a message that starts with the failure prefix. */
  lemma FailureIsLogged(rawNotes: seq<string>, extract: string -> ExtractionOutcome)
    requires rawNotes != [] && extract(PromptNotes(rawNotes)).ExtractionFailed?
    ensures ContextPruning(rawNotes, extract).knowledgeBase == Some([])
    ensures var m := ContextPruning(rawNotes, extract).messages.value[0].content;
      |m| >= |PruningFailedPrefix| && m[..|PruningFailedPrefix|] == PruningFailedPrefix
  {
  }

  /** Only the first 20000 characters of the joined notes can influence the update. */
  lemma OnlyPromptNotesMatter(a: seq<string>, b: seq<string>, extract: string -> ExtractionOutcome)
    requires a != [] && b != []
    requires PromptNotes(a) == PromptNotes(b)
    ensures ContextPruning(a, extract) == ContextPruning(b, extract)
  {
  }

  /**
   * Once the joined notes fill the prompt's 20000 characters, notes appended later never
   * reach the extractor: the update is the one for the earlier notes alone.
   */
  lemma LaterNotesUnseen(a: seq<string>, b: seq<string>, extract: string -> ExtractionOutcome)
    requires |Join("\n", a)| >= MaxPrunedChars
    ensures ContextPruning(a + b, extract) == ContextPruning(a, extract)
  {
    assert a != [];
    JoinExtends("\n", a, b);
    assert PromptNotes(a + b) == Join("\n", a + b)[..MaxPrunedChars] == Join("\n", a)[..MaxPrunedChars] == PromptNotes(a);
    OnlyPromptNotesMatter(a + b, a, extract);
  }

  /** The branch never writes the draft, the critiques, the counter, the brief or the history of scores. */
  lemma PruningLeavesOtherFields(rawNotes: seq<string>, extract: string -> ExtractionOutcome)
    ensures Keys(ContextPruning(rawNotes, extract)) <= {RawNotesKey, KnowledgeBaseKey, MessagesKey}
    ensures var u := ContextPruning(rawNotes, extract);
      u.draftReport.None? && u.activeCritiques.None? && u.researchIterations.None? && u.researchBrief.None?
      && u.qualityHistory.None? && u.needsQualityRepair.None?
  {
  }

  /**
   * Merging the branch's update leaves the notes buffer as it was (`[]` appends nothing)
   * and appends exactly the extracted facts to the knowledge base.
   */
  lemma PruningKeepsBuffer(s: SupervisorState, extract: string -> ExtractionOutcome)
    requires s.rawNotes != []
    ensures Merge(s, ContextPruning(s.rawNotes, extract)).rawNotes == s.rawNotes
    ensures Merge(s, ContextPruning(s.rawNotes, extract)).knowledgeBase ==
      s.knowledgeBase + (match extract(PromptNotes(s.rawNotes)) case Extracted(fs) => fs case ExtractionFailed(_) => [])
  {
    MergeEmptyRawNotes(s, ContextPruning(s.rawNotes, extract));
  }
}
