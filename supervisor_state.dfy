/**
 * The supervisor's shared state (src/states/supervisor_state.py): its records and the
 * reducer each field of `SupervisorState` declares.
 */
module SupervisorStates {
  import opened Wrappers
  import opened Messages

  /** An extracted fact. `confidenceScore` is a plain int: the 1-100 range is only described. */
  datatype Fact = Fact(content: string, sourceUrl: string, confidenceScore: int, isDisputed: bool)

  /** A critique of the draft; nothing in the modelled code ever sets `addressed`. */
  datatype Critique = Critique(author: string, concern: string, severity: int, addressed: bool)

  /** One quality-gate record; `score` holds the float `(comprehensiveness + accuracy) / 2` exactly. */
  datatype QualityMetric = QualityMetric(score: real, feedback: string, iteration: int)

  /** The judge's structured verdict on a draft. */
  datatype EvaluationResult = EvaluationResult(
    comprehensivenessScore: int,
    accuracyScore: int,
    coherenceScore: int,
    specificCritique: string)

  /** `Critique(author=..., concern=..., severity=...)`, `addressed` left at its default. */
  function NewCritique(author: string, concern: string, severity: int): (c: Critique)
    ensures !c.addressed
    ensures c.author == author && c.concern == concern && c.severity == severity
  {
    Critique(author, concern, severity, false)
  }

  /**
   * The supervisor's state. A key the TypedDict does not yet hold is represented by the
   * default its readers use with `state.get` (empty list, empty string, 0, False).
   */
  datatype SupervisorState = SupervisorState(
    messages: seq<Message>,
    researchBrief: string,
    draftReport: string,
    rawNotes: seq<string>,
    knowledgeBase: seq<Fact>,
    researchIterations: int,
    activeCritiques: seq<Critique>,
    qualityHistory: seq<QualityMetric>,
    needsQualityRepair: bool)

  /** A node's partial update: `None` means the returned dict has no such key. */
  datatype Update = Update(
    messages: Option<seq<Message>>,
    researchBrief: Option<string>,
    draftReport: Option<string>,
    rawNotes: Option<seq<string>>,
    knowledgeBase: Option<seq<Fact>>,
    researchIterations: Option<int>,
    activeCritiques: Option<seq<Critique>>,
    qualityHistory: Option<seq<QualityMetric>>,
    needsQualityRepair: Option<bool>)

  /** The empty dict `{}`. */
  const NoUpdate := Update(None, None, None, None, None, None, None, None, None)

  /** The keys of `SupervisorState`, as named in the source. */
  datatype Key =
    | MessagesKey           // supervisor_messages
    | ResearchBriefKey      // research_brief
    | DraftReportKey        // draft_report
    | RawNotesKey           // raw_notes
    | KnowledgeBaseKey      // knowledge_base
    | ResearchIterationsKey // research_iterations
    | ActiveCritiquesKey    // active_critiques
    | QualityHistoryKey     // quality_history
    | NeedsQualityRepairKey // needs_quality_repair

  /** Whether the update's dict holds key `k`. */
  predicate Writes(u: Update, k: Key)
  {
    match k
    case MessagesKey => u.messages.Some?
    case ResearchBriefKey => u.researchBrief.Some?
    case DraftReportKey => u.draftReport.Some?
    case RawNotesKey => u.rawNotes.Some?
    case KnowledgeBaseKey => u.knowledgeBase.Some?
    case ResearchIterationsKey => u.researchIterations.Some?
    case ActiveCritiquesKey => u.activeCritiques.Some?
    case QualityHistoryKey => u.qualityHistory.Some?
    case NeedsQualityRepairKey => u.needsQualityRepair.Some?
  }

  /** The keys an update writes. */
  function Keys(u: Update): set<Key>
  {
    set k: Key | Writes(u, k)
  }

  /** The `operator.add` reducer (and `add_messages`, modelled as plain append). */
  function Concat<T>(current: seq<T>, write: Option<seq<T>>): seq<T>
  {
    match write
    case None => current
    case Some(xs) => current + xs
  }

  /** A field without a reducer: the written value replaces the old one. */
  function Overwrite<T>(current: T, write: Option<T>): T
  {
    match write
    case None => current
    case Some(x) => x
  }

  /** Applies a node's update to the state, field by field, with the declared reducers. */
  function Merge(s: SupervisorState, u: Update): SupervisorState
  {
    SupervisorState(
      messages := Concat(s.messages, u.messages),
      researchBrief := Overwrite(s.researchBrief, u.researchBrief),
      draftReport := Overwrite(s.draftReport, u.draftReport),
      rawNotes := Concat(s.rawNotes, u.rawNotes),
      knowledgeBase := Concat(s.knowledgeBase, u.knowledgeBase),
      researchIterations := Overwrite(s.researchIterations, u.researchIterations),
      activeCritiques := Concat(s.activeCritiques, u.activeCritiques),
      qualityHistory := Concat(s.qualityHistory, u.qualityHistory),
      needsQualityRepair := Overwrite(s.needsQualityRepair, u.needsQualityRepair))
  }

  // The next four lemmas declare the reducers field by field, as the proofs use them;
  // what follows from them is stated by MergeNeverShrinks, MergeEmptyRawNotes and
  // MergeOrderIrrelevant here, and by the append-only and correction lemmas of the graph.

  /** The four list fields merge by concatenation: each old list is a prefix of the new one. */
  lemma MergeConcatenates(s: SupervisorState, u: Update)
    ensures Merge(s, u).rawNotes == s.rawNotes + u.rawNotes.GetOr([])
    ensures Merge(s, u).knowledgeBase == s.knowledgeBase + u.knowledgeBase.GetOr([])
    ensures Merge(s, u).activeCritiques == s.activeCritiques + u.activeCritiques.GetOr([])
    ensures Merge(s, u).qualityHistory == s.qualityHistory + u.qualityHistory.GetOr([])
  {
  }

  /** Hence none of those lists ever gets shorter, whatever the update. */
  lemma MergeNeverShrinks(s: SupervisorState, u: Update)
    ensures s.rawNotes <= Merge(s, u).rawNotes && |s.rawNotes| <= |Merge(s, u).rawNotes|
    ensures s.knowledgeBase <= Merge(s, u).knowledgeBase && |s.knowledgeBase| <= |Merge(s, u).knowledgeBase|
    ensures s.activeCritiques <= Merge(s, u).activeCritiques && |s.activeCritiques| <= |Merge(s, u).activeCritiques|
    ensures s.qualityHistory <= Merge(s, u).qualityHistory && |s.qualityHistory| <= |Merge(s, u).qualityHistory|
  {
    MergeConcatenates(s, u);
  }

  /** Writing `[]` to `raw_notes` appends nothing: it does not clear the buffer. */
  lemma MergeEmptyRawNotes(s: SupervisorState, u: Update)
    requires u.rawNotes == Some([])
    ensures Merge(s, u).rawNotes == s.rawNotes
  {
    assert s.rawNotes + [] == s.rawNotes;
  }

  /** Fields without a reducer take the written value, or keep the old one when unwritten. */
  lemma MergeOverwrites(s: SupervisorState, u: Update)
    ensures Merge(s, u).researchBrief == u.researchBrief.GetOr(s.researchBrief)
    ensures Merge(s, u).draftReport == u.draftReport.GetOr(s.draftReport)
    ensures Merge(s, u).researchIterations == u.researchIterations.GetOr(s.researchIterations)
    ensures Merge(s, u).needsQualityRepair == u.needsQualityRepair.GetOr(s.needsQualityRepair)
  {
  }

  /** Messages are appended after the history. */
  lemma MergeAppendsMessages(s: SupervisorState, u: Update)
    ensures Merge(s, u).messages == s.messages + u.messages.GetOr([])
  {
  }

  /** The empty dict changes nothing. */
  lemma MergeNoUpdate(s: SupervisorState)
    ensures Merge(s, NoUpdate) == s
  {
  }

  /** No field other than the message list is written by both updates. */
  predicate WritesDisjoint(a: Update, b: Update)
  {
    && !(a.researchBrief.Some? && b.researchBrief.Some?)
    && !(a.draftReport.Some? && b.draftReport.Some?)
    && !(a.rawNotes.Some? && b.rawNotes.Some?)
    && !(a.knowledgeBase.Some? && b.knowledgeBase.Some?)
    && !(a.researchIterations.Some? && b.researchIterations.Some?)
    && !(a.activeCritiques.Some? && b.activeCritiques.Some?)
    && !(a.qualityHistory.Some? && b.qualityHistory.Some?)
    && !(a.needsQualityRepair.Some? && b.needsQualityRepair.Some?)
  }

  lemma KeysDisjoint(a: Update, b: Update)
    requires Keys(a) * Keys(b) <= {MessagesKey}
    ensures WritesDisjoint(a, b)
  {
    forall k: Key | k != MessagesKey ensures !(Writes(a, k) && Writes(b, k)) {
      assert k in Keys(a) * Keys(b) ==> k == MessagesKey;
    }
    assert !(Writes(a, ResearchBriefKey) && Writes(b, ResearchBriefKey));
    assert !(Writes(a, DraftReportKey) && Writes(b, DraftReportKey));
    assert !(Writes(a, RawNotesKey) && Writes(b, RawNotesKey));
    assert !(Writes(a, KnowledgeBaseKey) && Writes(b, KnowledgeBaseKey));
    assert !(Writes(a, ResearchIterationsKey) && Writes(b, ResearchIterationsKey));
    assert !(Writes(a, ActiveCritiquesKey) && Writes(b, ActiveCritiquesKey));
    assert !(Writes(a, QualityHistoryKey) && Writes(b, QualityHistoryKey));
    assert !(Writes(a, NeedsQualityRepairKey) && Writes(b, NeedsQualityRepairKey));
  }

  /**
   * Two updates that share no key except the message list give the same state
   * in either merge order, apart from the order of their messages.
   */
  lemma MergeOrderIrrelevant(s: SupervisorState, a: Update, b: Update)
    requires Keys(a) * Keys(b) <= {MessagesKey}
    ensures Merge(Merge(s, a), b).(messages := []) == Merge(Merge(s, b), a).(messages := [])
    ensures Merge(Merge(s, a), b).messages == s.messages + a.messages.GetOr([]) + b.messages.GetOr([])
    ensures Merge(Merge(s, b), a).messages == s.messages + b.messages.GetOr([]) + a.messages.GetOr([])
  {
    KeysDisjoint(a, b);
    var ab, ba := Merge(Merge(s, a), b), Merge(Merge(s, b), a);
    assert ab.rawNotes == ba.rawNotes by { ConcatCommutes(s.rawNotes, a.rawNotes, b.rawNotes); }
    assert ab.knowledgeBase == ba.knowledgeBase by { ConcatCommutes(s.knowledgeBase, a.knowledgeBase, b.knowledgeBase); }
    assert ab.activeCritiques == ba.activeCritiques by { ConcatCommutes(s.activeCritiques, a.activeCritiques, b.activeCritiques); }
    assert ab.qualityHistory == ba.qualityHistory by { ConcatCommutes(s.qualityHistory, a.qualityHistory, b.qualityHistory); }
  }

  lemma ConcatCommutes<T>(current: seq<T>, x: Option<seq<T>>, y: Option<seq<T>>)
    requires !(x.Some? && y.Some?)
    ensures Concat(Concat(current, x), y) == Concat(Concat(current, y), x)
  {
  }
}
