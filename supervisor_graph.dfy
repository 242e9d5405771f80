/**
 * The supervisor's denoising loop (src/graphs/supervisor_graph.py): `supervisor`, then
 * `supervisor_tools`, which either ends the loop or fans out to `red_team` and
 * `context_pruner`; both correction branches return to `supervisor`.
 */
module SupervisorGraph {
  import opened Wrappers
  import opened Messages
  import opened SupervisorStates
  import opened SupervisorNode
  import opened RedTeamNode
  import opened ContextPruningNode
  import opened GraphEngine
  import opened ToolDefinitions
  import Text
  import ResearcherNode
  import ResearcherGraph

  const Nodes: set<string> := {SupervisorNodeName, SupervisorToolsNodeName, RedTeamNodeName, ContextPrunerNodeName}

  /** The static edges; `supervisor_tools` has none, its Command chooses its successors. */
  const Edges: set<Edge> := {
    Edge(Start, SupervisorNodeName),
    Edge(SupervisorNodeName, SupervisorToolsNodeName),
    Edge(RedTeamNodeName, SupervisorNodeName),
    Edge(ContextPrunerNodeName, SupervisorNodeName)
  }

  /** The loop is entered at `supervisor`, which is always followed by `supervisor_tools`. */
  lemma EntryAndPlanEdges()
    ensures StaticSuccessors(Edges, Start) == {SupervisorNodeName}
    ensures StaticSuccessors(Edges, SupervisorNodeName) == {SupervisorToolsNodeName}
  {
    assert Edge(Start, SupervisorNodeName) in Edges;
    assert Edge(SupervisorNodeName, SupervisorToolsNodeName) in Edges;
  }

  /** Both correction branches return to `supervisor`. */
  lemma CorrectionsReturn()
    ensures StaticSuccessors(Edges, RedTeamNodeName) == {SupervisorNodeName}
    ensures StaticSuccessors(Edges, ContextPrunerNodeName) == {SupervisorNodeName}
  {
    assert Edge(RedTeamNodeName, SupervisorNodeName) in Edges;
    assert Edge(ContextPrunerNodeName, SupervisorNodeName) in Edges;
  }

  /**
   * `supervisor_tools` has no static edge: its successors are its Command's, which are
   * END on exit and both correction branches otherwise; no static edge reaches END.
   */
  lemma ToolsRoutesByCommand(s: SupervisorState, o: ToolOracles)
    ensures StaticSuccessors(Edges, SupervisorToolsNodeName) == {}
    ensures forall e :: e in Edges ==> e.to != End
    ensures var r := SupervisorToolsResult(s, o);
      r.Ok? ==> (End in Goto(r.value) <==> r.value.Exit?)
    ensures var r := SupervisorToolsResult(s, o);
      r.Ok? ==> Goto(r.value) == if r.value.Exit? then [End] else [RedTeamNodeName, ContextPrunerNodeName]
  {
    if FansOut(s, o) {
      FanOutTargetsAndKeys(s, o);
    }
  }

  /**
   * What one round of the loop consults: the supervisor's prompt and model, the tools'
   * collaborators, the critic's answer for a draft, the extraction model, and the order
   * in which the engine merges the two correction branches.
   */
  datatype CycleInputs = CycleInputs(
    systemPrompt: string,
    model: seq<Message> -> Message,
    tools: ToolOracles,
    critic: string -> string,
    extract: string -> ExtractionOutcome,
    prunerFirst: bool)

  datatype CycleOutcome =
    | Continue(next: SupervisorState)
    | Done(final: SupervisorState, notes: seq<string>)
    | Crashed(error: PyError)

  /** The state after `supervisor` has run and its update has been merged. */
  function AfterSupervisor(s: SupervisorState, inputs: CycleInputs): SupervisorState
  {
    Merge(s, SupervisorUpdate(s, inputs.model(SupervisorContext(s, inputs.systemPrompt))))
  }

  /** Both correction branches read the same state; their updates are merged in either order. */
  function Corrections(s: SupervisorState, inputs: CycleInputs): SupervisorState
  {
    var red := RedTeam(s.draftReport, inputs.critic(s.draftReport));
    var pruned := ContextPruning(s.rawNotes, inputs.extract);
    if inputs.prunerFirst then Merge(Merge(s, pruned), red) else Merge(Merge(s, red), pruned)
  }

  /** One round: plan, act, and either stop or run the corrections. */
  function Cycle(s: SupervisorState, inputs: CycleInputs): CycleOutcome
  {
    var s1 := AfterSupervisor(s, inputs);
    match SupervisorToolsResult(s1, inputs.tools)
    case Err(e) => Crashed(e)
    case Ok(Exit(notes, brief)) => Done(Merge(s1, NoUpdate.(researchBrief := Some(brief))), notes)
    case Ok(FanOut(_, u)) => Continue(Corrections(Merge(s1, u), inputs))
  }

  /** The update `supervisor_tools` returns in a round that fans out. */
  function ToolsUpdate(s: SupervisorState, inputs: CycleInputs): Update
    requires FansOut(AfterSupervisor(s, inputs), inputs.tools)
  {
    SupervisorToolsResult(AfterSupervisor(s, inputs), inputs.tools).value.update
  }

  /** A round that does not stop went through the fan-out, whose update leaves these fields alone. */
  lemma CycleStep(s: SupervisorState, inputs: CycleInputs)
    requires Cycle(s, inputs).Continue?
    ensures FansOut(AfterSupervisor(s, inputs), inputs.tools)
    ensures Cycle(s, inputs).next == Corrections(Merge(AfterSupervisor(s, inputs), ToolsUpdate(s, inputs)), inputs)
    ensures var u := ToolsUpdate(s, inputs);
      u.researchIterations.None? && u.activeCritiques.None? && u.knowledgeBase.None? && u.researchBrief.None?
  {
    var s1 := AfterSupervisor(s, inputs);
    var r := SupervisorToolsResult(s1, inputs.tools);
    assert r.Ok? && r.value.FanOut?;
    FanOutLeavesFields(s1, inputs.tools);
  }

  lemma FanOutLeavesFields(s: SupervisorState, o: ToolOracles)
    requires FansOut(s, o)
    ensures var u := SupervisorToolsResult(s, o).value.update;
      u.researchIterations.None? && u.activeCritiques.None? && u.knowledgeBase.None? && u.researchBrief.None?
  {
    FanOutTargetsAndKeys(s, o);
    var u := SupervisorToolsResult(s, o).value.update;
    assert !Writes(u, ResearchIterationsKey) && !Writes(u, ActiveCritiquesKey);
    assert !Writes(u, KnowledgeBaseKey) && !Writes(u, ResearchBriefKey);
  }

  /** A round that does not stop advances the counter by one and leaves it below the cap. */
  lemma CycleAdvances(s: SupervisorState, inputs: CycleInputs)
    requires Cycle(s, inputs).Continue?
    ensures Cycle(s, inputs).next.researchIterations == s.researchIterations + 1
    ensures s.researchIterations + 1 < MaxResearcherIterations
  {
    var s1 := AfterSupervisor(s, inputs);
    CycleStep(s, inputs);
    ToolsExitIff(s1, inputs.tools);
    CorrectionsEffect(Merge(s1, ToolsUpdate(s, inputs)), inputs);
  }

  /** The rounds left before the counter reaches its cap. */
  function Budget(s: SupervisorState): nat
  {
    if s.researchIterations < MaxResearcherIterations then MaxResearcherIterations - s.researchIterations else 0
  }

  datatype LoopOutcome =
    | Completed(final: SupervisorState, notes: seq<string>, rounds: nat)
    | Failed(error: PyError)

  /** The loop from `supervisor`; `inputs(k)` are the collaborators of round k. */
  function Run(s: SupervisorState, inputs: nat -> CycleInputs, round: nat): LoopOutcome
    decreases Budget(s)
  {
    match Cycle(s, inputs(round))
    case Crashed(e) => Failed(e)
    case Done(final, notes) => Completed(final, notes, 1)
    case Continue(next) =>
      CycleAdvances(s, inputs(round));
      match Run(next, inputs, round + 1)
      case Failed(e) => Failed(e)
      case Completed(final, notes, rounds) => Completed(final, notes, rounds + 1)
  }

  /**
   * The loop always stops: after at most five rounds from a fresh counter (one round once
   * the counter is at four or more), with the counter advanced once per round.
   */
  lemma {:induction false} RunIsBounded(s: SupervisorState, inputs: nat -> CycleInputs, round: nat)
    requires Run(s, inputs, round).Completed?
    ensures var out := Run(s, inputs, round);
      && out.final.researchIterations == s.researchIterations + out.rounds
      && 1 <= out.rounds <= (if s.researchIterations < MaxResearcherIterations - 1 then MaxResearcherIterations - s.researchIterations else 1)
    decreases Budget(s)
  {
    match Cycle(s, inputs(round))
    case Done(final, notes) =>
    case Continue(next) =>
      CycleAdvances(s, inputs(round));
      RunIsBounded(next, inputs, round + 1);
  }

  /** Every list field of `t` extends the same field of `s`. */
  predicate Extends(s: SupervisorState, t: SupervisorState)
  {
    && s.messages <= t.messages
    && s.rawNotes <= t.rawNotes
    && s.knowledgeBase <= t.knowledgeBase
    && s.activeCritiques <= t.activeCritiques
    && s.qualityHistory <= t.qualityHistory
  }

  lemma MergeExtends(s: SupervisorState, u: Update)
    ensures Extends(s, Merge(s, u))
  {
    MergeConcatenates(s, u);
  }

  lemma ExtendsTransitive(a: SupervisorState, b: SupervisorState, c: SupervisorState)
    requires Extends(a, b) && Extends(b, c)
    ensures Extends(a, c)
  {
  }

  /** The list fields only grow within a round; in particular the notes buffer is never emptied. */
  lemma CycleAppendOnly(s: SupervisorState, inputs: CycleInputs)
    requires !Cycle(s, inputs).Crashed?
    ensures Extends(s, if Cycle(s, inputs).Continue? then Cycle(s, inputs).next else Cycle(s, inputs).final)
  {
    var s1 := AfterSupervisor(s, inputs);
    MergeExtends(s, SupervisorUpdate(s, inputs.model(SupervisorContext(s, inputs.systemPrompt))));
    if Cycle(s, inputs).Continue? {
      CycleStep(s, inputs);
      var s2 := Merge(s1, ToolsUpdate(s, inputs));
      MergeExtends(s1, ToolsUpdate(s, inputs));
      var red := RedTeam(s2.draftReport, inputs.critic(s2.draftReport));
      var pruned := ContextPruning(s2.rawNotes, inputs.extract);
      MergeExtends(s2, red);
      MergeExtends(s2, pruned);
      MergeExtends(Merge(s2, red), pruned);
      MergeExtends(Merge(s2, pruned), red);
      ExtendsTransitive(s2, Merge(s2, red), Merge(Merge(s2, red), pruned));
      ExtendsTransitive(s2, Merge(s2, pruned), Merge(Merge(s2, pruned), red));
      ExtendsTransitive(s1, s2, Corrections(s2, inputs));
      ExtendsTransitive(s, s1, Corrections(s2, inputs));
    } else {
      MergeExtends(s1, NoUpdate.(researchBrief := Some(SupervisorToolsResult(s1, inputs.tools).value.researchBrief)));
    }
  }

  /** Over the whole loop the history, the notes, the facts, the critiques and the scores only grow. */
  lemma {:induction false} RunAppendOnly(s: SupervisorState, inputs: nat -> CycleInputs, round: nat)
    requires Run(s, inputs, round).Completed?
    ensures Extends(s, Run(s, inputs, round).final)
    decreases Budget(s)
  {
    CycleAppendOnly(s, inputs(round));
    match Cycle(s, inputs(round))
    case Done(final, notes) =>
    case Continue(next) =>
      CycleAdvances(s, inputs(round));
      RunAppendOnly(next, inputs, round + 1);
      ExtendsTransitive(s, next, Run(next, inputs, round + 1).final);
  }

  /**
   * After the corrections the notes buffer is exactly what the pruner saw (its `[]` clears
   * nothing), the knowledge base holds the extracted facts, and the critiques list holds
   * the red team's one critique when there is one.
   */
  lemma CorrectionsEffect(s: SupervisorState, inputs: CycleInputs)
    ensures Corrections(s, inputs).rawNotes == s.rawNotes
    ensures Corrections(s, inputs).knowledgeBase ==
      s.knowledgeBase + ContextPruning(s.rawNotes, inputs.extract).knowledgeBase.GetOr([])
    ensures Corrections(s, inputs).activeCritiques ==
      s.activeCritiques + RedTeam(s.draftReport, inputs.critic(s.draftReport)).activeCritiques.GetOr([])
    ensures Corrections(s, inputs).draftReport == s.draftReport
    ensures Corrections(s, inputs).researchIterations == s.researchIterations
    ensures Corrections(s, inputs).needsQualityRepair == s.needsQualityRepair
  {
    var red := RedTeam(s.draftReport, inputs.critic(s.draftReport));
    var pruned := ContextPruning(s.rawNotes, inputs.extract);
    PruningLeavesOtherFields(s.rawNotes, inputs.extract);
    RedTeamWritesOnlyCritiquesAndMessages(s.draftReport, inputs.critic(s.draftReport));
    if s.rawNotes != [] {
      assert pruned.rawNotes == Some([]);
    }
  }

  /**
   * The merge order of the two correction branches changes only the order of their two
   * messages in the history.
   */
  lemma CorrectionOrderIrrelevant(s: SupervisorState, inputs: CycleInputs)
    ensures Corrections(s, inputs.(prunerFirst := true)).(messages := []) ==
            Corrections(s, inputs.(prunerFirst := false)).(messages := [])
    ensures var red := RedTeam(s.draftReport, inputs.critic(s.draftReport)).messages.GetOr([]);
      var pruned := ContextPruning(s.rawNotes, inputs.extract).messages.GetOr([]);
      && Corrections(s, inputs.(prunerFirst := true)).messages == s.messages + pruned + red
      && Corrections(s, inputs.(prunerFirst := false)).messages == s.messages + red + pruned
  {
    var red := RedTeam(s.draftReport, inputs.critic(s.draftReport));
    var pruned := ContextPruning(s.rawNotes, inputs.extract);
    PruningLeavesOtherFields(s.rawNotes, inputs.extract);
    RedTeamWritesOnlyCritiquesAndMessages(s.draftReport, inputs.critic(s.draftReport));
    assert Keys(pruned) * Keys(red) <= {MessagesKey};
    MergeOrderIrrelevant(s, pruned, red);
  }

  /**
   * The repair flag survives the round exactly when some refine call of that round scored
   * below 7; the next supervisor context then ends with the warning, and the next
   * `supervisor` clears the flag again.
   */
  lemma LowScoreWarnsOnce(s: SupervisorState, inputs: CycleInputs, nextInputs: CycleInputs)
    requires Cycle(s, inputs).Continue?
    ensures var s1 := AfterSupervisor(s, inputs);
      var refine := CallsNamed(DecisionCalls(s1), RefineDraftReportName);
      Cycle(s, inputs).next.needsQualityRepair <==>
        exists k :: 0 <= k < |refine| &&
          Evaluation(s1, inputs.tools, k).comprehensivenessScore + Evaluation(s1, inputs.tools, k).accuracyScore < 14
    ensures var next := Cycle(s, inputs).next;
      var context := SupervisorContext(next, nextInputs.systemPrompt);
      next.needsQualityRepair ==> context[|context| - 1] == SystemMessage(LowQualityWarning)
    ensures !AfterSupervisor(Cycle(s, inputs).next, nextInputs).needsQualityRepair
  {
    var s1 := AfterSupervisor(s, inputs);
    CycleStep(s, inputs);
    QualityBookkeeping(s1, inputs.tools);
    CorrectionsEffect(Merge(s1, ToolsUpdate(s, inputs)), inputs);
  }

  /**
   * No node marks a critique addressed, so every unaddressed critique stays unaddressed,
   * and the intervention is injected in every later round.
   */
  lemma CritiquesPersist(s: SupervisorState, inputs: CycleInputs)
    requires Cycle(s, inputs).Continue?
    ensures Unaddressed(s.activeCritiques) <= Unaddressed(Cycle(s, inputs).next.activeCritiques)
    ensures HasUnaddressed(s) ==> HasUnaddressed(Cycle(s, inputs).next)
  {
    var s1 := AfterSupervisor(s, inputs);
    CycleStep(s, inputs);
    var s2 := Merge(s1, ToolsUpdate(s, inputs));
    assert s2.activeCritiques == s.activeCritiques;
    CorrectionsEffect(s2, inputs);
    var added := RedTeam(s2.draftReport, inputs.critic(s2.draftReport)).activeCritiques.GetOr([]);
    UnaddressedConcat(s.activeCritiques, added);
  }

  /**
   * A research sub-graph that finishes from the input `ConductResearch` builds hands
   * back exactly one raw note, the join of its tool and model contents, and a history that
   * starts with the topic.
   */
  lemma ResearchGivesOneNote(topic: string, o: ResearcherGraph.RunOracles, fuel: nat)
    requires ResearcherGraph.Run(ResearchInput(topic), o, 0, fuel).Finished?
    ensures var out := ResearcherGraph.Run(ResearchInput(topic), o, 0, fuel).output;
      && out.rawNotes == [Text.Join("\n", ResearcherNode.ResearchNotes(out.messages))]
      && |out.messages| >= 1 && out.messages[0] == HumanMessage(topic)
  {
    ResearcherGraph.FinishedRunNotes(ResearchInput(topic), o, 0, fuel);
  }
}
