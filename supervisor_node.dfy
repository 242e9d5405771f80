/**
 * The supervisor's two nodes (src/nodes/supervisor_node.py): `supervisor`, which builds the
 * decision context and records the model's plan, and `supervisor_tools`, which tests for
 * termination, executes the planned tool calls and fans out to the correction branches.
 */
module SupervisorNode {
  import opened Wrappers
  import opened Text
  import opened Messages
  import opened Helpers
  import opened ToolDefinitions
  import opened SupervisorStates
  import opened ResearcherStates
  import opened GraphEngine

  /** Formatted into the system prompt only; nothing bounds the number of research calls by it. */
  const MaxConcurrentResearchers := 3
  const MaxResearcherIterations := 5
  /** The repair threshold on the averaged score. */
  const QualityThreshold: real := 7.0

  const SupervisorNodeName := "supervisor"
  const SupervisorToolsNodeName := "supervisor_tools"
  const RedTeamNodeName := "red_team"
  const ContextPrunerNodeName := "context_pruner"

  // ---------------------------------------------------------------------------
  // `supervisor`: the decision context and the update
  // ---------------------------------------------------------------------------

  /** The critiques not yet marked addressed, in order. */
  function Unaddressed(critiques: seq<Critique>): (r: seq<Critique>)
    ensures |r| <= |critiques|
    ensures forall i :: 0 <= i < |r| ==> !r[i].addressed
  {
    if |critiques| == 0 then []
    else (if !critiques[0].addressed then [critiques[0]] else []) + Unaddressed(critiques[1..])
  }

  /** A single critique is kept exactly when it is not addressed. */
  lemma UnaddressedOfOne(c: Critique)
    ensures Unaddressed([c]) == if c.addressed then [] else [c]
  {
    assert [c][1..] == [];
  }

  lemma {:induction false} UnaddressedConcat(a: seq<Critique>, b: seq<Critique>)
    ensures Unaddressed(a + b) == Unaddressed(a) + Unaddressed(b)
  {
    if |a| > 0 {
      assert (a + b)[0] == a[0];
      assert (a + b)[1..] == a[1..] + b;
      UnaddressedConcat(a[1..], b);
    } else {
      assert a + b == b;
    }
  }

  /** The intervention is injected exactly when some critique is unaddressed. */
  lemma {:induction false} UnaddressedEmptyIff(critiques: seq<Critique>)
    ensures Unaddressed(critiques) == [] <==> forall i :: 0 <= i < |critiques| ==> critiques[i].addressed
  {
    if |critiques| > 0 {
      UnaddressedEmptyIff(critiques[1..]);
      forall i | 1 <= i < |critiques| ensures critiques[i] == critiques[1..][i - 1] { }
    }
  }

  function CritiqueLine(c: Critique): string
  {
    "- " + c.author + " says: " + c.concern
  }

  /** One line per critique, in order. */
  function CritiqueLines(critiques: seq<Critique>): (r: seq<string>)
    ensures |r| == |critiques|
    ensures forall k :: 0 <= k < |r| ==> r[k] == "- " + critiques[k].author + " says: " + critiques[k].concern
  {
    seq(|critiques|, k requires 0 <= k < |critiques| => CritiqueLine(critiques[k]))
  }

  /** The joined lines of the unaddressed critiques. */
  function CritiqueText(critiques: seq<Critique>): string
  {
    Join("\n", CritiqueLines(Unaddressed(critiques)))
  }

  /** The intervention message's text around the critique lines. */
  function Intervention(critiqueText: string): string
  {
    "\n        CRITICAL INTERVENTION REQUIRED.\n" +
    "        The following issues were detected by the Adversarial Team in your draft:\n" +
    "        " + critiqueText + "\n" +
    "        \n" +
    "        You MUST address these issues in your next step.\n" +
    "        If the critique says citations are missing, call 'ConductResearch' to find them.\n" +
    "        If the critique says logic is flawed, call 'think_tool' to plan a fix.\n" +
    "        "
  }

  const LowQualityWarning := "PREVIOUS DRAFT QUALITY WAS LOW (Score < 7/10). Focus on finding new sources and citing them."

  predicate HasUnaddressed(s: SupervisorState)
  {
    Unaddressed(s.activeCritiques) != []
  }

  /**
   * The messages `supervisor` sends to the model: system prompt, history, then the
   * intervention when a critique is unaddressed, then the warning when repair is flagged.
   */
  function SupervisorContext(s: SupervisorState, systemPrompt: string): (r: seq<Message>)
    ensures |r| == |s.messages| + 1 + (if HasUnaddressed(s) then 1 else 0) + (if s.needsQualityRepair then 1 else 0)
    ensures r[..|s.messages| + 1] == [SystemMessage(systemPrompt)] + s.messages
    ensures HasUnaddressed(s) ==> r[|s.messages| + 1] == SystemMessage(Intervention(CritiqueText(s.activeCritiques)))
    ensures s.needsQualityRepair ==> r[|r| - 1] == SystemMessage(LowQualityWarning)
  {
    var base := [SystemMessage(systemPrompt)] + s.messages;
    var intervention := SystemMessage(Intervention(CritiqueText(s.activeCritiques)));
    var withIntervention := if HasUnaddressed(s) then base + [intervention] else base;
    assert |withIntervention| == |base| + (if HasUnaddressed(s) then 1 else 0);
    assert withIntervention[..|base|] == base;
    assert HasUnaddressed(s) ==> withIntervention[|base|] == intervention;
    var r := if s.needsQualityRepair then withIntervention + [SystemMessage(LowQualityWarning)] else withIntervention;
    assert r[..|withIntervention|] == withIntervention;
    assert r[..|base|] == base;
    r
  }

  /** The update of `supervisor`: the response, the incremented counter, the cleared flag. */
  function SupervisorUpdate(s: SupervisorState, response: Message): (u: Update)
    ensures Keys(u) == {MessagesKey, ResearchIterationsKey, NeedsQualityRepairKey}
    ensures u.messages == Some([response])
    ensures u.researchIterations == Some(s.researchIterations + 1)
    ensures u.needsQualityRepair == Some(false)
  {
    var u := NoUpdate.(
      messages := Some([response]),
      researchIterations := Some(s.researchIterations + 1),
      needsQualityRepair := Some(false));
    assert Keys(u) == {MessagesKey, ResearchIterationsKey, NeedsQualityRepairKey} by {
      forall k: Key ensures k in Keys(u) <==> k in {MessagesKey, ResearchIterationsKey, NeedsQualityRepairKey} { }
    }
    u
  }

  /**
   * `supervisor`. The system prompt (which embeds today's date and the two limits) is a
   * parameter; `model` is the tool-bound model, applied to the assembled context.
   */
  method Supervisor(s: SupervisorState, systemPrompt: string, model: seq<Message> -> Message)
    returns (u: Update)
    ensures u == SupervisorUpdate(s, model(SupervisorContext(s, systemPrompt)))
  {
    var messages := [SystemMessage(systemPrompt)] + s.messages;
    var unaddressed := Unaddressed(s.activeCritiques);
    if unaddressed != [] {
      var critiqueText := Join("\n", CritiqueLines(unaddressed));
      messages := messages + [SystemMessage(Intervention(critiqueText))];
    }
    if s.needsQualityRepair {
      messages := messages + [SystemMessage(LowQualityWarning)];
    }
    var response := model(messages);
    u := NoUpdate.(
      messages := Some([response]),
      researchIterations := Some(s.researchIterations + 1),
      needsQualityRepair := Some(false));
  }

  // ---------------------------------------------------------------------------
  // `supervisor_tools`: termination, partitioning, execution, bookkeeping
  // ---------------------------------------------------------------------------

  /** What `refine_draft_report` is invoked with. */
  datatype RefineRequest = RefineRequest(researchBrief: string, findings: string, draftReport: string)

  /**
   * The collaborators `supervisor_tools` calls, indexed by the call's position among the
   * calls of its kind: the research sub-graph, the refine tool and the quality judge.
   */
  datatype ToolOracles = ToolOracles(
    research: (nat, ResearcherState) -> ResearcherOutputState,
    refine: (nat, RefineRequest) -> string,
    judge: (nat, string, string) -> EvaluationResult)

  /** The node's Command: go to END with the final notes, or fan out with an update. */
  datatype ToolsOutcome =
    | Exit(notes: seq<string>, researchBrief: string)
    | FanOut(goto: seq<string>, update: Update)

  /** The successors the Command names. */
  function Goto(outcome: ToolsOutcome): seq<string>
  {
    match outcome
    case Exit(_, _) => [End]
    case FanOut(goto, _) => goto
  }

  predicate HasResearchComplete(calls: seq<ToolCall>)
  {
    exists k | 0 <= k < |calls| :: calls[k].name == ResearchCompleteName
  }

  /** The exit test of `supervisor_tools`. */
  predicate ShouldExit(researchIterations: int, calls: seq<ToolCall>)
  {
    researchIterations >= MaxResearcherIterations || |calls| == 0 || HasResearchComplete(calls)
  }

  function FactNote(f: Fact): string
  {
    f.content + " (Confidence: " + IntToString(f.confidenceScore) + ")"
  }

  /** The notes handed to the writer on exit. */
  function ExitNotes(s: SupervisorState): (r: seq<string>)
    ensures s.knowledgeBase != [] ==>
      |r| == |s.knowledgeBase| && forall k :: 0 <= k < |r| ==> r[k] == FactNote(s.knowledgeBase[k])
    ensures s.knowledgeBase == [] ==> r == GetNotesFromToolCalls(s.messages)
  {
    var kbNotes := seq(|s.knowledgeBase|, k requires 0 <= k < |s.knowledgeBase| => FactNote(s.knowledgeBase[k]));
    if |kbNotes| == 0 then GetNotesFromToolCalls(s.messages) else kbNotes
  }

  /** The calls with the given name, in order. */
  function CallsNamed(calls: seq<ToolCall>, name: string): (r: seq<ToolCall>)
    ensures |r| <= |calls|
    ensures forall i :: 0 <= i < |r| ==> r[i].name == name
  {
    if |calls| == 0 then []
    else (if calls[0].name == name then [calls[0]] else []) + CallsNamed(calls[1..], name)
  }

  lemma {:induction false} CallsNamedConcat(a: seq<ToolCall>, b: seq<ToolCall>, name: string)
    ensures CallsNamed(a + b, name) == CallsNamed(a, name) + CallsNamed(b, name)
  {
    if |a| > 0 {
      assert (a + b)[0] == a[0];
      assert (a + b)[1..] == a[1..] + b;
      CallsNamedConcat(a[1..], b, name);
    } else {
      assert a + b == b;
    }
  }

  lemma CallsNamedOfOne(c: ToolCall, name: string)
    ensures CallsNamed([c], name) == if c.name == name then [c] else []
  {
    assert [c][1..] == [];
  }

  /** The results of the `think_tool` calls, in order; the first invalid call raises. */
  function ThinkMessages(calls: seq<ToolCall>): Result<seq<Message>, PyError>
  {
    if |calls| == 0 then Ok([])
    else
      match ThinkMessages(calls[..|calls| - 1])
      case Err(e) => Err(e)
      case Ok(ms) =>
        var c := calls[|calls| - 1];
        match InvokeThinkTool(c.args)
        case Err(e) => Err(e)
        case Ok(observation) => Ok(ms + [ToolMessage(observation, ThinkToolName, c.id)])
  }

  lemma {:induction false} ThinkMessagesErrPersists(calls: seq<ToolCall>, i: nat, e: PyError)
    requires i <= |calls| && ThinkMessages(calls[..i]) == Err(e)
    ensures ThinkMessages(calls) == Err(e)
    decreases |calls| - i
  {
    if i < |calls| {
      assert calls[..i + 1][..i] == calls[..i];
      ThinkMessagesErrPersists(calls, i + 1, e);
    } else {
      assert calls[..i] == calls;
    }
  }

  /** All think calls succeed exactly when each carries a reflection; then one result per call, in order. */
  lemma {:induction false} ThinkMessagesSpec(calls: seq<ToolCall>)
    ensures ThinkMessages(calls).Ok? <==> forall k :: 0 <= k < |calls| ==> ReflectionArg in calls[k].args
    ensures ThinkMessages(calls).Ok? ==>
      var ms := ThinkMessages(calls).value;
      |ms| == |calls| &&
      forall k :: 0 <= k < |calls| ==>
        ms[k] == ToolMessage(ThinkTool(calls[k].args[ReflectionArg]), ThinkToolName, calls[k].id)
  {
    if |calls| > 0 {
      var init := calls[..|calls| - 1];
      ThinkMessagesSpec(init);
      assert forall k :: 0 <= k < |init| ==> init[k] == calls[k];
    }
  }

  /** The `research_topic` of each research call, in order; a missing one raises KeyError. */
  function ResearchTopics(calls: seq<ToolCall>): Result<seq<string>, PyError>
  {
    if |calls| == 0 then Ok([])
    else
      match ResearchTopics(calls[..|calls| - 1])
      case Err(e) => Err(e)
      case Ok(ts) =>
        match ResearchTopicOf(calls[|calls| - 1].args)
        case Err(e) => Err(e)
        case Ok(t) => Ok(ts + [t])
  }

  lemma {:induction false} ResearchTopicsErrPersists(calls: seq<ToolCall>, i: nat, e: PyError)
    requires i <= |calls| && ResearchTopics(calls[..i]) == Err(e)
    ensures ResearchTopics(calls) == Err(e)
    decreases |calls| - i
  {
    if i < |calls| {
      assert calls[..i + 1][..i] == calls[..i];
      ResearchTopicsErrPersists(calls, i + 1, e);
    } else {
      assert calls[..i] == calls;
    }
  }

  lemma {:induction false} ResearchTopicsSpec(calls: seq<ToolCall>)
    ensures ResearchTopics(calls).Ok? <==> forall k :: 0 <= k < |calls| ==> ResearchTopicArg in calls[k].args
    ensures ResearchTopics(calls).Ok? ==>
      var ts := ResearchTopics(calls).value;
      |ts| == |calls| && forall k :: 0 <= k < |calls| ==> ts[k] == calls[k].args[ResearchTopicArg]
  {
    if |calls| > 0 {
      var init := calls[..|calls| - 1];
      ResearchTopicsSpec(init);
      assert forall k :: 0 <= k < |init| ==> init[k] == calls[k];
    }
  }

  /** The input of one research sub-graph: the topic is both the opening human message and the topic. */
  function ResearchInput(topic: string): (r: ResearcherState)
    ensures r.messages == [HumanMessage(topic)] && r.researchTopic == topic
    ensures r.rawNotes == [] && r.compressedResearch == ""
  {
    ResearcherState([HumanMessage(topic)], 0, topic, "", [])
  }

  /** `asyncio.gather` over one sub-graph per topic: the outputs, in call order. */
  function ResearchResults(topics: seq<string>, o: ToolOracles): (r: seq<ResearcherOutputState>)
    ensures |r| == |topics|
    ensures forall k :: 0 <= k < |topics| ==> r[k] == o.research(k, ResearchInput(topics[k]))
  {
    seq(|topics|, k requires 0 <= k < |topics| => o.research(k, ResearchInput(topics[k])))
  }

  /** One tool result per research call, carrying the sub-graph's compressed research. */
  function ResearchMessages(results: seq<ResearcherOutputState>, calls: seq<ToolCall>): seq<Message>
    requires |results| == |calls|
  {
    seq(|calls|, k requires 0 <= k < |calls| => ToolMessage(results[k].compressedResearch, calls[k].name, calls[k].id))
  }

  function RawNotesOf(results: seq<ResearcherOutputState>): seq<seq<string>>
  {
    seq(|results|, k requires 0 <= k < |results| => results[k].rawNotes)
  }

  /** The concatenation of a list of lists (`extend` in a loop). */
  function ConcatAll(xss: seq<seq<string>>): seq<string>
  {
    if |xss| == 0 then [] else ConcatAll(xss[..|xss| - 1]) + xss[|xss| - 1]
  }

  /** When every list has one element, so many lists give so many elements. */
  lemma {:induction false} ConcatAllSingletons(xss: seq<seq<string>>)
    requires forall k :: 0 <= k < |xss| ==> |xss[k]| == 1
    ensures |ConcatAll(xss)| == |xss|
    ensures forall k :: 0 <= k < |xss| ==> ConcatAll(xss)[k] == xss[k][0]
  {
    if |xss| > 0 {
      var init := xss[..|xss| - 1];
      ConcatAllSingletons(init);
      assert forall k :: 0 <= k < |init| ==> init[k] == xss[k];
    }
  }

  /** The findings given to every refine call: the knowledge base if any, else the tool notes. */
  function Findings(s: SupervisorState): string
  {
    if |s.knowledgeBase| > 0
    then "CONFIRMED FACTS:\n" + Join("\n", seq(|s.knowledgeBase|, k requires 0 <= k < |s.knowledgeBase| => "- " + s.knowledgeBase[k].content))
    else Join("\n", GetNotesFromToolCalls(s.messages))
  }

  /** Every refine call is built from the state, including the state's own draft. */
  function RefineRequestOf(s: SupervisorState): RefineRequest
  {
    RefineRequest(s.researchBrief, Findings(s), s.draftReport)
  }

  /** The draft produced by the k-th refine call. */
  function NewDraft(s: SupervisorState, o: ToolOracles, k: nat): string
  {
    o.refine(k, RefineRequestOf(s))
  }

  /** The judge's verdict on the k-th new draft. */
  function Evaluation(s: SupervisorState, o: ToolOracles, k: nat): EvaluationResult
  {
    o.judge(k, s.researchBrief, NewDraft(s, o, k))
  }

  /** `(comprehensiveness_score + accuracy_score) / 2`; coherence plays no part. */
  function AverageScore(e: EvaluationResult): real
  {
    (e.comprehensivenessScore + e.accuracyScore) as real / 2.0
  }

  /** The real-valued threshold test is the integer test `comprehensiveness + accuracy < 14`. */
  lemma AverageBelowThreshold(e: EvaluationResult)
    ensures AverageScore(e) < QualityThreshold <==> e.comprehensivenessScore + e.accuracyScore < 14
  {
  }

  function RefineReport(e: EvaluationResult): string
  {
    "Draft Updated.\nQuality Score: " + HalfToString(e.comprehensivenessScore + e.accuracyScore) +
    "/10.\nJudge Feedback: " + e.specificCritique
  }

  function RefineMessage(s: SupervisorState, o: ToolOracles, k: nat, call: ToolCall): Message
  {
    ToolMessage(RefineReport(Evaluation(s, o, k)), call.name, call.id)
  }

  function RefineMessages(s: SupervisorState, o: ToolOracles, calls: seq<ToolCall>): seq<Message>
  {
    seq(|calls|, k requires 0 <= k < |calls| => RefineMessage(s, o, k, calls[k]))
  }

  /** The quality record of the k-th refine call; its iteration is the state's counter. */
  function RefineMetric(s: SupervisorState, o: ToolOracles, k: nat): QualityMetric
  {
    var e := Evaluation(s, o, k);
    QualityMetric(AverageScore(e), e.specificCritique, s.researchIterations)
  }

  /** Some of the first n refine calls scored below the threshold. */
  predicate SomeLowScore(s: SupervisorState, o: ToolOracles, n: nat)
  {
    exists k | 0 <= k < n :: AverageScore(Evaluation(s, o, k)) < QualityThreshold
  }

  lemma SomeLowScoreStep(s: SupervisorState, o: ToolOracles, m: nat)
    ensures SomeLowScore(s, o, m + 1) <==> SomeLowScore(s, o, m) || AverageScore(Evaluation(s, o, m)) < QualityThreshold
  {
    if SomeLowScore(s, o, m + 1) && !SomeLowScore(s, o, m) {
      var k :| 0 <= k < m + 1 && AverageScore(Evaluation(s, o, k)) < QualityThreshold;
      assert k == m;
    }
  }

  /** The update of the non-exit path, from the think results and the research topics. */
  function FanOutUpdate(s: SupervisorState, o: ToolOracles, thinkMessages: seq<Message>,
                        researchCalls: seq<ToolCall>, topics: seq<string>, refineCalls: seq<ToolCall>): Update
    requires |topics| == |researchCalls|
  {
    var results := ResearchResults(topics, o);
    var n := |refineCalls|;
    NoUpdate.(
      messages := Some(thinkMessages + ResearchMessages(results, researchCalls) + RefineMessages(s, o, refineCalls)),
      rawNotes := Some(ConcatAll(RawNotesOf(results))),
      draftReport := Some(if n == 0 then s.draftReport else NewDraft(s, o, n - 1)),
      qualityHistory := if n == 0 then None else Some([RefineMetric(s, o, n - 1)]),
      needsQualityRepair := if SomeLowScore(s, o, n) then Some(true) else None)
  }

  /** `supervisor_tools` once the last message's tool calls are known. */
  function ToolsOnCalls(s: SupervisorState, calls: seq<ToolCall>, o: ToolOracles): Result<ToolsOutcome, PyError>
  {
    if ShouldExit(s.researchIterations, calls) then Ok(Exit(ExitNotes(s), s.researchBrief))
    else
      var researchCalls := CallsNamed(calls, ConductResearchName);
      var refineCalls := CallsNamed(calls, RefineDraftReportName);
      var thinkCalls := CallsNamed(calls, ThinkToolName);
      match ThinkMessages(thinkCalls)
      case Err(e) => Err(e)
      case Ok(thinkMessages) =>
        match ResearchTopics(researchCalls)
        case Err(e) => Err(e)
        case Ok(topics) =>
          ResearchTopicsSpec(researchCalls);
          Ok(FanOut([RedTeamNodeName, ContextPrunerNodeName],
                    FanOutUpdate(s, o, thinkMessages, researchCalls, topics, refineCalls)))
  }

  /** What `supervisor_tools` returns for a state. */
  function SupervisorToolsResult(s: SupervisorState, o: ToolOracles): Result<ToolsOutcome, PyError>
  {
    match LastToolCalls(s.messages)
    case Err(e) => Err(e)
    case Ok(calls) => ToolsOnCalls(s, calls, o)
  }

  /** The `think_tool` loop: one confirmation per call, or the first validation error. */
  method RunThinkCalls(thinkCalls: seq<ToolCall>) returns (r: Result<seq<Message>, PyError>)
    ensures r == ThinkMessages(thinkCalls)
  {
    var toolMessages: seq<Message> := [];
    var i := 0;
    while i < |thinkCalls|
      invariant 0 <= i <= |thinkCalls|
      invariant ThinkMessages(thinkCalls[..i]) == Ok(toolMessages)
    {
      var observation := InvokeThinkTool(thinkCalls[i].args);
      assert thinkCalls[..i + 1][..i] == thinkCalls[..i];
      if observation.Err? {
        ThinkMessagesErrPersists(thinkCalls, i + 1, observation.error);
        return Err(observation.error);
      }
      toolMessages := toolMessages + [ToolMessage(observation.value, ThinkToolName, thinkCalls[i].id)];
      i := i + 1;
    }
    assert thinkCalls[..i] == thinkCalls;
    r := Ok(toolMessages);
  }

  /** The coroutine list: every topic is read before any sub-graph runs. */
  method CollectTopics(researchCalls: seq<ToolCall>) returns (r: Result<seq<string>, PyError>)
    ensures r == ResearchTopics(researchCalls)
  {
    var topics: seq<string> := [];
    var j := 0;
    while j < |researchCalls|
      invariant 0 <= j <= |researchCalls|
      invariant ResearchTopics(researchCalls[..j]) == Ok(topics)
    {
      var topic := ResearchTopicOf(researchCalls[j].args);
      assert researchCalls[..j + 1][..j] == researchCalls[..j];
      if topic.Err? {
        ResearchTopicsErrPersists(researchCalls, j + 1, topic.error);
        return Err(topic.error);
      }
      topics := topics + [topic.value];
      j := j + 1;
    }
    assert researchCalls[..j] == researchCalls;
    r := Ok(topics);
  }

  /** After the batch is awaited: one tool result per research call, and the notes extended in order. */
  method CollectResearch(results: seq<ResearcherOutputState>, researchCalls: seq<ToolCall>)
    returns (toolMessages: seq<Message>, allRawNotes: seq<string>)
    requires |results| == |researchCalls|
    ensures toolMessages == ResearchMessages(results, researchCalls)
    ensures allRawNotes == ConcatAll(RawNotesOf(results))
  {
    toolMessages, allRawNotes := [], [];
    ghost var researchMessages := ResearchMessages(results, researchCalls);
    ghost var notesLists := RawNotesOf(results);
    var k := 0;
    while k < |results|
      invariant 0 <= k <= |results|
      invariant toolMessages == researchMessages[..k]
      invariant allRawNotes == ConcatAll(notesLists[..k])
    {
      toolMessages := toolMessages + [ToolMessage(results[k].compressedResearch, researchCalls[k].name, researchCalls[k].id)];
      assert notesLists[..k + 1][..k] == notesLists[..k];
      allRawNotes := allRawNotes + results[k].rawNotes;
      assert researchMessages[..k + 1] == researchMessages[..k] + [researchMessages[k]];
      k := k + 1;
    }
    assert researchMessages[..k] == researchMessages;
    assert notesLists[..k] == notesLists;
  }

  /** The refine loop: each call refines the state's draft; the last draft and metric win. */
  method RunRefineCalls(s: SupervisorState, o: ToolOracles, refineCalls: seq<ToolCall>)
    returns (toolMessages: seq<Message>, draftReport: string,
             qualityHistory: Option<seq<QualityMetric>>, needsQualityRepair: Option<bool>)
    ensures toolMessages == RefineMessages(s, o, refineCalls)
    ensures draftReport == if |refineCalls| == 0 then s.draftReport else NewDraft(s, o, |refineCalls| - 1)
    ensures qualityHistory == if |refineCalls| == 0 then None else Some([RefineMetric(s, o, |refineCalls| - 1)])
    ensures needsQualityRepair == if SomeLowScore(s, o, |refineCalls|) then Some(true) else None
  {
    toolMessages, draftReport, qualityHistory, needsQualityRepair := [], s.draftReport, None, None;
    ghost var refineMessages := RefineMessages(s, o, refineCalls);
    var m := 0;
    while m < |refineCalls|
      invariant 0 <= m <= |refineCalls|
      invariant toolMessages == refineMessages[..m]
      invariant draftReport == if m == 0 then s.draftReport else NewDraft(s, o, m - 1)
      invariant qualityHistory == if m == 0 then None else Some([RefineMetric(s, o, m - 1)])
      invariant needsQualityRepair == if SomeLowScore(s, o, m) then Some(true) else None
    {
      var newDraft := o.refine(m, RefineRequest(s.researchBrief, Findings(s), s.draftReport));
      assert newDraft == NewDraft(s, o, m);
      var evaluation := o.judge(m, s.researchBrief, newDraft);
      var averageScore := (evaluation.comprehensivenessScore + evaluation.accuracyScore) as real / 2.0;
      assert averageScore == AverageScore(Evaluation(s, o, m));
      toolMessages := toolMessages + [ToolMessage(RefineReport(evaluation), refineCalls[m].name, refineCalls[m].id)];
      assert refineMessages[m] == RefineMessage(s, o, m, refineCalls[m]);
      assert refineMessages[..m + 1] == refineMessages[..m] + [refineMessages[m]];
      draftReport := newDraft;
      qualityHistory := Some([QualityMetric(averageScore, evaluation.specificCritique, s.researchIterations)]);
      if averageScore < QualityThreshold {
        needsQualityRepair := Some(true);
      }
      SomeLowScoreStep(s, o, m);
      m := m + 1;
    }
    assert refineMessages[..m] == refineMessages;
  }

  /**
   * `supervisor_tools`: the exit test, then the think calls, the research fan-out
   * (awaited as one batch) and the refine calls with their quality gate.
   */
  method SupervisorTools(s: SupervisorState, o: ToolOracles) returns (r: Result<ToolsOutcome, PyError>)
    ensures r == SupervisorToolsResult(s, o)
  {
    var last := LastToolCalls(s.messages);
    if last.Err? {
      return Err(last.error);
    }
    var calls := last.value;
    if ShouldExit(s.researchIterations, calls) {
      var kbNotes := seq(|s.knowledgeBase|, k requires 0 <= k < |s.knowledgeBase| => FactNote(s.knowledgeBase[k]));
      if |kbNotes| == 0 {
        kbNotes := GetNotesFromToolCalls(s.messages);
      }
      return Ok(Exit(kbNotes, s.researchBrief));
    }

    var researchCalls := CallsNamed(calls, ConductResearchName);
    var refineCalls := CallsNamed(calls, RefineDraftReportName);
    var thinkCalls := CallsNamed(calls, ThinkToolName);

    var thinkMessages := RunThinkCalls(thinkCalls);
    if thinkMessages.Err? {
      return Err(thinkMessages.error);
    }
    var toolMessages := thinkMessages.value;
    var allRawNotes: seq<string> := [];
    var topics: seq<string> := [];
    if |researchCalls| > 0 {
      var collected := CollectTopics(researchCalls);
      if collected.Err? {
        return Err(collected.error);
      }
      topics := collected.value;
      ResearchTopicsSpec(researchCalls);
      var gathered := ResearchResults(topics, o);
      var researchMessages, researchNotes := CollectResearch(gathered, researchCalls);
      toolMessages := toolMessages + researchMessages;
      allRawNotes := researchNotes;
    }
    ResearchTopicsSpec(researchCalls);
    assert ResearchTopics(researchCalls) == Ok(topics);
    var results := ResearchResults(topics, o);
    assert toolMessages == thinkMessages.value + ResearchMessages(results, researchCalls);
    assert allRawNotes == ConcatAll(RawNotesOf(results));
    var refineMessages, draftReport, qualityHistory, needsQualityRepair := RunRefineCalls(s, o, refineCalls);
    toolMessages := toolMessages + refineMessages;

    var updates := NoUpdate.(
      qualityHistory := qualityHistory,
      needsQualityRepair := needsQualityRepair,
      messages := Some(toolMessages),
      rawNotes := Some(allRawNotes),
      draftReport := Some(draftReport));
    assert updates == FanOutUpdate(s, o, thinkMessages.value, researchCalls, topics, refineCalls);
    r := Ok(FanOut([RedTeamNodeName, ContextPrunerNodeName], updates));
  }

  // ---------------------------------------------------------------------------
  // What `supervisor_tools` promises
  // ---------------------------------------------------------------------------

  /** The tool calls of the last message, when it has them. */
  function DecisionCalls(s: SupervisorState): seq<ToolCall>
  {
    match LastToolCalls(s.messages)
    case Ok(calls) => calls
    case Err(_) => []
  }

  predicate FansOut(s: SupervisorState, o: ToolOracles)
  {
    SupervisorToolsResult(s, o).Ok? && SupervisorToolsResult(s, o).value.FanOut?
  }

  /**
   * The node goes to END exactly when the exit test holds on the last message's calls;
   * the exit carries the notes and the brief and nothing else.
   */
  lemma ToolsExitIff(s: SupervisorState, o: ToolOracles)
    ensures var r := SupervisorToolsResult(s, o);
      (r.Ok? && r.value.Exit?) <==> LastToolCalls(s.messages).Ok? && ShouldExit(s.researchIterations, DecisionCalls(s))
    ensures var r := SupervisorToolsResult(s, o);
      r.Ok? && r.value.Exit? ==> r.value == Exit(ExitNotes(s), s.researchBrief) && Goto(r.value) == [End]
  {
    if LastToolCalls(s.messages).Ok? && !ShouldExit(s.researchIterations, DecisionCalls(s)) {
      var calls := DecisionCalls(s);
      ResearchTopicsSpec(CallsNamed(calls, ConductResearchName));
    }
  }

  /** On exit no pending call runs: the result does not depend on any collaborator. */
  lemma ExitRunsNothing(s: SupervisorState, o1: ToolOracles, o2: ToolOracles)
    requires LastToolCalls(s.messages).Ok? && ShouldExit(s.researchIterations, DecisionCalls(s))
    ensures SupervisorToolsResult(s, o1) == SupervisorToolsResult(s, o2)
  {
  }

  /**
   * The node raises exactly when the history is empty, the last message is not the
   * model's, or (when not exiting) a think call lacks its reflection or a research call its
   * topic. The research sub-graphs are total here, so an exception raised inside one of them
   * is not among these cases.
   */
  lemma ToolsErrorCases(s: SupervisorState, o: ToolOracles)
    ensures var calls := DecisionCalls(s);
      SupervisorToolsResult(s, o).Err? <==>
        || LastToolCalls(s.messages).Err?
        || (&& !ShouldExit(s.researchIterations, calls)
            && ((exists c | c in CallsNamed(calls, ThinkToolName) :: ReflectionArg !in c.args) ||
                (exists c | c in CallsNamed(calls, ConductResearchName) :: ResearchTopicArg !in c.args)))
  {
    var calls := DecisionCalls(s);
    var think, research := CallsNamed(calls, ThinkToolName), CallsNamed(calls, ConductResearchName);
    ThinkMessagesSpec(think);
    ResearchTopicsSpec(research);
    assert (exists c | c in think :: ReflectionArg !in c.args) <==> !(forall k :: 0 <= k < |think| ==> ReflectionArg in think[k].args);
    assert (exists c | c in research :: ResearchTopicArg !in c.args) <==> !(forall k :: 0 <= k < |research| ==> ResearchTopicArg in research[k].args);
  }

  /**
   * On the non-exit path the tool results are all think results, then one per research
   * call in call order, then one per refine call, each with its call's name and id.
   */
  lemma ToolMessagesInOrder(s: SupervisorState, o: ToolOracles)
    requires FansOut(s, o)
    ensures var calls := DecisionCalls(s);
      var think := CallsNamed(calls, ThinkToolName);
      var research := CallsNamed(calls, ConductResearchName);
      var refine := CallsNamed(calls, RefineDraftReportName);
      var ms := SupervisorToolsResult(s, o).value.update.messages;
      && ms.Some? && |ms.value| == |think| + |research| + |refine|
      && (forall k :: 0 <= k < |think| ==>
            ReflectionArg in think[k].args &&
            ms.value[k] == ToolMessage(ThinkTool(think[k].args[ReflectionArg]), ThinkToolName, think[k].id))
      && (forall k :: 0 <= k < |research| ==>
            ResearchTopicArg in research[k].args &&
            ms.value[|think| + k] == ToolMessage(
              o.research(k, ResearchInput(research[k].args[ResearchTopicArg])).compressedResearch,
              ConductResearchName, research[k].id))
      && (forall k :: 0 <= k < |refine| ==>
            ms.value[|think| + |research| + k] == ToolMessage(RefineReport(Evaluation(s, o, k)), RefineDraftReportName, refine[k].id))
  {
    ThinkResultsFirst(s, o);
    ResearchResultsNext(s, o);
    RefineResultsLast(s, o);
  }

  lemma ThinkResultsFirst(s: SupervisorState, o: ToolOracles)
    requires FansOut(s, o)
    ensures var calls := DecisionCalls(s);
      var think := CallsNamed(calls, ThinkToolName);
      var research := CallsNamed(calls, ConductResearchName);
      var refine := CallsNamed(calls, RefineDraftReportName);
      var ms := SupervisorToolsResult(s, o).value.update.messages;
      && ms.Some? && |ms.value| == |think| + |research| + |refine|
      && (forall k :: 0 <= k < |think| ==>
            ReflectionArg in think[k].args &&
            ms.value[k] == ToolMessage(ThinkTool(think[k].args[ReflectionArg]), ThinkToolName, think[k].id))
  {
    var calls := DecisionCalls(s);
    var think := CallsNamed(calls, ThinkToolName);
    FanOutMessagesAre(s, o);
    ThinkMessagesSpec(think);
  }

  lemma ResearchResultsNext(s: SupervisorState, o: ToolOracles)
    requires FansOut(s, o)
    ensures var calls := DecisionCalls(s);
      var think := CallsNamed(calls, ThinkToolName);
      var research := CallsNamed(calls, ConductResearchName);
      var refine := CallsNamed(calls, RefineDraftReportName);
      var ms := SupervisorToolsResult(s, o).value.update.messages;
      && ms.Some? && |ms.value| == |think| + |research| + |refine|
      && (forall k :: 0 <= k < |research| ==>
            ResearchTopicArg in research[k].args &&
            ms.value[|think| + k] == ToolMessage(
              o.research(k, ResearchInput(research[k].args[ResearchTopicArg])).compressedResearch,
              ConductResearchName, research[k].id))
  {
    var calls := DecisionCalls(s);
    var think := CallsNamed(calls, ThinkToolName);
    var research := CallsNamed(calls, ConductResearchName);
    var refine := CallsNamed(calls, RefineDraftReportName);
    FanOutMessagesAre(s, o);
    ResearchTopicsSpec(research);
    var topics := ResearchTopics(research).value;
    var a := ThinkMessages(think).value;
    var b := ResearchMessages(ResearchResults(topics, o), research);
    var c := RefineMessages(s, o, refine);
    ThinkMessagesSpec(think);
    ResearchMessagesSpec(topics, research, ConductResearchName, o);
    ThreeParts(a, b, c);
  }

  lemma RefineResultsLast(s: SupervisorState, o: ToolOracles)
    requires FansOut(s, o)
    ensures var calls := DecisionCalls(s);
      var think := CallsNamed(calls, ThinkToolName);
      var research := CallsNamed(calls, ConductResearchName);
      var refine := CallsNamed(calls, RefineDraftReportName);
      var ms := SupervisorToolsResult(s, o).value.update.messages;
      && ms.Some? && |ms.value| == |think| + |research| + |refine|
      && (forall k :: 0 <= k < |refine| ==>
            ms.value[|think| + |research| + k] == ToolMessage(RefineReport(Evaluation(s, o, k)), RefineDraftReportName, refine[k].id))
  {
    var calls := DecisionCalls(s);
    var think := CallsNamed(calls, ThinkToolName);
    var research := CallsNamed(calls, ConductResearchName);
    var refine := CallsNamed(calls, RefineDraftReportName);
    FanOutMessagesAre(s, o);
    ThinkMessagesSpec(think);
    var a := ThinkMessages(think).value;
    var b := ResearchMessages(ResearchResults(ResearchTopics(research).value, o), research);
    var c := RefineMessages(s, o, refine);
    RefineMessagesSpec(s, o, refine, RefineDraftReportName);
    ThreeParts(a, b, c);
  }

  /** Indexing into the second and third of three concatenated sequences. */
  lemma ThreeParts<T>(a: seq<T>, b: seq<T>, c: seq<T>)
    ensures |a + b + c| == |a| + |b| + |c|
    ensures forall k :: 0 <= k < |a| ==> (a + b + c)[k] == a[k]
    ensures forall k :: 0 <= k < |b| ==> (a + b + c)[|a| + k] == b[k]
    ensures forall k :: 0 <= k < |c| ==> (a + b + c)[|a| + |b| + k] == c[k]
  {
  }

  /** One message per research call: the k-th output's summary, with the call's name and id. */
  lemma ResearchMessagesSpec(topics: seq<string>, research: seq<ToolCall>, name: string, o: ToolOracles)
    requires |topics| == |research|
    requires forall k :: 0 <= k < |research| ==> ResearchTopicArg in research[k].args && topics[k] == research[k].args[ResearchTopicArg]
    requires forall k :: 0 <= k < |research| ==> research[k].name == name
    ensures |ResearchMessages(ResearchResults(topics, o), research)| == |research|
    ensures forall k :: 0 <= k < |research| ==>
      ResearchMessages(ResearchResults(topics, o), research)[k] == ToolMessage(
        o.research(k, ResearchInput(research[k].args[ResearchTopicArg])).compressedResearch, name, research[k].id)
  {
  }

  /** One message per refine call: the k-th verdict's report, with the call's name and id. */
  lemma RefineMessagesSpec(s: SupervisorState, o: ToolOracles, refine: seq<ToolCall>, name: string)
    requires forall k :: 0 <= k < |refine| ==> refine[k].name == name
    ensures |RefineMessages(s, o, refine)| == |refine|
    ensures forall k :: 0 <= k < |refine| ==>
      RefineMessages(s, o, refine)[k] == ToolMessage(RefineReport(Evaluation(s, o, k)), name, refine[k].id)
  {
  }

  /** The fan-out's messages, assembled from their three parts. */
  lemma FanOutMessagesAre(s: SupervisorState, o: ToolOracles)
    requires FansOut(s, o)
    ensures var calls := DecisionCalls(s);
      var think := CallsNamed(calls, ThinkToolName);
      var research := CallsNamed(calls, ConductResearchName);
      var refine := CallsNamed(calls, RefineDraftReportName);
      && ThinkMessages(think).Ok? && ResearchTopics(research).Ok?
      && |ResearchTopics(research).value| == |research|
      && SupervisorToolsResult(s, o).value.update.messages == Some(
           ThinkMessages(think).value
           + ResearchMessages(ResearchResults(ResearchTopics(research).value, o), research)
           + RefineMessages(s, o, refine))
  {
    FanOutIs(s, o);
  }

  /** Calls under any other name change nothing, as long as the message still has some call. */
  lemma OtherCallsIgnored(s: SupervisorState, a: seq<ToolCall>, c: ToolCall, b: seq<ToolCall>, o: ToolOracles)
    requires c.name !in {ThinkToolName, ConductResearchName, RefineDraftReportName, ResearchCompleteName}
    requires a + b != []
    ensures ToolsOnCalls(s, a + [c] + b, o) == ToolsOnCalls(s, a + b, o)
  {
    HasResearchCompleteConcat(a + [c], b);
    HasResearchCompleteConcat(a, [c]);
    HasResearchCompleteConcat(a, b);
    assert !HasResearchComplete([c]);
    forall name | name in {ThinkToolName, ConductResearchName, RefineDraftReportName}
      ensures CallsNamed(a + [c] + b, name) == CallsNamed(a + b, name)
    {
      CallsNamedConcat(a + [c], b, name);
      CallsNamedConcat(a, [c], name);
      CallsNamedConcat(a, b, name);
      CallsNamedOfOne(c, name);
      assert CallsNamed(a, name) + [] == CallsNamed(a, name);
    }
  }

  lemma HasResearchCompleteConcat(x: seq<ToolCall>, y: seq<ToolCall>)
    ensures HasResearchComplete(x + y) <==> HasResearchComplete(x) || HasResearchComplete(y)
  {
    if HasResearchComplete(x + y) {
      var k :| 0 <= k < |x + y| && (x + y)[k].name == ResearchCompleteName;
      if k < |x| { assert x[k] == (x + y)[k]; } else { assert y[k - |x|] == (x + y)[k]; }
    }
    if HasResearchComplete(x) {
      var k :| 0 <= k < |x| && x[k].name == ResearchCompleteName;
      assert (x + y)[k] == x[k];
    }
    if HasResearchComplete(y) {
      var k :| 0 <= k < |y| && y[k].name == ResearchCompleteName;
      assert (x + y)[|x| + k] == y[k];
    }
  }

  lemma {:induction false} ConcatAllAppend(xss: seq<seq<string>>, yss: seq<seq<string>>)
    ensures ConcatAll(xss + yss) == ConcatAll(xss) + ConcatAll(yss)
    decreases |yss|
  {
    if |yss| == 0 {
      assert xss + yss == xss;
    } else {
      var init := yss[..|yss| - 1];
      assert (xss + yss)[..|xss + yss| - 1] == xss + init;
      ConcatAllAppend(xss, init);
    }
  }

  /**
   * The `raw_notes` update is the research outputs' notes concatenated in call order:
   * empty without research calls, one entry per call when each output holds one note.
   */
  lemma RawNotesFromResearch(s: SupervisorState, o: ToolOracles)
    requires FansOut(s, o)
    ensures var research := CallsNamed(DecisionCalls(s), ConductResearchName);
      ResearchTopics(research).Ok? &&
      SupervisorToolsResult(s, o).value.update.rawNotes ==
        Some(ConcatAll(RawNotesOf(ResearchResults(ResearchTopics(research).value, o))))
    ensures CallsNamed(DecisionCalls(s), ConductResearchName) == [] ==> SupervisorToolsResult(s, o).value.update.rawNotes == Some([])
    ensures (forall k: nat, st: ResearcherState :: |o.research(k, st).rawNotes| == 1) ==>
      var research := CallsNamed(DecisionCalls(s), ConductResearchName);
      var notes := SupervisorToolsResult(s, o).value.update.rawNotes.value;
      |notes| == |research| &&
      forall k :: 0 <= k < |research| ==>
        ResearchTopicArg in research[k].args &&
        notes[k] == o.research(k, ResearchInput(research[k].args[ResearchTopicArg])).rawNotes[0]
  {
    var research := CallsNamed(DecisionCalls(s), ConductResearchName);
    ResearchTopicsSpec(research);
    var results := ResearchResults(ResearchTopics(research).value, o);
    if forall k: nat, st: ResearcherState :: |o.research(k, st).rawNotes| == 1 {
      ConcatAllSingletons(RawNotesOf(results));
    }
  }

  /**
   * The `draft_report` update is the last refine call's new draft, or the prior draft
   * when there is no refine call; every refine call refines the state's own draft.
   */
  lemma DraftFromLastRefine(s: SupervisorState, o: ToolOracles)
    requires FansOut(s, o)
    ensures var refine := CallsNamed(DecisionCalls(s), RefineDraftReportName);
      SupervisorToolsResult(s, o).value.update.draftReport ==
        Some(if refine == [] then s.draftReport
             else o.refine(|refine| - 1, RefineRequest(s.researchBrief, Findings(s), s.draftReport)))
  {
    FanOutIs(s, o);
  }

  /** The fan-out outcome, assembled from the think results and the research topics. */
  lemma FanOutIs(s: SupervisorState, o: ToolOracles)
    requires FansOut(s, o)
    ensures var calls := DecisionCalls(s);
      var think := CallsNamed(calls, ThinkToolName);
      var research := CallsNamed(calls, ConductResearchName);
      var refine := CallsNamed(calls, RefineDraftReportName);
      && ThinkMessages(think).Ok? && ResearchTopics(research).Ok?
      && |ResearchTopics(research).value| == |research|
      && SupervisorToolsResult(s, o).value == FanOut([RedTeamNodeName, ContextPrunerNodeName],
           FanOutUpdate(s, o, ThinkMessages(think).value, research, ResearchTopics(research).value, refine))
  {
    ResearchTopicsSpec(CallsNamed(DecisionCalls(s), ConductResearchName));
  }

  /**
   * Only the last refine call's metric is recorded, stamped with the state's counter; the
   * repair flag is written as True exactly when some refine call averaged below 7, and is
   * otherwise left unwritten.
   */
  lemma QualityBookkeeping(s: SupervisorState, o: ToolOracles)
    requires FansOut(s, o)
    ensures var refine := CallsNamed(DecisionCalls(s), RefineDraftReportName);
      var u := SupervisorToolsResult(s, o).value.update;
      && u.qualityHistory == (if refine == [] then None else Some([RefineMetric(s, o, |refine| - 1)]))
      && (refine != [] ==> |u.qualityHistory.value| == 1 && u.qualityHistory.value[0].iteration == s.researchIterations)
      && (u.needsQualityRepair == Some(true) <==>
            exists k :: 0 <= k < |refine| &&
              Evaluation(s, o, k).comprehensivenessScore + Evaluation(s, o, k).accuracyScore < 14)
      && u.needsQualityRepair != Some(false)
  {
    var calls := DecisionCalls(s);
    var research := CallsNamed(calls, ConductResearchName);
    var refine := CallsNamed(calls, RefineDraftReportName);
    FanOutIs(s, o);
    var u := FanOutUpdate(s, o, ThinkMessages(CallsNamed(calls, ThinkToolName)).value, research, ResearchTopics(research).value, refine);
    assert SupervisorToolsResult(s, o).value.update == u;
    forall k | 0 <= k < |refine|
      ensures AverageScore(Evaluation(s, o, k)) < QualityThreshold <==>
        Evaluation(s, o, k).comprehensivenessScore + Evaluation(s, o, k).accuracyScore < 14
    {
      AverageBelowThreshold(Evaluation(s, o, k));
    }
  }

  /** The node always fans out to both correction branches and writes no other field. */
  lemma FanOutTargetsAndKeys(s: SupervisorState, o: ToolOracles)
    requires FansOut(s, o)
    ensures Goto(SupervisorToolsResult(s, o).value) == [RedTeamNodeName, ContextPrunerNodeName]
    ensures Keys(SupervisorToolsResult(s, o).value.update) <=
      {MessagesKey, RawNotesKey, DraftReportKey, QualityHistoryKey, NeedsQualityRepairKey}
  {
    var calls := DecisionCalls(s);
    var research := CallsNamed(calls, ConductResearchName);
    var refine := CallsNamed(calls, RefineDraftReportName);
    FanOutIs(s, o);
    var u := FanOutUpdate(s, o, ThinkMessages(CallsNamed(calls, ThinkToolName)).value, research, ResearchTopics(research).value, refine);
    assert SupervisorToolsResult(s, o).value.update == u;
    FanOutUpdateKeys(s, o, ThinkMessages(CallsNamed(calls, ThinkToolName)).value, research, ResearchTopics(research).value, refine);
  }

  lemma FanOutUpdateKeys(s: SupervisorState, o: ToolOracles, thinkMessages: seq<Message>,
                         researchCalls: seq<ToolCall>, topics: seq<string>, refineCalls: seq<ToolCall>)
    requires |topics| == |researchCalls|
    ensures Keys(FanOutUpdate(s, o, thinkMessages, researchCalls, topics, refineCalls)) <=
      {MessagesKey, RawNotesKey, DraftReportKey, QualityHistoryKey, NeedsQualityRepairKey}
  {
    var u := FanOutUpdate(s, o, thinkMessages, researchCalls, topics, refineCalls);
    forall k: Key | k in Keys(u)
      ensures k in {MessagesKey, RawNotesKey, DraftReportKey, QualityHistoryKey, NeedsQualityRepairKey}
    {
    }
  }
}
