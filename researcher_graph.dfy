/**
 * The research worker's graph (src/graphs/researcher_graph.py): a ReAct loop of
 * `llm_call` and `tool_node` that ends in `compress_research`, and the run it induces.
 */
module ResearcherGraph {
  import opened Wrappers
  import opened Text
  import opened Messages
  import opened ResearcherStates
  import opened ResearcherNode
  import opened GraphEngine

  const Nodes: set<string> := {LlmCallNode, ToolNodeName, CompressResearchNode}

  /** The static edges. */
  const Edges: set<Edge> := {
    Edge(Start, LlmCallNode),
    Edge(ToolNodeName, LlmCallNode),
    Edge(CompressResearchNode, End)
  }

  /** The conditional edge out of `llm_call`: the router's answer names the next node. */
  const RouteMap: map<string, string> := map[ToolNodeName := ToolNodeName, CompressResearchNode := CompressResearchNode]

  /** The node that follows `llm_call` for a given history, as the conditional edge computes it. */
  function NextAfterLlmCall(messages: seq<Message>): (r: Result<string, PyError>)
    ensures r.Ok? ==> r.value in RouteMap.Values
    ensures r.Ok? <==> LastToolCalls(messages).Ok?
    ensures r.Ok? ==> (r.value == ToolNodeName <==> |LastToolCalls(messages).value| > 0)
  {
    match ShouldContinue(messages)
    case Err(e) => Err(e)
    case Ok(route) => Ok(RouteMap[route])
  }

  /** The sub-graph is entered at `llm_call`. */
  lemma EntryIsLlmCall()
    ensures StaticSuccessors(Edges, Start) == {LlmCallNode}
  {
    assert Edge(Start, LlmCallNode) in Edges;
  }

  /** The conditional edge maps onto exactly the tool executor and the compressor. */
  lemma ConditionalTargets()
    ensures RouteMap.Keys == RouteMap.Values == {ToolNodeName, CompressResearchNode}
    ensures forall r :: r in RouteMap ==> RouteMap[r] == r
    ensures StaticSuccessors(Edges, LlmCallNode) == {}
  {
    assert RouteMap[ToolNodeName] == ToolNodeName;
    assert RouteMap[CompressResearchNode] == CompressResearchNode;
  }

  /** `tool_node` always hands back to `llm_call`; `compress_research` always ends the run. */
  lemma LoopAndExitEdges()
    ensures StaticSuccessors(Edges, ToolNodeName) == {LlmCallNode}
    ensures StaticSuccessors(Edges, CompressResearchNode) == {End}
    ensures forall e :: e in Edges && e.to == End ==> e.from == CompressResearchNode
  {
    assert Edge(ToolNodeName, LlmCallNode) in Edges;
    assert Edge(CompressResearchNode, End) in Edges;
  }

  /**
   * The collaborators of one run: the k-th model call answers with `model(k)`, the k-th
   * tool round observes with `search(k)`, and the compressor writes the summary.
   */
  datatype RunOracles = RunOracles(
    systemPrompt: string,
    model: nat -> (seq<Message> -> Message),
    search: nat -> ((nat, map<string, string>) -> string),
    compressSystemPrompt: string,
    humanPrompt: string -> string,
    compressor: seq<Message> -> string)

  datatype RunOutcome =
    | Finished(output: ResearcherOutputState)
    | Failed(error: PyError)
    | Unfinished(state: ResearcherState)

  /**
   * The run of the sub-graph from `llm_call`, round `round`, for at most `fuel` rounds of
   * `llm_call` followed by `tool_node`; `Unfinished` when the rounds run out.
   */
  function Run(s: ResearcherState, o: RunOracles, round: nat, fuel: nat): RunOutcome
    decreases fuel
  {
    if fuel == 0 then Unfinished(s)
    else
      var s1 := MergeResearcher(s, LlmCall(s, o.systemPrompt, o.model(round)));
      match NextAfterLlmCall(s1.messages)
      case Err(e) => Failed(e)
      case Ok(next) =>
        if next == CompressResearchNode then
          Finished(Output(MergeResearcher(s1, CompressResearch(s1, o.compressSystemPrompt, o.humanPrompt, o.compressor))))
        else
          match ToolNodeResult(s1, o.search(round))
          case Err(e) => Failed(e)
          case Ok(u) => Run(MergeResearcher(s1, u), o, round + 1, fuel - 1)
  }

  /**
   * A finished run adds exactly one raw note: the newline-join of the tool and model
   * contents of its final history, which extends the initial one.
   */
  lemma {:induction false} FinishedRunNotes(s: ResearcherState, o: RunOracles, round: nat, fuel: nat)
    requires Run(s, o, round, fuel).Finished?
    ensures var out := Run(s, o, round, fuel).output;
      && s.messages <= out.messages
      && out.rawNotes == s.rawNotes + [Join("\n", ResearchNotes(out.messages))]
    decreases fuel
  {
    var l := LlmCall(s, o.systemPrompt, o.model(round));
    var s1 := MergeResearcher(s, l);
    MergeResearcherAppends(s, l);
    assert s1.rawNotes == s.rawNotes;
    var next := NextAfterLlmCall(s1.messages).value;
    if next != CompressResearchNode {
      var u := ToolNodeResult(s1, o.search(round)).value;
      var s2 := MergeResearcher(s1, u);
      MergeResearcherAppends(s1, u);
      assert s2.rawNotes == s.rawNotes;
      FinishedRunNotes(s2, o, round + 1, fuel - 1);
    } else {
      var u := CompressResearch(s1, o.compressSystemPrompt, o.humanPrompt, o.compressor);
      MergeResearcherAppends(s1, u);
      assert MergeResearcher(s1, u).messages == s1.messages + [] == s1.messages;
    }
  }

  /** Nothing in the loop reads or writes `tool_call_iterations`, and the topic is kept. */
  lemma {:induction false} RunKeepsCounterAndTopic(s: ResearcherState, o: RunOracles, round: nat, fuel: nat)
    requires Run(s, o, round, fuel).Unfinished?
    ensures Run(s, o, round, fuel).state.toolCallIterations == s.toolCallIterations
    ensures Run(s, o, round, fuel).state.researchTopic == s.researchTopic
    ensures Run(s, o, round, fuel).state.rawNotes == s.rawNotes
    decreases fuel
  {
    if fuel > 0 {
      var s1 := MergeResearcher(s, LlmCall(s, o.systemPrompt, o.model(round)));
      var u := ToolNodeResult(s1, o.search(round)).value;
      RunKeepsCounterAndTopic(MergeResearcher(s1, u), o, round + 1, fuel - 1);
    }
  }

  /** A model that keeps asking for one search. */
  function AlwaysSearch(k: nat): seq<Message> -> Message
  {
    (context: seq<Message>) => AIMessage("", [ToolCall("tavily_search", map[], "")])
  }

  /**
   * No counter bounds the `llm_call` and `tool_node` cycle: a model that always asks for
   * a search keeps the run going for any number of rounds.
   */
  lemma {:induction false} NoRoundBound(s: ResearcherState, o: RunOracles, round: nat, fuel: nat)
    requires o.model == AlwaysSearch
    ensures Run(s, o, round, fuel).Unfinished?
    ensures |Run(s, o, round, fuel).state.messages| == |s.messages| + 2 * fuel
    decreases fuel
  {
    if fuel > 0 {
      var s1 := MergeResearcher(s, LlmCall(s, o.systemPrompt, o.model(round)));
      assert s1.messages[|s1.messages| - 1] == AIMessage("", [ToolCall("tavily_search", map[], "")]);
      assert FirstUnknownTool([ToolCall("tavily_search", map[], "")]) == None;
      var u := ToolNodeResult(s1, o.search(round)).value;
      NoRoundBound(MergeResearcher(s1, u), o, round + 1, fuel - 1);
    }
  }
}
