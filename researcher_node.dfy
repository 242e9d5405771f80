/**
 * The research worker's nodes (src/nodes/researcher_node.py): the model call, the tool
 * executor, the routing test and the compression step.
 */
module ResearcherNode {
  import opened Wrappers
  import opened Text
  import opened Messages
  import opened ResearcherStates

  const LlmCallNode := "llm_call"
  const ToolNodeName := "tool_node"
  const CompressResearchNode := "compress_research"

  /** The names of the tools bound to the research model. */
  const BoundToolNames: set<string> := {"tavily_search"}

  /** What `llm_call` sends to the model: the system prompt, then the worker's history. */
  function LlmCallContext(s: ResearcherState, systemPrompt: string): (r: seq<Message>)
    ensures |r| == |s.messages| + 1
    ensures r[0] == SystemMessage(systemPrompt) && r[1..] == s.messages
  {
    [SystemMessage(systemPrompt)] + s.messages
  }

  /** `llm_call`: appends the model's one response and writes nothing else. */
  function LlmCall(s: ResearcherState, systemPrompt: string, model: seq<Message> -> Message): (u: ResearcherUpdate)
    ensures u.messages.Some? && |u.messages.value| == 1
    ensures u.messages.value[0] == model(LlmCallContext(s, systemPrompt))
    ensures u.(messages := None) == NoResearcherUpdate
  {
    NoResearcherUpdate.(messages := Some([model([SystemMessage(systemPrompt)] + s.messages)]))
  }

  /** `should_continue`: route on whether the last message requests tools. */
  function ShouldContinue(messages: seq<Message>): Result<string, PyError>
  {
    match LastToolCalls(messages)
    case Err(e) => Err(e)
    case Ok(calls) => if |calls| > 0 then Ok(ToolNodeName) else Ok(CompressResearchNode)
  }

  /** Routes to the tool executor exactly when the last message has at least one tool call. */
  lemma ShouldContinueRoutes(messages: seq<Message>)
    requires |messages| > 0 && messages[|messages| - 1].AIMessage?
    ensures ShouldContinue(messages) == Ok(if |messages[|messages| - 1].toolCalls| > 0 then ToolNodeName else CompressResearchNode)
  {
  }

  /** The tool results of `tool_node` once every call has been executed. */
  function ToolOutputs(calls: seq<ToolCall>, search: (nat, map<string, string>) -> string): seq<Message>
  {
    seq(|calls|, k requires 0 <= k < |calls| => ToolMessage(search(k, calls[k].args), calls[k].name, calls[k].id))
  }

  /** The first call, in order, whose name is not a bound tool (the failing lookup). */
  function FirstUnknownTool(calls: seq<ToolCall>): (r: Option<nat>)
    ensures r.None? <==> forall k :: 0 <= k < |calls| ==> calls[k].name in BoundToolNames
    ensures r.Some? ==> r.value < |calls| && calls[r.value].name !in BoundToolNames
    ensures r.Some? ==> forall k :: 0 <= k < r.value ==> calls[k].name in BoundToolNames
  {
    if |calls| == 0 then None
    else if calls[0].name !in BoundToolNames then Some(0)
    else match FirstUnknownTool(calls[1..])
      case None => None
      case Some(k) => Some(k + 1)
  }

  /** What `tool_node` returns, as a function of the state and of the search tool. */
  function ToolNodeResult(s: ResearcherState, search: (nat, map<string, string>) -> string): Result<ResearcherUpdate, PyError>
  {
    match LastToolCalls(s.messages)
    case Err(e) => Err(e)
    case Ok(calls) =>
      match FirstUnknownTool(calls)
      case Some(k) => Err(KeyError(calls[k].name))
      case None => Ok(NoResearcherUpdate.(messages := Some(ToolOutputs(calls, search))))
  }

  /**
   * `tool_node`: run every requested tool call in order, one tool result per call
   * carrying the call's name and id; a name that is not a bound tool raises KeyError.
   * `search(k, args)` is the k-th call's observation.
   */
  method ToolNode(s: ResearcherState, search: (nat, map<string, string>) -> string)
    returns (r: Result<ResearcherUpdate, PyError>)
    ensures r == ToolNodeResult(s, search)
    ensures r.Ok? ==> |s.messages| > 0 && s.messages[|s.messages| - 1].AIMessage?
    ensures r.Ok? ==>
      var calls := s.messages[|s.messages| - 1].toolCalls;
      && r.value.(messages := None) == NoResearcherUpdate
      && r.value.messages.Some? && |r.value.messages.value| == |calls|
      && forall k :: 0 <= k < |calls| ==>
           r.value.messages.value[k] == ToolMessage(search(k, calls[k].args), calls[k].name, calls[k].id)
  {
    var last := LastToolCalls(s.messages);
    if last.Err? {
      return Err(last.error);
    }
    var calls := last.value;
    var observations: seq<string> := [];
    var i := 0;
    while i < |calls|
      invariant 0 <= i <= |calls|
      invariant |observations| == i
      invariant forall k :: 0 <= k < i ==> calls[k].name in BoundToolNames
      invariant forall k :: 0 <= k < i ==> observations[k] == search(k, calls[k].args)
    {
      if calls[i].name !in BoundToolNames {
        assert FirstUnknownTool(calls) == Some(i);
        return Err(KeyError(calls[i].name));
      }
      observations := observations + [search(i, calls[i].args)];
      i := i + 1;
    }
    var outputs: seq<Message> := [];
    var j := 0;
    while j < |calls|
      invariant 0 <= j <= |calls|
      invariant outputs == ToolOutputs(calls[..j], search)
    {
      outputs := outputs + [ToolMessage(observations[j], calls[j].name, calls[j].id)];
      j := j + 1;
    }
    assert calls[..j] == calls;
    r := Ok(NoResearcherUpdate.(messages := Some(outputs)));
  }

  /** The text `compress_research` keeps as raw notes: tool and AI contents, in order. */
  function ResearchNotes(messages: seq<Message>): seq<string>
  {
    Contents(FilterMessages(messages, {"tool", "ai"}))
  }

  /** Raw notes keep tool and AI messages, drop human (and system) ones, and distribute over histories. */
  lemma ResearchNotesConcat(a: seq<Message>, b: seq<Message>)
    ensures ResearchNotes(a + b) == ResearchNotes(a) + ResearchNotes(b)
  {
    FilterConcat(a, b, {"tool", "ai"});
    ContentsConcat(FilterMessages(a, {"tool", "ai"}), FilterMessages(b, {"tool", "ai"}));
  }

  lemma ResearchNotesOfOne(m: Message)
    ensures ResearchNotes([m]) == if m.ToolMessage? || m.AIMessage? then [m.content] else []
  {
    FilterSingleton(m, {"tool", "ai"});
  }

  /** What `compress_research` sends to the compressor: system prompt, history, closing human prompt. */
  function CompressContext(s: ResearcherState, systemPrompt: string, humanPrompt: string -> string): seq<Message>
  {
    [SystemMessage(systemPrompt)] + s.messages + [HumanMessage(humanPrompt(s.researchTopic))]
  }

  /**
   * `compress_research`: `compressed_research` is the compressor's answer and `raw_notes`
   * is one string, the newline-join of the history's tool and AI contents.
   */
  function CompressResearch(s: ResearcherState, systemPrompt: string, humanPrompt: string -> string,
                            compressor: seq<Message> -> string): (u: ResearcherUpdate)
    ensures u.compressedResearch == Some(compressor(CompressContext(s, systemPrompt, humanPrompt)))
    ensures u.rawNotes.Some? && |u.rawNotes.value| == 1
    ensures u.rawNotes.value[0] == Join("\n", ResearchNotes(s.messages))
    ensures u.messages.None? && u.toolCallIterations.None? && u.researchTopic.None?
  {
    NoResearcherUpdate.(
      compressedResearch := Some(compressor(CompressContext(s, systemPrompt, humanPrompt))),
      rawNotes := Some([Join("\n", ResearchNotes(s.messages))]))
  }

  /** No researcher node writes `tool_call_iterations`. */
  lemma NoNodeWritesToolCallIterations(s: ResearcherState, systemPrompt: string, model: seq<Message> -> Message,
                                       search: (nat, map<string, string>) -> string,
                                       humanPrompt: string -> string, compressor: seq<Message> -> string)
    ensures LlmCall(s, systemPrompt, model).toolCallIterations.None?
    ensures ToolNodeResult(s, search).Ok? ==> ToolNodeResult(s, search).value.toolCallIterations.None?
    ensures CompressResearch(s, systemPrompt, humanPrompt, compressor).toolCallIterations.None?
  {
  }
}
