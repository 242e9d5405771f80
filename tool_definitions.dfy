/**
 * The supervisor's tools (src/tools/supervisor_tools.py): `think_tool` and the two
 * argument schemas `ConductResearch` and `ResearchComplete`.
 */
module ToolDefinitions {
  import opened Wrappers
  import opened Messages

  const ThinkToolName := "think_tool"
  const ConductResearchName := "ConductResearch"
  const ResearchCompleteName := "ResearchComplete"
  const RefineDraftReportName := "refine_draft_report"

  /** The only argument of `think_tool`. */
  const ReflectionArg := "reflection"
  /** The only field of `ConductResearch`; `ResearchComplete` has none. */
  const ResearchTopicArg := "research_topic"

  const ReflectionPrefix := "Reflection recorded: "

  /** `think_tool(reflection)`: the reflection behind a fixed confirmation prefix. */
  function ThinkTool(reflection: string): (r: string)
    ensures |r| == |reflection| + 21
    ensures r[..21] == ReflectionPrefix && r[21..] == reflection
  {
    ReflectionPrefix + reflection
  }

  /** Reads the reflection back out of a `think_tool` result. */
  function RecordedReflection(result: string): Option<string>
  {
    if |result| >= |ReflectionPrefix| && result[..|ReflectionPrefix|] == ReflectionPrefix
    then Some(result[|ReflectionPrefix|..])
    else None
  }

  lemma ThinkToolRoundTrip(reflection: string)
    ensures RecordedReflection(ThinkTool(reflection)) == Some(reflection)
  {
  }

  /** Distinct reflections are recorded as distinct results. */
  lemma ThinkToolInjective(a: string, b: string)
    requires ThinkTool(a) == ThinkTool(b)
    ensures a == b
  {
    ThinkToolRoundTrip(a);
    ThinkToolRoundTrip(b);
  }

  /**
   * `think_tool.invoke(args)`: argument validation fails when `reflection` is
   * missing; otherwise the confirmation string.
   */
  function InvokeThinkTool(args: map<string, string>): (r: Result<string, PyError>)
    ensures r.Err? <==> ReflectionArg !in args
    ensures r.Err? ==> r.error == ValidationError(ReflectionArg)
    ensures r.Ok? ==> r.value == ThinkTool(args[ReflectionArg])
  {
    if ReflectionArg in args then Ok(ThinkTool(args[ReflectionArg])) else Err(ValidationError(ReflectionArg))
  }

  /** `tool_call["args"]["research_topic"]` for a `ConductResearch` call. */
  function ResearchTopicOf(args: map<string, string>): (r: Result<string, PyError>)
    ensures r.Err? <==> ResearchTopicArg !in args
    ensures r.Err? ==> r.error == KeyError(ResearchTopicArg)
    ensures r.Ok? ==> r.value == args[ResearchTopicArg]
  {
    if ResearchTopicArg in args then Ok(args[ResearchTopicArg]) else Err(KeyError(ResearchTopicArg))
  }
}
