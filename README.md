# Supervisor denoising loop of the deep-research agent, modelled in Dafny

This project models the deterministic control logic of the agent's research phase.

The **supervisor loop** works like this:
- `supervisor` plans the next step with a tool-bound model.
- `supervisor_tools` carries out the planned tool calls: `think_tool`, `ConductResearch`, `refine_draft_report` and `ResearchComplete`.
- It then either ends the loop or fans out to two correction branches, `red_team` and `context_pruner`.
- Both correction branches return to `supervisor`.

The **research sub-graph** is a ReAct loop:
- `llm_call` and `tool_node` alternate until the model stops asking for tools.
- `compress_research` then summarises the findings.

The model works on values. Every node is a function from the state it reads to the partial update it returns. The graph engine's reducers are modelled as a `Merge` of that update into the state:
- `operator.add` fields concatenate.
- `add_messages` appends.
- Every other field is overwritten.

An update is a record of `Option` fields. `None` means the returned dict has no such key, which keeps `"raw_notes": []` distinct from "no key".

Where the source loops and accumulates, the model has a method with loops. There are two such places: `tool_node`, and the body of `supervisor_tools`. Each method is proved equal to a specification function, and that function's properties are proved as lemmas.

Collaborators the code reaches through the network are parameters of the model, indexed by call position:
- the tool-bound models;
- the critic;
- the fact extractor;
- the research sub-graph;
- the draft refiner and the quality judge;
- the search tool.

Python exceptions the code can raise become `Err` values of a `Result`:
- an empty history (`IndexError`);
- a last message that is not an AI message (`AttributeError`);
- a missing `research_topic` or an unknown researcher tool (`KeyError`);
- a `think_tool` call without `reflection` (validation error).

Modules, one per source file, plus four shared ones:

| module | file | models |
|---|---|---|
| `Wrappers` | wrappers.dfy | `Option`, `Result` |
| `Text` | text.dfy | `"\n".join`, slicing `[:n]`, `in` on strings, `str(int)`, the `str` of a half-integer float |
| `Messages` | messages.dfy | LangChain message shapes, `filter_messages`, `[-1].tool_calls` |
| `GraphEngine` | graph_engine.dfy | `START`, `END` and static edges |
| `Helpers` | helpers.dfy | src/helpers.py |
| `ToolDefinitions` | tool_definitions.dfy | src/tools/supervisor_tools.py |
| `SupervisorStates` | supervisor_state.dfy | src/states/supervisor_state.py |
| `ResearcherStates` | researcher_state.dfy | src/states/researcher_state.py |
| `ResearcherNode` | researcher_node.dfy | src/nodes/researcher_node.py |
| `ContextPruningNode` | context_pruning_node.dfy | src/nodes/context_pruning_node.py |
| `RedTeamNode` | red_team_node.dfy | src/nodes/red_team_node.py |
| `SupervisorNode` | supervisor_node.dfy | src/nodes/supervisor_node.py |
| `ResearcherGraph` | researcher_graph.dfy | src/graphs/researcher_graph.py |
| `SupervisorGraph` | supervisor_graph.dfy | src/graphs/supervisor_graph.py |

## Where the model follows the code rather than the design

The docstring of the context pruner, its returned message ("Raw notes buffer cleared.") and its comment describe `raw_notes` as a buffer that the pruner clears. The field's reducer is `operator.add`, though, so the pruner's `"raw_notes": []` appends nothing. The model follows the code:
- `ContextPruningNode.PruningKeepsBuffer` and `SupervisorGraph.CorrectionsEffect` prove that the buffer after the corrections is exactly the buffer the pruner saw.
- `SupervisorGraph.RunAppendOnly` proves that the buffer only grows over the whole loop.

So every later pruning round sends the extractor the same buffer, grown, and the buffer is not empty when `supervisor` next decides. The prompt holds only the first 20000 characters of the joined buffer. Once the buffer reaches that size, `ContextPruningNode.LaterNotesUnseen` proves that notes appended later never reach the extractor: every later round repeats the update of the earlier notes alone.

Other behaviour of the code that the model keeps:
- `needs_quality_repair` is written only by `supervisor`, always `False`, and by `supervisor_tools`, only ever `True`.
- `Critique.addressed` is never set, so a critique, once made, is injected in every later round.
- Only the last refine call's score is recorded.
- Every refine call refines the state's own draft, not the previous call's result.
- `max_concurrent_researchers` is only formatted into the prompt: nothing caps the number of research calls.

## Model

| member | source | states |
|---|---|---|
| Helpers.GetNotesFromToolCalls | src/helpers.py:13-16 | the notes are the contents of the tool messages only, never more of them than there are messages |
| Helpers.NotesOfOne | src/helpers.py:16 | a single message contributes its content exactly when it is a tool message |
| Helpers.NotesConcat | src/helpers.py:16 | notes(a + b) == notes(a) + notes(b), so the original order is kept |
| Helpers.NotesEmptyIff | src/helpers.py:16 | the notes are empty exactly when no message is a tool message |
| Messages.LastToolCalls | src/nodes/supervisor_node.py:80-84 | reading the last message's tool calls succeeds exactly when the history is non-empty and ends with a model message; the result is that message's calls |
| Messages.FilterMessages | src/helpers.py:16 | the filtered list is no longer than the input and holds only messages of the requested types |
| Messages.FilterConcat | src/nodes/researcher_node.py:94-97 | filtering distributes over concatenation |
| Messages.FilterNoneIff | src/helpers.py:16 | filtering yields nothing exactly when no message has a requested type |
| ToolDefinitions.ThinkTool | src/tools/supervisor_tools.py:28-39 | the result is the 21-character prefix `Reflection recorded: ` followed by the reflection, so its length is the reflection's plus 21 |
| ToolDefinitions.ThinkToolRoundTrip | src/tools/supervisor_tools.py:39 | the reflection can be recovered from the result |
| ToolDefinitions.ThinkToolInjective | src/tools/supervisor_tools.py:39 | distinct reflections give distinct results |
| ToolDefinitions.InvokeThinkTool | src/tools/supervisor_tools.py:27-39 | a call succeeds exactly when its arguments carry `reflection`, and then returns the think result |
| ToolDefinitions.ResearchTopicOf | src/tools/supervisor_tools.py:6-14 | the topic is the `research_topic` argument; a missing one raises KeyError |
| SupervisorStates.NewCritique | src/states/supervisor_state.py:27-42 | a new critique is not addressed |
| SupervisorStates.MergeConcatenates | src/states/supervisor_state.py:69-77 | raw notes, knowledge base, critiques and quality history merge by concatenation |
| SupervisorStates.MergeNeverShrinks | src/states/supervisor_state.py:69-77 | those four lists are prefixes of their merged values, so they never get shorter |
| SupervisorStates.MergeEmptyRawNotes | src/states/supervisor_state.py:69 | merging `raw_notes: []` leaves the buffer unchanged |
| SupervisorStates.MergeOverwrites | src/states/supervisor_state.py:64-81 | brief, draft, counter and repair flag take the written value or keep the old one |
| SupervisorStates.MergeAppendsMessages | src/states/supervisor_state.py:61 | the history merges by appending |
| SupervisorStates.MergeNoUpdate | src/states/supervisor_state.py:55-81 | the empty update changes nothing |
| SupervisorStates.MergeOrderIrrelevant | src/states/supervisor_state.py:55-81 | two updates that share no key except the history give the same state in either order, apart from the order of their messages |
| ResearcherStates.Output | src/states/researcher_state.py:22-25 | the output exposes the compressed research, the raw notes and the history of the final state |
| ResearcherStates.MergeResearcherAppends | src/states/researcher_state.py:10-18 | history and raw notes merge by appending |
| ResearcherStates.MergeResearcherOverwrites | src/states/researcher_state.py:11-15 | topic, compressed research and counter merge by overwrite |
| ResearcherNode.LlmCallContext | src/nodes/researcher_node.py:27 | the model sees the system prompt, then the worker's history |
| ResearcherNode.LlmCall | src/nodes/researcher_node.py:20-30 | the update appends exactly the model's one response and writes nothing else |
| ResearcherNode.ShouldContinueRoutes | src/nodes/researcher_node.py:62-72 | the route is `tool_node` exactly when the last message has a tool call, otherwise `compress_research` |
| ResearcherNode.FirstUnknownTool | src/nodes/researcher_node.py:38-45 | it finds the first call whose name is not a bound tool, and finds none exactly when every name is bound |
| ResearcherNode.ToolNode | src/nodes/researcher_node.py:33-59 | one tool message per call, in call order, with the call's name and id and that call's observation; an unbound name raises KeyError; a history whose last message is not the model's fails |
| ResearcherNode.ResearchNotesConcat | src/nodes/researcher_node.py:93-98 | the raw-note contents distribute over the history |
| ResearcherNode.ResearchNotesOfOne | src/nodes/researcher_node.py:93-98 | a tool or model message contributes its content; human and system messages contribute nothing |
| ResearcherNode.CompressResearch | src/nodes/researcher_node.py:75-104 | the compressed research is the compressor's answer to system prompt, history and closing human prompt; raw notes are one string, the newline-join of the tool and model contents; nothing else is written |
| ResearcherNode.NoNodeWritesToolCallIterations | src/states/researcher_state.py:11 | no researcher node writes `tool_call_iterations` |
| ContextPruningNode.PromptNotes | src/nodes/context_pruning_node.py:28-35 | the prompt carries a prefix of at most 20000 characters of the joined notes, all of them when they fit |
| ContextPruningNode.ContextPruning | src/nodes/context_pruning_node.py:15-72 | empty notes give the empty update; otherwise `raw_notes` is written as `[]`, the knowledge base receives the extracted facts (or none on failure), and one system message reports the count or the error |
| ContextPruningNode.FailureIsLogged | src/nodes/context_pruning_node.py:57-61 | a failed extraction adds no fact and logs a message starting with the failure prefix |
| ContextPruningNode.OnlyPromptNotesMatter | src/nodes/context_pruning_node.py:28-35 | two buffers with the same first 20000 characters give the same update |
| ContextPruningNode.LaterNotesUnseen | src/nodes/context_pruning_node.py:28-35 | once the joined notes reach 20000 characters, appending more notes does not change the update |
| ContextPruningNode.PruningLeavesOtherFields | src/nodes/context_pruning_node.py:66-71 | the update never writes the draft, the critiques, the counter, the brief, the scores or the flag |
| ContextPruningNode.PruningKeepsBuffer | src/nodes/context_pruning_node.py:66-68 | after the merge the buffer is unchanged and the knowledge base has grown by exactly the extracted facts |
| RedTeamNode.RedTeam | src/nodes/red_team_node.py:9-64 | a draft under 50 characters, or a short `PASS` answer, gives the empty update; otherwise exactly one unaddressed critique (author `Red Team Adversary`, severity 8, concern the answer) and one warning message are added |
| RedTeamNode.ShortDraftNoCritique | src/nodes/red_team_node.py:19-20 | a draft shorter than 50 characters is never critiqued |
| RedTeamNode.LongPassStillCritiques | src/nodes/red_team_node.py:46-55 | an answer containing `PASS` that is 20 characters or longer still produces a critique |
| RedTeamNode.ShortPassIsPass | src/nodes/red_team_node.py:46-47 | any answer under 20 characters that contains `PASS` gives the empty update |
| RedTeamNode.CritiqueMatchesMessage | src/nodes/red_team_node.py:50-63 | the warning message is the feedback prefix followed by the critique's concern |
| RedTeamNode.RedTeamWritesOnlyCritiquesAndMessages | src/nodes/red_team_node.py:59-64 | the update writes only the critiques and the history |
| SupervisorNode.Unaddressed | src/nodes/supervisor_node.py:39 | the selected critiques are all unaddressed, and there are no more of them than critiques |
| SupervisorNode.UnaddressedOfOne | src/nodes/supervisor_node.py:39 | a single critique is selected exactly when it is not addressed |
| SupervisorNode.UnaddressedConcat | src/nodes/supervisor_node.py:39 | the selection distributes over concatenation, keeping order |
| SupervisorNode.UnaddressedEmptyIff | src/nodes/supervisor_node.py:39-40 | nothing is selected exactly when every critique is addressed |
| SupervisorNode.CritiqueLines | src/nodes/supervisor_node.py:41 | one line `- author says: concern` per critique, in order |
| SupervisorNode.SupervisorContext | src/nodes/supervisor_node.py:26-55 | the system prompt, then the history; then the intervention when some critique is unaddressed; last the low-quality warning when the flag is set |
| SupervisorNode.SupervisorUpdate | src/nodes/supervisor_node.py:63-69 | the update writes exactly one message, the counter plus one and the flag cleared |
| SupervisorNode.Supervisor | src/nodes/supervisor_node.py:20-70 | the node's update is the update for the model's answer to that context |
| SupervisorNode.ExitNotes | src/nodes/supervisor_node.py:92-93 | one `content (Confidence: score)` line per fact, in order; the tool-message notes when the knowledge base is empty |
| SupervisorNode.CallsNamed | src/nodes/supervisor_node.py:99-101 | the selected calls all carry the given name |
| SupervisorNode.CallsNamedConcat | src/nodes/supervisor_node.py:99-101 | the selection distributes over concatenation |
| SupervisorNode.ThinkMessagesSpec | src/nodes/supervisor_node.py:109-111 | the think calls succeed exactly when each has a reflection; then one think result per call, in order, with the call's id |
| SupervisorNode.ResearchTopicsSpec | src/nodes/supervisor_node.py:117 | the topics are read exactly when each research call has one; one topic per call, in order |
| SupervisorNode.ResearchInput | src/nodes/supervisor_node.py:117 | the topic is both the sub-graph's only opening message and its topic; notes and summary start empty |
| SupervisorNode.ResearchResults | src/nodes/supervisor_node.py:117-120 | one sub-graph output per topic, in call order |
| SupervisorNode.ConcatAllSingletons | src/nodes/supervisor_node.py:121-127 | when every output has one raw note, the collected notes are those notes, one per output, in order |
| SupervisorNode.AverageBelowThreshold | src/nodes/supervisor_node.py:137-145 | the average is below 7 exactly when comprehensiveness plus accuracy is below 14; coherence plays no part |
| SupervisorNode.RunThinkCalls | src/nodes/supervisor_node.py:109-111 | the loop over think calls computes the think results or the first failure |
| SupervisorNode.CollectTopics | src/nodes/supervisor_node.py:117 | the loop reads every research topic, or raises at the first missing one |
| SupervisorNode.CollectResearch | src/nodes/supervisor_node.py:121-127 | the loop adds one message per research call (its summary, name and id) and extends the notes by each output's notes |
| SupervisorNode.RunRefineCalls | src/nodes/supervisor_node.py:130-145 | the loop adds one scored message per refine call, keeps the last draft and last metric, and raises the flag on a low score |
| SupervisorNode.SupervisorTools | src/nodes/supervisor_node.py:73-153 | the node computes the exit, the error or the fan-out update of its specification |
| SupervisorNode.ToolsExitIff | src/nodes/supervisor_node.py:83-96 | the node goes to END exactly when the counter is at 5 or more, the last message has no calls, or some call is `ResearchComplete`; the exit carries only the notes and the brief |
| SupervisorNode.ExitRunsNothing | src/nodes/supervisor_node.py:88-96 | on exit no pending call runs: the result does not depend on any collaborator |
| SupervisorNode.ToolsErrorCases | src/nodes/supervisor_node.py:80-117 | the node raises exactly when the history is empty or does not end with a model message, or (when not exiting) a think call lacks its reflection or a research call its topic |
| SupervisorNode.ToolMessagesInOrder | src/nodes/supervisor_node.py:99-141 | the tool messages are the think results, then one per research call in call order, then one per refine call, each with its call's name and id |
| SupervisorNode.ThinkResultsFirst | src/nodes/supervisor_node.py:109-111 | the first messages are the think results, one per think call, in call order |
| SupervisorNode.ResearchResultsNext | src/nodes/supervisor_node.py:117-124 | after them comes one message per research call, in call order, carrying that call's sub-graph summary |
| SupervisorNode.RefineResultsLast | src/nodes/supervisor_node.py:130-141 | last comes one message per refine call, carrying the report of that call's verdict |
| SupervisorNode.OtherCallsIgnored | src/nodes/supervisor_node.py:99-101 | inserting a call under any other name changes nothing |
| SupervisorNode.RawNotesFromResearch | src/nodes/supervisor_node.py:121-127 | the raw notes written are the outputs' notes concatenated in call order, empty without research calls, one per call when each output has one note |
| SupervisorNode.DraftFromLastRefine | src/nodes/supervisor_node.py:130-141 | the draft written is the last refine call's new draft, else the unchanged prior draft; every refine call gets the state's own draft |
| SupervisorNode.QualityBookkeeping | src/nodes/supervisor_node.py:137-145 | only the last refine metric is recorded, stamped with the state's counter; the flag is written True exactly when some refine scored below 7, and never False |
| SupervisorNode.FanOutTargetsAndKeys | src/nodes/supervisor_node.py:148-153 | a round that does not exit goes to both correction branches, `red_team` first, and writes only the history, the notes, the draft, the scores and the flag |
| GraphEngine.StaticSuccessors | src/graphs/supervisor_graph.py:29-41 | the successors of a node are exactly the targets of its static edges |
| ResearcherGraph.NextAfterLlmCall | src/graphs/researcher_graph.py:25-32 | the conditional edge leads to `tool_node` exactly when the last message has calls, and only to one of the two mapped nodes |
| ResearcherGraph.EntryIsLlmCall | src/graphs/researcher_graph.py:22 | the sub-graph is entered at `llm_call` |
| ResearcherGraph.ConditionalTargets | src/graphs/researcher_graph.py:25-32 | the conditional map sends each route to the node of the same name, and there are exactly two |
| ResearcherGraph.LoopAndExitEdges | src/graphs/researcher_graph.py:35-38 | `tool_node` always returns to `llm_call`; `compress_research` is the only node that reaches END |
| ResearcherGraph.FinishedRunNotes | src/graphs/researcher_graph.py:14-41 | a finished run extends the history and adds exactly one raw note, the join of its tool and model contents |
| ResearcherGraph.RunKeepsCounterAndTopic | src/graphs/researcher_graph.py:25-35 | the counter, the topic and the notes are untouched by the `llm_call`/`tool_node` cycle |
| ResearcherGraph.NoRoundBound | src/graphs/researcher_graph.py:25-35 | a model that always asks for a search keeps the run going for any number of rounds: no counter bounds the cycle |
| SupervisorGraph.EntryAndPlanEdges | src/graphs/supervisor_graph.py:29-32 | the loop is entered at `supervisor`, which is always followed by `supervisor_tools` |
| SupervisorGraph.CorrectionsReturn | src/graphs/supervisor_graph.py:38-41 | both correction branches return to `supervisor` |
| SupervisorGraph.ToolsRoutesByCommand | src/graphs/supervisor_graph.py:34-36 | `supervisor_tools` has no static edge; its Command goes to END exactly on exit and to both correction branches otherwise; no static edge reaches END |
| SupervisorGraph.CycleAdvances | src/nodes/supervisor_node.py:67-83 | a round that does not stop advances the counter by one and leaves it below 5 |
| SupervisorGraph.RunIsBounded | src/nodes/supervisor_node.py:83-88 | the loop stops after at most five rounds from a zero counter, advancing the counter once per round |
| SupervisorGraph.CycleAppendOnly | src/states/supervisor_state.py:61-77 | within a round the history, notes, facts, critiques and scores only grow |
| SupervisorGraph.RunAppendOnly | src/states/supervisor_state.py:61-77 | over the whole loop those lists only grow; the notes buffer is never emptied |
| SupervisorGraph.CorrectionsEffect | src/nodes/context_pruning_node.py:66-71 | after both branches the buffer is what the pruner saw, the facts and the critique are appended, and draft, counter and flag are untouched |
| SupervisorGraph.CorrectionOrderIrrelevant | src/graphs/supervisor_graph.py:34-41 | the merge order of the two branches changes only the order of their messages |
| SupervisorGraph.LowScoreWarnsOnce | src/nodes/supervisor_node.py:54-68 | the flag survives a round exactly when a refine call scored below 7; the next context then ends with the warning, and the next `supervisor` clears the flag |
| SupervisorGraph.CritiquesPersist | src/nodes/supervisor_node.py:38-51 | unaddressed critiques stay unaddressed, so the intervention recurs in every later round |
| SupervisorGraph.ResearchGivesOneNote | src/nodes/supervisor_node.py:117-127 | a research sub-graph that finishes from the node's input hands back exactly one raw note, and its history starts with the topic |

## Left out

- Language-model, search and judge calls are parameters: data the model receives, one per call position. Prompts are parameters too, because src/prompts.py is not part of this model. `get_today_str` (the clock) is not modelled.
- `refine_draft_report` is imported from src/tools/supervisor_tools.py but is not defined among the files this model covers. It is a parameter that maps the request (brief, findings, draft) to the new draft.
- `evaluate_draft_quality` is the judge parameter. Its prompt is not modelled.
- Concurrency is not modelled. `asyncio.gather` over the research sub-graphs is modelled as sequential calls whose outputs are kept in call order, which is the order `gather` returns them. The engine's superstep scheduling of the two correction branches is a parameter, `prunerFirst`, that fixes their merge order. Every property about the corrections holds for both orders.
- `add_messages` is modelled as plain append. Its replacement of a message by one with the same id is not modelled.
- The `notes` key of the exit update is not a field of the supervisor state. An exit is therefore its own outcome carrying the notes and the brief; how the engine hands `notes` to the parent graph is not modelled.
- ResearcherGraph.Run: the research sub-graph has no bound on its rounds. Its run is modelled with a round budget, and a run that exhausts it is `Unfinished`.
- SupervisorNode.ToolsErrorCases: failures of the research sub-graphs are not propagated. The `research` collaborator is total and returns an output for every call. In the source, an exception inside a sub-graph, for example the `KeyError` of `tool_node` on an unbound tool name, propagates out of `asyncio.gather` and out of `supervisor_tools`. The error cases listed are therefore those of the node's own code only.
- Exceptions inside a model or tool call (network errors, schema validation of model output) are not modelled. The exception of the extraction call in the context pruner is the one that the source catches, and it is modelled.
- Text.HalfToString: `avg_score` is modelled as exactly half the integer sum. That is exact only while the sum's magnitude is below 2^53. Beyond that Python's float rounds the quotient, and past 10^16 it prints it in exponent notation; neither rounding is modelled.
- src/tools/researcher_tools.py (the Tavily client), src/config.py, src/models/hf_models.py and main.py are not part of this model: they are a network client, environment loading, a model factory and I/O.
- The linear stages are not part of this model: src/graphs/deep_research_graph.py, src/graphs/workflow_graph.py, the clarification, brief, draft and final-report nodes, and src/states/agent_state.py.
