/** The chat messages and tool calls exchanged with the language model. */
module Messages {
  import opened Wrappers

  /** A tool invocation requested by the model: its name, its arguments and its id. */
  datatype ToolCall = ToolCall(name: string, args: map<string, string>, id: string)

  /** Only an AI message carries tool calls; the other kinds have no such attribute. */
  datatype Message =
    | SystemMessage(content: string)
    | HumanMessage(content: string)
    | AIMessage(content: string, toolCalls: seq<ToolCall>)
    | ToolMessage(content: string, name: string, toolCallId: string)

  /** The Python exceptions the modelled code can raise. */
  datatype PyError =
    | IndexError
    | AttributeError(attribute: string)
    | KeyError(key: string)
    | ValidationError(field: string)

  /** The `type` tag that filtering by message type looks at. */
  function TypeOf(m: Message): string
  {
    match m
    case SystemMessage(_) => "system"
    case HumanMessage(_) => "human"
    case AIMessage(_, _) => "ai"
    case ToolMessage(_, _, _) => "tool"
  }

  /** `messages[-1]`. */
  function Last(messages: seq<Message>): (r: Result<Message, PyError>)
    ensures r.Ok? <==> |messages| > 0
    ensures r.Ok? ==> r.value == messages[|messages| - 1]
  {
    if |messages| == 0 then Err(IndexError) else Ok(messages[|messages| - 1])
  }

  /** `message.tool_calls`, which only an AI message has. */
  function ToolCallsOf(m: Message): Result<seq<ToolCall>, PyError>
  {
    if m.AIMessage? then Ok(m.toolCalls) else Err(AttributeError("tool_calls"))
  }

  /** `messages[-1].tool_calls`. */
  function LastToolCalls(messages: seq<Message>): (r: Result<seq<ToolCall>, PyError>)
    ensures r.Ok? <==> |messages| > 0 && messages[|messages| - 1].AIMessage?
    ensures r.Ok? ==> r.value == messages[|messages| - 1].toolCalls
  {
    match Last(messages)
    case Err(e) => Err(e)
    case Ok(m) => ToolCallsOf(m)
  }

  /** `filter_messages(messages, include_types=types)`: the messages of the given types, in order. */
  function FilterMessages(messages: seq<Message>, types: set<string>): (r: seq<Message>)
    ensures |r| <= |messages|
    ensures forall i :: 0 <= i < |r| ==> TypeOf(r[i]) in types
  {
    if |messages| == 0 then []
    else (if TypeOf(messages[0]) in types then [messages[0]] else []) + FilterMessages(messages[1..], types)
  }

  /** The `content` of each message, in order. */
  function Contents(messages: seq<Message>): (r: seq<string>)
    ensures |r| == |messages|
    ensures forall i :: 0 <= i < |r| ==> r[i] == messages[i].content
  {
    seq(|messages|, i requires 0 <= i < |messages| => messages[i].content)
  }

  lemma {:induction false} FilterConcat(a: seq<Message>, b: seq<Message>, types: set<string>)
    ensures FilterMessages(a + b, types) == FilterMessages(a, types) + FilterMessages(b, types)
  {
    if |a| > 0 {
      assert (a + b)[0] == a[0];
      assert (a + b)[1..] == a[1..] + b;
      FilterConcat(a[1..], b, types);
    } else {
      assert a + b == b;
    }
  }

  lemma FilterSingleton(m: Message, types: set<string>)
    ensures FilterMessages([m], types) == if TypeOf(m) in types then [m] else []
  {
    assert [m][1..] == [];
  }

  lemma {:induction false} FilterNoneIff(messages: seq<Message>, types: set<string>)
    ensures FilterMessages(messages, types) == [] <==> forall i :: 0 <= i < |messages| ==> TypeOf(messages[i]) !in types
  {
    if |messages| > 0 {
      FilterNoneIff(messages[1..], types);
      forall i | 1 <= i < |messages| ensures messages[i] == messages[1..][i - 1] { }
    }
  }

  lemma ContentsConcat(a: seq<Message>, b: seq<Message>)
    ensures Contents(a + b) == Contents(a) + Contents(b)
  {
  }
}
