/** The note-gathering helper shared by the supervisor nodes (src/helpers.py). */
module Helpers {
  import opened Messages

  /** `get_notes_from_tool_calls`: the content of every tool-result message, in order. */
  function GetNotesFromToolCalls(messages: seq<Message>): (r: seq<string>)
    ensures |r| <= |messages|
  {
    Contents(FilterMessages(messages, {"tool"}))
  }

  /** Notes of one message: its content if it is a tool result, nothing otherwise. */
  lemma NotesOfOne(m: Message)
    ensures GetNotesFromToolCalls([m]) == if m.ToolMessage? then [m.content] else []
  {
    FilterSingleton(m, {"tool"});
  }

  /** Gathering notes distributes over concatenation of histories (so their order is kept). */
  lemma NotesConcat(a: seq<Message>, b: seq<Message>)
    ensures GetNotesFromToolCalls(a + b) == GetNotesFromToolCalls(a) + GetNotesFromToolCalls(b)
  {
    FilterConcat(a, b, {"tool"});
    ContentsConcat(FilterMessages(a, {"tool"}), FilterMessages(b, {"tool"}));
  }

  /** A history yields no notes exactly when it holds no tool-result message. */
  lemma NotesEmptyIff(messages: seq<Message>)
    ensures GetNotesFromToolCalls(messages) == [] <==> forall i :: 0 <= i < |messages| ==> !messages[i].ToolMessage?
  {
    FilterNoneIff(messages, {"tool"});
  }
}
