/** The messages of an LLM request, and the buffer a run of the tool loop starts from. */
module Messages {
  import opened SessionLog

  /** The string-valued fields of a call's JSON arguments; any other field reads as absent. */
  type Arguments = map<string, string>

  datatype ToolCall = ToolCall(id: string, name: string, arguments: Arguments)

  datatype Message =
    | UserMessage(content: string)
    | AssistantMessage(text: string, toolCalls: seq<ToolCall>)
    | ToolResult(toolUseId: string, content: string, isError: bool)

  /** System turns are not sent. */
  function HistoryMessages(history: seq<Turn>): seq<Message> {
    if history == [] then []
    else
      (match history[0].role
       case User => [UserMessage(history[0].content)]
       case Assistant => [AssistantMessage(history[0].content, [])]
       case System => [])
      + HistoryMessages(history[1..])
  }

  function InitialMessages(history: seq<Turn>, input: string): seq<Message> {
    HistoryMessages(history) + [UserMessage(input)]
  }

  /** User and Assistant strictly alternate, beginning and ending with User. */
  predicate Alternates(ms: seq<Message>) {
    && |ms| % 2 == 1
    && forall i :: 0 <= i < |ms| ==> if i % 2 == 0 then ms[i].UserMessage? else ms[i].AssistantMessage?
  }

  predicate Paired(history: seq<Turn>) {
    && |history| % 2 == 0
    && forall i :: 0 <= i < |history| ==> history[i].role == if i % 2 == 0 then User else Assistant
  }

  /** An optional System turn followed by User/Assistant pairs. */
  predicate Shaped(history: seq<Turn>) {
    Paired(history) || (history != [] && history[0].role.System? && Paired(history[1..]))
  }

  lemma {:induction false} PairedMessages(history: seq<Turn>)
    requires Paired(history)
    ensures |HistoryMessages(history)| == |history|
    ensures forall i :: 0 <= i < |history| ==>
              HistoryMessages(history)[i] ==
              if i % 2 == 0 then UserMessage(history[i].content) else AssistantMessage(history[i].content, [])
  {
    if history != [] {
      assert |history| >= 2;
      var rest := history[1..];
      assert rest[0] == history[1] && rest[1..] == history[2..];
      assert HistoryMessages(rest) == [AssistantMessage(rest[0].content, [])] + HistoryMessages(rest[1..]);
      PairedMessages(history[2..]);
    }
  }

  /** The request built from a shaped history alternates and ends in the new user message. */
  lemma RequestAlternates(history: seq<Turn>, input: string)
    requires Shaped(history)
    ensures Alternates(InitialMessages(history, input))
    ensures var ms := InitialMessages(history, input); ms[|ms| - 1] == UserMessage(input)
  {
    if Paired(history) {
      PairedMessages(history);
    } else {
      PairedMessages(history[1..]);
      assert HistoryMessages(history) == [] + HistoryMessages(history[1..]);
    }
  }
}
