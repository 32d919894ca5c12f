/**
 * The provider-agnostic vocabulary shared by every adapter: the request a
 * caller hands to `streamConversation`, the events an adapter delivers to the
 * caller's handlers, and the final assistant message.
 */
module Conversation {
  import opened Wrappers

  /** A parsed JSON value. JSON text is never parsed by this model. */
  datatype Json =
    | JNull
    | JBool(b: bool)
    | JNumber(n: int)
    | JString(s: string)
    | JArray(items: seq<Json>)
    | JObject(fields: seq<(string, Json)>)

  /** One conversation turn as the app stores it. */
  datatype Message = Message(role: string, content: string)

  /** A tool the model may call; passed through to the vendor unchanged. */
  datatype ToolDefinition = ToolDefinition(name: string, description: string, inputSchema: Json)

  /**
   * The first argument of `streamConversation`. `promptType` and `tools` may be
   * left undefined by the caller.
   */
  datatype ConversationRequest = ConversationRequest(
    messages: seq<Message>,
    promptType: Option<string>,
    tools: Option<seq<ToolDefinition>>)

  /** Which of the optional handlers `onText`, `onToolUse`, `onMessage` the caller supplied. */
  datatype Handlers = Handlers(onText: bool, onToolUse: bool, onMessage: bool)

  datatype FinalMessage = FinalMessage(role: string, content: string, stopReason: string)

  /** One handler invocation, in the order the adapter performs them. */
  datatype Event =
    | TextDelta(text: string)
    | ToolUse(id: string, name: string, input: Json)
    | MessageComplete(message: FinalMessage)

  /** Why an invocation rejects. */
  datatype AdapterError =
    | MissingDefaultPrompt             // the prompt table has no entry for the default prompt type
    | InvalidToolArguments(arguments: string)  // `JSON.parse` threw on a buffered arguments string
    | NoLastMessage                    // the history is empty, so there is no last turn to send

  /** The message both adapters build once the vendor stream has ended. */
  function EndTurn(content: string): FinalMessage
  {
    FinalMessage("assistant", content, "end_turn")
  }

  /** The concatenation, in order, of the text of every `TextDelta` in a trace. */
  function ConcatText(trace: seq<Event>): string
  {
    if trace == [] then ""
    else ConcatText(trace[..|trace| - 1]) + (if trace[|trace| - 1].TextDelta? then trace[|trace| - 1].text else "")
  }

  /** The number of `onMessage` calls in a trace. */
  function MessageCount(trace: seq<Event>): nat
  {
    if trace == [] then 0
    else MessageCount(trace[..|trace| - 1]) + (if trace[|trace| - 1].MessageComplete? then 1 else 0)
  }

  /** The number of `onToolUse` calls in a trace. */
  function ToolUseCount(trace: seq<Event>): nat
  {
    if trace == [] then 0
    else ToolUseCount(trace[..|trace| - 1]) + (if trace[|trace| - 1].ToolUse? then 1 else 0)
  }

  lemma {:induction false} ConcatTextAppend(a: seq<Event>, b: seq<Event>)
    ensures ConcatText(a + b) == ConcatText(a) + ConcatText(b)
    decreases |b|
  {
    if b == [] {
      assert a + b == a;
    } else {
      var b' := b[..|b| - 1];
      assert (a + b)[..|a + b| - 1] == a + b';
      ConcatTextAppend(a, b');
    }
  }

  lemma {:induction false} MessageCountAppend(a: seq<Event>, b: seq<Event>)
    ensures MessageCount(a + b) == MessageCount(a) + MessageCount(b)
    decreases |b|
  {
    if b == [] {
      assert a + b == a;
    } else {
      var b' := b[..|b| - 1];
      assert (a + b)[..|a + b| - 1] == a + b';
      MessageCountAppend(a, b');
    }
  }

  lemma {:induction false} ToolUseCountAppend(a: seq<Event>, b: seq<Event>)
    ensures ToolUseCount(a + b) == ToolUseCount(a) + ToolUseCount(b)
    decreases |b|
  {
    if b == [] {
      assert a + b == a;
    } else {
      var b' := b[..|b| - 1];
      assert (a + b)[..|a + b| - 1] == a + b';
      ToolUseCountAppend(a, b');
    }
  }
}
