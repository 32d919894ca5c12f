/**
 * The Groq adapter's `streamConversation`. The vendor stream is a finite
 * sequence of chunks in arrival order. Text deltas are delivered and
 * concatenated as they arrive; tool-call fragments are buffered per vendor
 * `index` and delivered only after the stream has ended, in ascending index
 * order, each after `JSON.parse` of its buffered arguments.
 *
 * Optional string fields of a chunk are `string`s in which "" stands for
 * both an absent and an empty value: the adapter only ever tests them for
 * truthiness. The fragment `index` is an `Option`, because 0 is a valid index.
 */
module Groq {
  import opened Wrappers
  import opened Conversation
  import Config
  import Prompts

  // ---------------------------------------------------------------- the wire format

  /** One entry of `delta.tool_calls`; `name` and `arguments` are `function.name` and `function.arguments`. */
  datatype Fragment = Fragment(index: Option<nat>, id: string, name: string, arguments: string)

  datatype Delta = Delta(content: string, toolCalls: Option<seq<Fragment>>)

  datatype Choice = Choice(delta: Option<Delta>)

  datatype Chunk = Chunk(choices: seq<Choice>)

  /** `chunk.choices[0]?.delta` */
  function DeltaOf(c: Chunk): Option<Delta>
  {
    if |c.choices| > 0 then c.choices[0].delta else None
  }

  /** The text a chunk carries, "" when it carries none. */
  function ChunkText(c: Chunk): string
  {
    if DeltaOf(c).Some? then DeltaOf(c).value.content else ""
  }

  /** The tool-call fragments a chunk carries, in order. */
  function ChunkFragments(c: Chunk): seq<Fragment>
  {
    if DeltaOf(c).Some? && DeltaOf(c).value.toolCalls.Some? then DeltaOf(c).value.toolCalls.value else []
  }

  // ---------------------------------------------------------------- the request

  datatype RequestMessage = SystemMessage(content: Option<string>) | HistoryMessage(message: Message)

  /** `{type: 'function', function: t}` */
  datatype WrappedTool = WrappedTool(kind: string, definition: ToolDefinition)

  /** The argument of `groq.chat.completions.create`. */
  datatype ChatRequest = ChatRequest(
    model: string,
    maxTokens: int,
    messages: seq<RequestMessage>,
    tools: Option<seq<WrappedTool>>,
    stream: bool)

  function WrapTools(tools: seq<ToolDefinition>): (r: seq<WrappedTool>)
    ensures |r| == |tools|
    ensures forall i :: 0 <= i < |tools| ==> r[i] == WrappedTool("function", tools[i])
  {
    if tools == [] then [] else [WrappedTool("function", tools[0])] + WrapTools(tools[1..])
  }

  function HistoryMessages(messages: seq<Message>): (r: seq<RequestMessage>)
    ensures |r| == |messages|
    ensures forall i :: 0 <= i < |messages| ==> r[i] == HistoryMessage(messages[i])
  {
    if messages == [] then [] else [HistoryMessage(messages[0])] + HistoryMessages(messages[1..])
  }

  /**
   * The request: the system message first, then the history unchanged; no
   * tools when the caller gave none or an empty list, otherwise each tool
   * wrapped as a function tool, in order.
   */
  function BuildRequest(systemInstruction: Option<string>, req: ConversationRequest): (r: ChatRequest)
    ensures r.model == Config.ModelOf(Config.Groq) && r.maxTokens == Config.MaxTokens && r.stream
    ensures |r.messages| == |req.messages| + 1 && r.messages[0] == SystemMessage(systemInstruction)
    ensures forall i :: 0 <= i < |req.messages| ==> r.messages[i + 1] == HistoryMessage(req.messages[i])
    ensures r.tools.None? <==> req.tools.None? || req.tools.value == []
    ensures r.tools.Some? ==> |r.tools.value| == |req.tools.value|
    ensures r.tools.Some? ==> forall i :: 0 <= i < |req.tools.value| ==> r.tools.value[i] == WrappedTool("function", req.tools.value[i])
  {
    ChatRequest(
      Config.ModelOf(Config.Groq),
      Config.MaxTokens,
      [SystemMessage(systemInstruction)] + HistoryMessages(req.messages),
      if req.tools.Some? && |req.tools.value| > 0 then Some(WrapTools(req.tools.value)) else None,
      true)
  }

  // ---------------------------------------------------------------- text, specified

  /** The concatenation of every chunk's text, in arrival order. */
  function FullText(cs: seq<Chunk>): string
  {
    if cs == [] then "" else FullText(cs[..|cs| - 1]) + ChunkText(cs[|cs| - 1])
  }

  /** The `onText` calls the chunks cause: one per chunk with non-empty text, when the handler exists. */
  function TextEvents(cs: seq<Chunk>, onText: bool): seq<Event>
  {
    if cs == [] then []
    else TextEvents(cs[..|cs| - 1], onText)
         + (if onText && ChunkText(cs[|cs| - 1]) != "" then [TextDelta(ChunkText(cs[|cs| - 1]))] else [])
  }

  /** Every tool-call fragment of the stream, in arrival order, forgetting chunk boundaries. */
  function Fragments(cs: seq<Chunk>): seq<Fragment>
  {
    if cs == [] then [] else Fragments(cs[..|cs| - 1]) + ChunkFragments(cs[|cs| - 1])
  }

  // ---------------------------------------------------------------- the tool-call buffer, specified

  datatype ToolCallBuffer = ToolCallBuffer(id: string, name: string, arguments: string)

  /** The indices that some fragment names. */
  function IndicesOf(fs: seq<Fragment>): set<nat>
  {
    if fs == [] then {}
    else IndicesOf(fs[..|fs| - 1]) + (if fs[|fs| - 1].index.Some? then {fs[|fs| - 1].index.value} else {})
  }

  /** The concatenation of the `arguments` of index `k`'s fragments, in order. */
  function ArgsFor(fs: seq<Fragment>, k: nat): string
  {
    if fs == [] then ""
    else ArgsFor(fs[..|fs| - 1], k) + (if fs[|fs| - 1].index == Some(k) then fs[|fs| - 1].arguments else "")
  }

  /** The last non-empty `id` among index `k`'s fragments, "" if there is none. */
  function LastId(fs: seq<Fragment>, k: nat): string
  {
    if fs == [] then ""
    else if fs[|fs| - 1].index == Some(k) && fs[|fs| - 1].id != "" then fs[|fs| - 1].id
    else LastId(fs[..|fs| - 1], k)
  }

  /** The last non-empty `name` among index `k`'s fragments, "" if there is none. */
  function LastName(fs: seq<Fragment>, k: nat): string
  {
    if fs == [] then ""
    else if fs[|fs| - 1].index == Some(k) && fs[|fs| - 1].name != "" then fs[|fs| - 1].name
    else LastName(fs[..|fs| - 1], k)
  }

  /** What the `toolCalls` dictionary should hold after the fragments `fs`. */
  function Buffered(fs: seq<Fragment>): map<nat, ToolCallBuffer>
  {
    map k | k in IndicesOf(fs) :: ToolCallBuffer(LastId(fs, k), LastName(fs, k), ArgsFor(fs, k))
  }

  // ---------------------------------------------------------------- delivery, specified

  /** A least element of a non-empty set, found by removing elements one at a time. */
  ghost function LeastOf(s: set<nat>): (m: nat)
    requires s != {}
    ensures m in s && forall x :: x in s ==> m <= x
    decreases |s|
  {
    var y :| y in s;
    assert |s - {y}| == |s| - 1;
    if s - {y} == {} then
      assert forall x :: x in s ==> x == y || x in s - {y};
      y
    else
      var m := LeastOf(s - {y});
      assert forall x :: x in s ==> x == y || x in s - {y};
      if y < m then y else m
  }

  /** The least element of a non-empty set. */
  function Minimum(s: set<nat>): (m: nat)
    requires s != {}
    ensures m in s && forall x :: x in s ==> m <= x
  {
    assert LeastOf(s) in s && forall x :: x in s ==> LeastOf(s) <= x;
    var m :| m in s && forall x :: x in s ==> m <= x;
    m
  }

  /** The order in which `for (const index in toolCalls)` visits integer keys: ascending. */
  function SortedKeys(s: set<nat>): (ks: seq<nat>)
    ensures |ks| == |s|
    ensures forall k :: k in ks <==> k in s
    ensures forall i, j :: 0 <= i < j < |ks| ==> ks[i] < ks[j]
    decreases |s|
  {
    if s == {} then []
    else
      var m := Minimum(s);
      var rest := SortedKeys(s - {m});
      SortedCons(m, rest, s);
      [m] + rest
  }

  /** The least key followed by the other keys in ascending order is all the keys in ascending order. */
  lemma SortedCons(m: nat, rest: seq<nat>, s: set<nat>)
    requires m in s && forall x :: x in s ==> m <= x
    requires |rest| == |s - {m}| && forall k :: k in rest <==> k in s - {m}
    requires forall i, j :: 0 <= i < j < |rest| ==> rest[i] < rest[j]
    ensures |[m] + rest| == |s|
    ensures forall k :: k in [m] + rest <==> k in s
    ensures forall i, j :: 0 <= i < j < |[m] + rest| ==> ([m] + rest)[i] < ([m] + rest)[j]
  {
    assert |s - {m}| == |s| - 1;
    forall i | 0 <= i < |rest|
      ensures m < rest[i]
    {
      assert rest[i] in s - {m};
    }
  }

  /** The events of the flush loop so far, and the error if a `JSON.parse` threw. */
  datatype Flush = Flush(events: seq<Event>, failure: Option<AdapterError>)

  /** The flush loop over the keys `ks`, stopping at the first arguments string that does not parse. */
  function Deliver(calls: map<nat, ToolCallBuffer>, ks: seq<nat>, onToolUse: bool, parse: string -> Option<Json>): Flush
    requires forall i :: 0 <= i < |ks| ==> ks[i] in calls
  {
    if ks == [] then Flush([], None)
    else
      var prev := Deliver(calls, ks[..|ks| - 1], onToolUse, parse);
      var call := calls[ks[|ks| - 1]];
      if prev.failure.Some? || !onToolUse then prev
      else match parse(call.arguments)
        case None => Flush(prev.events, Some(InvalidToolArguments(call.arguments)))
        case Some(input) => Flush(prev.events + [ToolUse(call.id, call.name, input)], None)
  }

  /** The flush loop after the whole stream: every buffered call, in ascending index order. */
  function Flushed(chunks: seq<Chunk>, onToolUse: bool, parse: string -> Option<Json>): Flush
  {
    var calls := Buffered(Fragments(chunks));
    Deliver(calls, SortedKeys(calls.Keys), onToolUse, parse)
  }

  /** One `streamConversation` call: the request sent (if any), the handler calls made, and how it settles. */
  datatype Invocation = Invocation(request: Option<ChatRequest>, trace: seq<Event>, result: Result<FinalMessage, AdapterError>)

  /** What a `streamConversation` call over `chunks` does, as a function of its inputs. */
  function StreamOutcome(req: ConversationRequest, handlers: Handlers, prompts: Prompts.PromptTable,
                         chunks: seq<Chunk>, parse: string -> Option<Json>): (r: Invocation)
    ensures r.request.None? <==> Prompts.GetSystemPrompt(prompts, Prompts.PromptTypeOf(req)).Failure?
    ensures r.request.None? ==> r.trace == [] && r.result == Failure(MissingDefaultPrompt)
  {
    var system := Prompts.GetSystemPrompt(prompts, Prompts.PromptTypeOf(req));
    if system.Failure? then Invocation(None, [], Failure(system.error))
    else Settled(BuildRequest(system.value, req), handlers, chunks, parse)
  }

  /** How an invocation whose request was sent settles once the stream has ended. */
  function Settled(request: ChatRequest, handlers: Handlers, chunks: seq<Chunk>, parse: string -> Option<Json>): (r: Invocation)
    ensures r.request == Some(request)
    ensures TextEvents(chunks, handlers.onText) <= r.trace
    ensures r.result.Failure? <==> Flushed(chunks, handlers.onToolUse, parse).failure.Some?
  {
    SettledWith(request, handlers, FullText(chunks), TextEvents(chunks, handlers.onText), Flushed(chunks, handlers.onToolUse, parse))
  }

  /** The settling step given the accumulated text, the text deltas already delivered, and the flush. */
  function SettledWith(request: ChatRequest, handlers: Handlers, text: string, texts: seq<Event>, flush: Flush): (r: Invocation)
    ensures r.request == Some(request)
    ensures texts + flush.events <= r.trace
    ensures r.result.Failure? <==> flush.failure.Some?
    ensures r.result.Success? ==> r.result.value == EndTurn(text)
  {
    if flush.failure.Some? then Invocation(Some(request), texts + flush.events, Failure(flush.failure.value))
    else
      var final := EndTurn(text);
      Invocation(Some(request), texts + flush.events + (if handlers.onMessage then [MessageComplete(final)] else []),
                 Success(final))
  }

  // ---------------------------------------------------------------- the adapter

  /** The adapter's `streamConversation` over a finite vendor stream. */
  method StreamConversation(req: ConversationRequest, handlers: Handlers, prompts: Prompts.PromptTable,
                            chunks: seq<Chunk>, parse: string -> Option<Json>)
    returns (out: Invocation)
    ensures out == StreamOutcome(req, handlers, prompts, chunks, parse)
  {
    var systemInstruction := Prompts.GetSystemPrompt(prompts, Prompts.PromptTypeOf(req));
    if systemInstruction.Failure? {
      return Invocation(None, [], Failure(systemInstruction.error));
    }
    var request := BuildRequest(systemInstruction.value, req);

    var fullResponseText := "";
    var toolCalls: map<nat, ToolCallBuffer> := map[];
    var trace: seq<Event> := [];

    var i := 0;
    while i < |chunks|
      invariant 0 <= i <= |chunks|
      invariant fullResponseText == FullText(chunks[..i])
      invariant trace == TextEvents(chunks[..i], handlers.onText)
      invariant toolCalls == Buffered(Fragments(chunks[..i]))
    {
      assert chunks[..i + 1] == chunks[..i] + [chunks[i]];
      fullResponseText, trace, toolCalls := AbsorbChunk(chunks[i], handlers.onText, chunks[..i], fullResponseText, trace, toolCalls);
      i := i + 1;
    }
    assert chunks[..i] == chunks;
    var keys := SortedKeys(toolCalls.Keys);
    assert Flushed(chunks, handlers.onToolUse, parse) == Deliver(toolCalls, keys, handlers.onToolUse, parse);
    out := Settle(request, handlers, parse, fullResponseText, trace, toolCalls, keys);
  }

  /** After the stream: flush the buffered calls in the order `keys` gives, then settle with the end-turn message. */
  method Settle(request: ChatRequest, handlers: Handlers, parse: string -> Option<Json>,
                fullResponseText: string, texts: seq<Event>, toolCalls: map<nat, ToolCallBuffer>, keys: seq<nat>)
    returns (out: Invocation)
    requires forall i :: 0 <= i < |keys| ==> keys[i] in toolCalls
    ensures out == SettledWith(request, handlers, fullResponseText, texts, Deliver(toolCalls, keys, handlers.onToolUse, parse))
  {
    var toolUses, failure := FlushToolCalls(toolCalls, keys, handlers.onToolUse, parse);
    var trace := texts + toolUses;
    if failure.Some? {
      return Invocation(Some(request), trace, Failure(failure.value));
    }

    var finalMessage := EndTurn(fullResponseText);
    if handlers.onMessage {
      trace := trace + [MessageComplete(finalMessage)];
    }
    return Invocation(Some(request), trace, Success(finalMessage));
  }

  /** One chunk: its text goes to `onText` and onto the text, its fragments into the buffer. */
  method AbsorbChunk(chunk: Chunk, onText: bool, ghost before: seq<Chunk>,
                     text: string, events: seq<Event>, toolCalls: map<nat, ToolCallBuffer>)
    returns (text': string, events': seq<Event>, toolCalls': map<nat, ToolCallBuffer>)
    requires text == FullText(before) && events == TextEvents(before, onText)
    requires toolCalls == Buffered(Fragments(before))
    ensures text' == FullText(before + [chunk]) && events' == TextEvents(before + [chunk], onText)
    ensures toolCalls' == Buffered(Fragments(before + [chunk]))
  {
    ChunkStep(before, chunk, onText);
    text', events', toolCalls' := text, events, toolCalls;
    var delta := DeltaOf(chunk);
    if delta.Some? && delta.value.content != "" {
      if onText {
        events' := events' + [TextDelta(delta.value.content)];
      }
      text' := text' + delta.value.content;
    }
    if delta.Some? && delta.value.toolCalls.Some? {
      toolCalls' := AbsorbToolCalls(toolCalls', delta.value.toolCalls.value, Fragments(before));
    } else {
      assert Fragments(before + [chunk]) == Fragments(before);
    }
  }

  /** What one more chunk adds to the text, the text events and the fragments. */
  lemma ChunkStep(cs: seq<Chunk>, c: Chunk, onText: bool)
    ensures FullText(cs + [c]) == FullText(cs) + ChunkText(c)
    ensures TextEvents(cs + [c], onText)
            == TextEvents(cs, onText) + (if onText && ChunkText(c) != "" then [TextDelta(ChunkText(c))] else [])
    ensures Fragments(cs + [c]) == Fragments(cs) + ChunkFragments(c)
  {
    assert (cs + [c])[..|cs|] == cs;
    assert (cs + [c])[|cs|] == c;
  }

  /**
   * The `for (const toolCall of delta.tool_calls)` loop of one chunk: each
   * fragment with an index creates its entry if needed, overwrites `id` and
   * `name` when they are truthy and appends truthy `arguments`.
   */
  method AbsorbToolCalls(toolCalls: map<nat, ToolCallBuffer>, fragments: seq<Fragment>, ghost before: seq<Fragment>)
    returns (updated: map<nat, ToolCallBuffer>)
    requires toolCalls == Buffered(before)
    ensures updated == Buffered(before + fragments)
  {
    updated := toolCalls;
    var j := 0;
    assert before + fragments[..0] == before;
    while j < |fragments|
      invariant 0 <= j <= |fragments|
      invariant updated == Buffered(before + fragments[..j])
    {
      var toolCall := fragments[j];
      ghost var seen := before + fragments[..j];
      BufferedStep(seen, toolCall);
      if toolCall.index.Some? {
        var index := toolCall.index.value;
        var entry := if index in updated then updated[index] else ToolCallBuffer("", "", "");
        if toolCall.id != "" {
          entry := entry.(id := toolCall.id);
        }
        if toolCall.name != "" {
          entry := entry.(name := toolCall.name);
        }
        if toolCall.arguments != "" {
          entry := entry.(arguments := entry.arguments + toolCall.arguments);
        } else {
          assert entry.arguments + toolCall.arguments == entry.arguments;
        }
        updated := updated[index := entry];
      }
      assert updated == Buffered(seen + [toolCall]);
      assert seen + [toolCall] == before + fragments[..j + 1];
      j := j + 1;
    }
    assert fragments[..j] == fragments;
  }

  /**
   * The `for (const index in toolCalls)` loop after the stream, over the
   * keys in the order JavaScript enumerates them: each buffered call parsed and passed to `onToolUse` when
   * the handler exists; a `JSON.parse` failure ends the loop with the error.
   */
  method FlushToolCalls(toolCalls: map<nat, ToolCallBuffer>, keys: seq<nat>, onToolUse: bool, parse: string -> Option<Json>)
    returns (events: seq<Event>, failure: Option<AdapterError>)
    requires forall i :: 0 <= i < |keys| ==> keys[i] in toolCalls
    ensures Flush(events, failure) == Deliver(toolCalls, keys, onToolUse, parse)
  {
    events := [];
    var k := 0;
    while k < |keys|
      invariant 0 <= k <= |keys|
      invariant forall i :: 0 <= i < k ==> keys[..k][i] in toolCalls
      invariant Deliver(toolCalls, keys[..k], onToolUse, parse) == Flush(events, None)
    {
      assert keys[..k + 1][..k] == keys[..k];
      var toolCall := toolCalls[keys[k]];
      if onToolUse {
        var input := parse(toolCall.arguments);
        if input.None? {
          FailureStops(toolCalls, keys, k + 1, onToolUse, parse);
          return events, Some(InvalidToolArguments(toolCall.arguments));
        }
        events := events + [ToolUse(toolCall.id, toolCall.name, input.value)];
      }
      k := k + 1;
    }
    assert keys[..k] == keys;
    failure := None;
  }

  /** Once a key's arguments failed to parse, later keys change nothing. */
  lemma {:induction false} FailureStops(calls: map<nat, ToolCallBuffer>, ks: seq<nat>, n: nat,
                                        onToolUse: bool, parse: string -> Option<Json>)
    requires n <= |ks| && forall i :: 0 <= i < |ks| ==> ks[i] in calls
    requires Deliver(calls, ks[..n], onToolUse, parse).failure.Some?
    ensures Deliver(calls, ks, onToolUse, parse) == Deliver(calls, ks[..n], onToolUse, parse)
    decreases |ks| - n
  {
    if n < |ks| {
      assert ks[..n + 1][..n] == ks[..n];
      FailureStops(calls, ks, n + 1, onToolUse, parse);
    } else {
      assert ks[..n] == ks;
    }
  }

  // ---------------------------------------------------------------- the buffer: one fragment at a time

  lemma {:induction false} UnseenIndexIsEmpty(fs: seq<Fragment>, k: nat)
    requires k !in IndicesOf(fs)
    ensures LastId(fs, k) == "" && LastName(fs, k) == "" && ArgsFor(fs, k) == ""
    decreases |fs|
  {
    if fs != [] {
      UnseenIndexIsEmpty(fs[..|fs| - 1], k);
    }
  }

  /**
   * A fragment without an index leaves the buffer as it was; a fragment with
   * index `k` first creates `{id: '', name: '', arguments: ''}` if `k` is new,
   * then replaces `id` and `name` only by non-empty values and appends its
   * `arguments`; every other index is left as it was.
   */
  lemma BufferedStep(fs: seq<Fragment>, f: Fragment)
    ensures f.index.None? ==> Buffered(fs + [f]) == Buffered(fs)
    ensures f.index.Some? ==>
      var k := f.index.value;
      var b := if k in Buffered(fs) then Buffered(fs)[k] else ToolCallBuffer("", "", "");
      Buffered(fs + [f]) == Buffered(fs)[k := ToolCallBuffer(
        if f.id != "" then f.id else b.id,
        if f.name != "" then f.name else b.name,
        b.arguments + f.arguments)]
  {
    var fs' := fs + [f];
    assert fs'[..|fs'| - 1] == fs;
    assert IndicesOf(fs') == IndicesOf(fs) + (if f.index.Some? then {f.index.value} else {});
    if f.index.None? {
      forall k | k in IndicesOf(fs)
        ensures Buffered(fs')[k] == Buffered(fs)[k]
      {
        assert ArgsFor(fs', k) == ArgsFor(fs, k);
        assert LastId(fs', k) == LastId(fs, k);
        assert LastName(fs', k) == LastName(fs, k);
      }
    } else {
      var k := f.index.value;
      if k !in IndicesOf(fs) {
        UnseenIndexIsEmpty(fs, k);
      }
      var b := if k in Buffered(fs) then Buffered(fs)[k] else ToolCallBuffer("", "", "");
      var expected := Buffered(fs)[k := ToolCallBuffer(
        if f.id != "" then f.id else b.id,
        if f.name != "" then f.name else b.name,
        b.arguments + f.arguments)];
      forall j | j in IndicesOf(fs')
        ensures Buffered(fs')[j] == expected[j]
      {
        assert ArgsFor(fs', j) == ArgsFor(fs, j) + (if j == k then f.arguments else "");
        if j != k {
          assert LastId(fs', j) == LastId(fs, j);
          assert LastName(fs', j) == LastName(fs, j);
        }
      }
      assert Buffered(fs').Keys == expected.Keys;
    }
  }

  // ---------------------------------------------------------------- fragmentation is invisible

  lemma {:induction false} FragmentsAppend(a: seq<Chunk>, b: seq<Chunk>)
    ensures Fragments(a + b) == Fragments(a) + Fragments(b)
    decreases |b|
  {
    if b == [] {
      assert a + b == a;
    } else {
      var b', c := b[..|b| - 1], b[|b| - 1];
      assert (a + b)[..|a + b| - 1] == a + b';
      assert (a + b)[|a + b| - 1] == c;
      assert Fragments(a + b) == Fragments(a + b') + ChunkFragments(c);
      FragmentsAppend(a, b');
      assert Fragments(b) == Fragments(b') + ChunkFragments(c);
    }
  }

  lemma {:induction false} IndicesAppend(a: seq<Fragment>, b: seq<Fragment>)
    ensures IndicesOf(a + b) == IndicesOf(a) + IndicesOf(b)
    decreases |b|
  {
    if b == [] {
      assert a + b == a;
    } else {
      assert (a + b)[..|a + b| - 1] == a + b[..|b| - 1];
      assert (a + b)[|a + b| - 1] == b[|b| - 1];
      IndicesAppend(a, b[..|b| - 1]);
    }
  }

  lemma {:induction false} ArgsForAppend(a: seq<Fragment>, b: seq<Fragment>, k: nat)
    ensures ArgsFor(a + b, k) == ArgsFor(a, k) + ArgsFor(b, k)
    decreases |b|
  {
    if b == [] {
      assert a + b == a;
    } else {
      assert (a + b)[..|a + b| - 1] == a + b[..|b| - 1];
      assert (a + b)[|a + b| - 1] == b[|b| - 1];
      ArgsForAppend(a, b[..|b| - 1], k);
    }
  }

  lemma {:induction false} LastIdAppend(a: seq<Fragment>, b: seq<Fragment>, k: nat)
    ensures LastId(a + b, k) == if LastId(b, k) != "" then LastId(b, k) else LastId(a, k)
    decreases |b|
  {
    if b == [] {
      assert a + b == a;
    } else {
      assert (a + b)[..|a + b| - 1] == a + b[..|b| - 1];
      assert (a + b)[|a + b| - 1] == b[|b| - 1];
      LastIdAppend(a, b[..|b| - 1], k);
    }
  }

  lemma {:induction false} LastNameAppend(a: seq<Fragment>, b: seq<Fragment>, k: nat)
    ensures LastName(a + b, k) == if LastName(b, k) != "" then LastName(b, k) else LastName(a, k)
    decreases |b|
  {
    if b == [] {
      assert a + b == a;
    } else {
      assert (a + b)[..|a + b| - 1] == a + b[..|b| - 1];
      assert (a + b)[|a + b| - 1] == b[|b| - 1];
      LastNameAppend(a, b[..|b| - 1], k);
    }
  }

  /** What the buffer keeps of a concatenation is assembled from what it keeps of each half. */
  lemma ProjectionsAppend(a: seq<Fragment>, b: seq<Fragment>, k: nat)
    ensures IndicesOf(a + b) == IndicesOf(a) + IndicesOf(b)
    ensures ArgsFor(a + b, k) == ArgsFor(a, k) + ArgsFor(b, k)
    ensures LastId(a + b, k) == if LastId(b, k) != "" then LastId(b, k) else LastId(a, k)
    ensures LastName(a + b, k) == if LastName(b, k) != "" then LastName(b, k) else LastName(a, k)
  {
    IndicesAppend(a, b);
    ArgsForAppend(a, b, k);
    LastIdAppend(a, b, k);
    LastNameAppend(a, b, k);
  }

  /** Two fragment streams that agree, index by index, on what the buffer keeps. */
  ghost predicate SameCalls(f1: seq<Fragment>, f2: seq<Fragment>)
  {
    && IndicesOf(f1) == IndicesOf(f2)
    && forall k :: ArgsFor(f1, k) == ArgsFor(f2, k) && LastId(f1, k) == LastId(f2, k) && LastName(f1, k) == LastName(f2, k)
  }

  /**
   * Splitting one fragment's `arguments` into two consecutive fragments of the
   * same index, wherever the split falls and whatever surrounds it, leaves
   * the buffer unchanged.
   */
  lemma {:induction false} SplitArgumentsInvisible(pre: seq<Fragment>, f: Fragment, a: string, b: string, post: seq<Fragment>)
    requires f.arguments == a + b
    ensures Buffered(pre + [f] + post) == Buffered(pre + [f.(arguments := a), Fragment(f.index, "", "", b)] + post)
  {
    var whole := pre + [f];
    var split := pre + [f.(arguments := a), Fragment(f.index, "", "", b)];
    SplitSameCalls(pre, f, a, b);
    SameCallsExtend(whole, split, post);
    SameCallsSameBuffer(whole + post, split + post);
  }

  lemma SplitSameCalls(pre: seq<Fragment>, f: Fragment, a: string, b: string)
    requires f.arguments == a + b
    ensures SameCalls(pre + [f], pre + [f.(arguments := a), Fragment(f.index, "", "", b)])
  {
    var whole := pre + [f];
    var split := pre + [f.(arguments := a), Fragment(f.index, "", "", b)];
    assert whole[..|whole| - 1] == pre;
    assert split[..|split| - 1] == pre + [f.(arguments := a)];
    assert split[..|split| - 1][..|pre|] == pre;
  }

  lemma SameCallsExtend(f1: seq<Fragment>, f2: seq<Fragment>, post: seq<Fragment>)
    requires SameCalls(f1, f2)
    ensures SameCalls(f1 + post, f2 + post)
  {
    forall k
      ensures ArgsFor(f1 + post, k) == ArgsFor(f2 + post, k)
      ensures LastId(f1 + post, k) == LastId(f2 + post, k)
      ensures LastName(f1 + post, k) == LastName(f2 + post, k)
    {
      ProjectionsAppend(f1, post, k);
      ProjectionsAppend(f2, post, k);
    }
    IndicesAppend(f1, post);
    IndicesAppend(f2, post);
  }

  lemma SameCallsSameBuffer(f1: seq<Fragment>, f2: seq<Fragment>)
    requires SameCalls(f1, f2)
    ensures Buffered(f1) == Buffered(f2)
  {
  }

  /**
   * The invocation depends on the tool-call fragments only through, per index,
   * the concatenated arguments and the last non-empty id and name: any two
   * streams that agree on those and on their text behave identically.
   */
  lemma RefragmentedStreamSameOutcome(req: ConversationRequest, handlers: Handlers, prompts: Prompts.PromptTable,
                                      c1: seq<Chunk>, c2: seq<Chunk>, parse: string -> Option<Json>)
    requires FullText(c1) == FullText(c2) && TextEvents(c1, handlers.onText) == TextEvents(c2, handlers.onText)
    requires SameCalls(Fragments(c1), Fragments(c2))
    ensures StreamOutcome(req, handlers, prompts, c1, parse) == StreamOutcome(req, handlers, prompts, c2, parse)
  {
    SameCallsSameBuffer(Fragments(c1), Fragments(c2));
  }

  /** Moving the chunk boundary between two runs of fragments does not change what is buffered. */
  lemma {:induction false} RechunkedFragmentsSame(pre: seq<Chunk>, c: Chunk, post: seq<Chunk>, d1: Delta, d2: Delta)
    requires DeltaOf(c).Some? && DeltaOf(c).value.toolCalls.Some?
    requires d1.toolCalls.Some? && d2.toolCalls.Some?
    requires d1.toolCalls.value + d2.toolCalls.value == DeltaOf(c).value.toolCalls.value
    ensures Fragments(pre + [Chunk([Choice(Some(d1))]), Chunk([Choice(Some(d2))])] + post) == Fragments(pre + [c] + post)
  {
    var two := [Chunk([Choice(Some(d1))]), Chunk([Choice(Some(d2))])];
    FragmentsAppend(pre + two, post);
    FragmentsAppend(pre + [c], post);
    FragmentsAppend(pre, two);
    FragmentsAppend(pre, [c]);
    assert two[..1] == [two[0]];
    assert Fragments([two[0]]) == d1.toolCalls.value by {
      assert [two[0]][..0] == [];
    }
    assert [c][..0] == [];
  }

  // ---------------------------------------------------------------- text

  lemma {:induction false} TextEventsSpellFullText(cs: seq<Chunk>)
    ensures ConcatText(TextEvents(cs, true)) == FullText(cs)
    ensures |TextEvents(cs, true)| <= |cs|
    ensures forall i :: 0 <= i < |TextEvents(cs, true)| ==>
              TextEvents(cs, true)[i].TextDelta? && TextEvents(cs, true)[i].text != ""
    decreases |cs|
  {
    if cs != [] {
      var init := cs[..|cs| - 1];
      TextEventsSpellFullText(init);
      var last := ChunkText(cs[|cs| - 1]);
      ConcatTextAppend(TextEvents(init, true), if last != "" then [TextDelta(last)] else []);
      if last != "" {
        assert [TextDelta(last)][..0] == [];
      }
    }
  }

  lemma {:induction false} NoTextEventsWithoutHandler(cs: seq<Chunk>)
    ensures TextEvents(cs, false) == []
    decreases |cs|
  {
    if cs != [] {
      NoTextEventsWithoutHandler(cs[..|cs| - 1]);
    }
  }

  // ---------------------------------------------------------------- delivery

  /**
   * The flush loop in full: either every key was delivered, one event per key
   * in key order carrying the parsed buffered arguments, or it stopped at the
   * first key whose arguments do not parse.
   */
  lemma {:induction false} DeliverEvents(calls: map<nat, ToolCallBuffer>, ks: seq<nat>, parse: string -> Option<Json>)
    requires forall i :: 0 <= i < |ks| ==> ks[i] in calls
    ensures var d := Deliver(calls, ks, true, parse);
      d.failure.None? ==>
        && |d.events| == |ks|
        && forall i :: 0 <= i < |ks| ==>
             (parse(calls[ks[i]].arguments).Some? &&
              d.events[i] == ToolUse(calls[ks[i]].id, calls[ks[i]].name, parse(calls[ks[i]].arguments).value))
    ensures var d := Deliver(calls, ks, true, parse);
      d.failure.Some? <==> exists i :: 0 <= i < |ks| && parse(calls[ks[i]].arguments).None?
    ensures var d := Deliver(calls, ks, true, parse);
      d.failure.Some? ==> d.failure.value.InvalidToolArguments?
    ensures var d := Deliver(calls, ks, true, parse);
      forall i :: 0 <= i < |d.events| ==> d.events[i].ToolUse?
    decreases |ks|
  {
    if ks != [] {
      var init := ks[..|ks| - 1];
      DeliverEvents(calls, init, parse);
      assert forall i :: 0 <= i < |init| ==> init[i] == ks[i];
    }
  }

  lemma {:induction false} NoDeliveryWithoutHandler(calls: map<nat, ToolCallBuffer>, ks: seq<nat>, parse: string -> Option<Json>)
    requires forall i :: 0 <= i < |ks| ==> ks[i] in calls
    ensures Deliver(calls, ks, false, parse) == Flush([], None)
    decreases |ks|
  {
    if ks != [] {
      NoDeliveryWithoutHandler(calls, ks[..|ks| - 1], parse);
    }
  }

  /** Every event of the flush is an `onToolUse` call, and there are none without the handler. */
  lemma FlushedEventsAreToolUses(chunks: seq<Chunk>, onToolUse: bool, parse: string -> Option<Json>)
    ensures !onToolUse ==> Flushed(chunks, onToolUse, parse) == Flush([], None)
    ensures forall i :: 0 <= i < |Flushed(chunks, onToolUse, parse).events| ==>
              Flushed(chunks, onToolUse, parse).events[i].ToolUse?
  {
    var calls := Buffered(Fragments(chunks));
    var ks := SortedKeys(calls.Keys);
    if onToolUse {
      DeliverEvents(calls, ks, parse);
    } else {
      NoDeliveryWithoutHandler(calls, ks, parse);
    }
  }

  /**
   * A completed flush calls `onToolUse` once per distinct fragment index, in
   * ascending index order, with that index's last non-empty id and name and
   * the parse of the concatenation of that index's arguments.
   */
  lemma FlushedDelivers(chunks: seq<Chunk>, parse: string -> Option<Json>)
    ensures var fs := Fragments(chunks);
      var ks := SortedKeys(IndicesOf(fs));
      var d := Flushed(chunks, true, parse);
      d.failure.None? ==>
        && |d.events| == |ks|
        && forall i :: 0 <= i < |ks| ==>
             (parse(ArgsFor(fs, ks[i])).Some? &&
              d.events[i] == ToolUse(LastId(fs, ks[i]), LastName(fs, ks[i]), parse(ArgsFor(fs, ks[i])).value))
  {
    var fs := Fragments(chunks);
    var calls := Buffered(fs);
    assert calls.Keys == IndicesOf(fs);
    DeliverEvents(calls, SortedKeys(calls.Keys), parse);
  }

  lemma BufferedLookup(fs: seq<Fragment>, k: nat)
    requires k in IndicesOf(fs)
    ensures k in Buffered(fs) && Buffered(fs)[k].arguments == ArgsFor(fs, k)
  {
  }

  /** A flush that failed met an index whose arguments do not parse. */
  lemma DeliverFailureWitness(fs: seq<Fragment>, parse: string -> Option<Json>)
    ensures var calls := Buffered(fs);
      var d := Deliver(calls, SortedKeys(calls.Keys), true, parse);
      d.failure.Some? ==> exists k :: k in IndicesOf(fs) && parse(ArgsFor(fs, k)).None?
  {
    var calls := Buffered(fs);
    var ks := SortedKeys(calls.Keys);
    DeliverEvents(calls, ks, parse);
    if Deliver(calls, ks, true, parse).failure.Some? {
      var i :| 0 <= i < |ks| && parse(calls[ks[i]].arguments).None?;
      var k := ks[i];
      assert k in IndicesOf(fs);
      BufferedLookup(fs, k);
      assert parse(ArgsFor(fs, k)).None?;
    }
  }

  /** An index whose arguments do not parse makes the flush fail. */
  lemma DeliverFailureReached(fs: seq<Fragment>, parse: string -> Option<Json>, k: nat)
    requires k in IndicesOf(fs) && parse(ArgsFor(fs, k)).None?
    ensures var calls := Buffered(fs);
      Deliver(calls, SortedKeys(calls.Keys), true, parse).failure.Some?
  {
    var calls := Buffered(fs);
    BufferedLookup(fs, k);
    var ks := SortedKeys(calls.Keys);
    assert k in ks;
    var i :| 0 <= i < |ks| && ks[i] == k;
    DeliverEvents(calls, ks, parse);
    assert parse(calls[ks[i]].arguments).None?;
  }

  /** Some buffered index holds arguments that `JSON.parse` rejects. */
  ghost predicate SomeUnparsable(fs: seq<Fragment>, parse: string -> Option<Json>)
  {
    exists k :: k in IndicesOf(fs) && parse(ArgsFor(fs, k)).None?
  }

  lemma DeliverFailsIff(fs: seq<Fragment>, parse: string -> Option<Json>)
    ensures Deliver(Buffered(fs), SortedKeys(Buffered(fs).Keys), true, parse).failure.Some? <==> SomeUnparsable(fs, parse)
  {
    if SomeUnparsable(fs, parse) {
      var k :| k in IndicesOf(fs) && parse(ArgsFor(fs, k)).None?;
      DeliverFailureReached(fs, parse, k);
    } else {
      DeliverFailureWitness(fs, parse);
    }
  }

  /** The flush fails, with the arguments error, exactly when the handler exists and some index's arguments do not parse. */
  lemma FlushedFailure(chunks: seq<Chunk>, onToolUse: bool, parse: string -> Option<Json>)
    ensures Flushed(chunks, onToolUse, parse).failure.Some? <==> onToolUse && SomeUnparsable(Fragments(chunks), parse)
    ensures Flushed(chunks, onToolUse, parse).failure.Some? ==> Flushed(chunks, onToolUse, parse).failure.value.InvalidToolArguments?
  {
    var fs := Fragments(chunks);
    var calls := Buffered(fs);
    var ks := SortedKeys(calls.Keys);
    if onToolUse {
      DeliverFailsIff(fs, parse);
      DeliverEvents(calls, ks, parse);
    } else {
      NoDeliveryWithoutHandler(calls, ks, parse);
    }
  }

  /**
   * After the stream, `onToolUse` runs once per distinct fragment index, in
   * ascending index order, with that index's last non-empty id and name and
   * the parse of the concatenation of that index's arguments; it stops, and
   * the invocation rejects, at the first index whose arguments do not parse.
   * Without the handler nothing is parsed and nothing is delivered.
   */
  lemma FlushedCalls(chunks: seq<Chunk>, onToolUse: bool, parse: string -> Option<Json>)
    ensures var fs := Fragments(chunks);
      var ks := SortedKeys(IndicesOf(fs));
      var d := Flushed(chunks, onToolUse, parse);
      && (!onToolUse ==> d == Flush([], None))
      && (onToolUse && d.failure.None? ==>
            && |d.events| == |ks|
            && forall i :: 0 <= i < |ks| ==>
                 (parse(ArgsFor(fs, ks[i])).Some? &&
                  d.events[i] == ToolUse(LastId(fs, ks[i]), LastName(fs, ks[i]), parse(ArgsFor(fs, ks[i])).value)))
      && (d.failure.Some? <==> onToolUse && SomeUnparsable(fs, parse))
      && (d.failure.Some? ==> d.failure.value.InvalidToolArguments?)
      && (forall i :: 0 <= i < |d.events| ==> d.events[i].ToolUse?)
  {
    FlushedEventsAreToolUses(chunks, onToolUse, parse);
    FlushedFailure(chunks, onToolUse, parse);
    if onToolUse {
      FlushedDelivers(chunks, parse);
    }
  }

  lemma {:induction false} TextEventsShape(cs: seq<Chunk>, onText: bool)
    ensures forall i :: 0 <= i < |TextEvents(cs, onText)| ==> TextEvents(cs, onText)[i].TextDelta?
    decreases |cs|
  {
    if cs != [] {
      TextEventsShape(cs[..|cs| - 1], onText);
    }
  }

  lemma {:induction false} NoMessages(trace: seq<Event>)
    requires forall i :: 0 <= i < |trace| ==> !trace[i].MessageComplete?
    ensures MessageCount(trace) == 0
    decreases |trace|
  {
    if trace != [] {
      NoMessages(trace[..|trace| - 1]);
    }
  }

  lemma {:induction false} NoText(trace: seq<Event>)
    requires forall i :: 0 <= i < |trace| ==> !trace[i].TextDelta?
    ensures ConcatText(trace) == ""
    decreases |trace|
  {
    if trace != [] {
      NoText(trace[..|trace| - 1]);
    }
  }

  /**
   * How an invocation settles once the prompt resolved: the trace is the text
   * deltas, then the flush's `onToolUse` calls, then `onMessage` if the flush
   * went through and the handler exists; the result is the end-turn message
   * or the flush's parse error.
   */
  lemma GroqTraceShape(req: ConversationRequest, handlers: Handlers, prompts: Prompts.PromptTable,
                       chunks: seq<Chunk>, parse: string -> Option<Json>)
    requires Prompts.GetSystemPrompt(prompts, Prompts.PromptTypeOf(req)).Success?
    ensures var out := StreamOutcome(req, handlers, prompts, chunks, parse);
      var d := Flushed(chunks, handlers.onToolUse, parse);
      && out.trace == TextEvents(chunks, handlers.onText) + d.events
                      + (if d.failure.None? && handlers.onMessage then [MessageComplete(EndTurn(FullText(chunks)))] else [])
      && out.result == if d.failure.Some? then Failure(d.failure.value) else Success(EndTurn(FullText(chunks)))
  {
  }

  /** Once the prompt resolved, the request is sent before any handler runs, whatever the stream holds. */
  lemma GroqRequestSent(req: ConversationRequest, handlers: Handlers, prompts: Prompts.PromptTable,
                        chunks: seq<Chunk>, parse: string -> Option<Json>)
    requires Prompts.GetSystemPrompt(prompts, Prompts.PromptTypeOf(req)).Success?
    ensures StreamOutcome(req, handlers, prompts, chunks, parse).request
            == Some(BuildRequest(Prompts.GetSystemPrompt(prompts, Prompts.PromptTypeOf(req)).value, req))
  {
  }

  /** The trace of a settled invocation holds `onMessage`'s call once, last, when the handler is supplied, and never otherwise. */
  lemma GroqMessageOnce(req: ConversationRequest, handlers: Handlers, prompts: Prompts.PromptTable,
                        chunks: seq<Chunk>, parse: string -> Option<Json>)
    requires StreamOutcome(req, handlers, prompts, chunks, parse).result.Success?
    ensures var out := StreamOutcome(req, handlers, prompts, chunks, parse);
      && MessageCount(out.trace) == (if handlers.onMessage then 1 else 0)
      && (handlers.onMessage ==> out.trace[|out.trace| - 1] == MessageComplete(EndTurn(FullText(chunks))))
  {
    var system := Prompts.GetSystemPrompt(prompts, Prompts.PromptTypeOf(req));
    SettledMessageOnce(BuildRequest(system.value, req), handlers, chunks, parse);
  }

  lemma SettledMessageOnce(request: ChatRequest, handlers: Handlers, chunks: seq<Chunk>, parse: string -> Option<Json>)
    requires Settled(request, handlers, chunks, parse).result.Success?
    ensures var out := Settled(request, handlers, chunks, parse);
      && MessageCount(out.trace) == (if handlers.onMessage then 1 else 0)
      && (handlers.onMessage ==> out.trace[|out.trace| - 1] == MessageComplete(EndTurn(FullText(chunks))))
  {
    var texts := TextEvents(chunks, handlers.onText);
    var d := Flushed(chunks, handlers.onToolUse, parse);
    var tail := if handlers.onMessage then [MessageComplete(EndTurn(FullText(chunks)))] else [];
    assert Settled(request, handlers, chunks, parse).trace == texts + d.events + tail;
    TextEventsShape(chunks, handlers.onText);
    FlushedEventsAreToolUses(chunks, handlers.onToolUse, parse);
    NoMessages(texts);
    NoMessages(d.events);
    MessageCountAppend(texts, d.events);
    MessageCountAppend(texts + d.events, tail);
    if tail != [] {
      assert tail[..0] == [];
    }
  }

  /** The text the settled message carries is the text `onText` received, and `onText` does not change the result. */
  lemma GroqFinalText(req: ConversationRequest, handlers: Handlers, prompts: Prompts.PromptTable,
                      chunks: seq<Chunk>, parse: string -> Option<Json>)
    requires StreamOutcome(req, handlers, prompts, chunks, parse).result.Success?
    ensures var out := StreamOutcome(req, handlers, prompts, chunks, parse);
      && out.result.value == FinalMessage("assistant", FullText(chunks), "end_turn")
      && (handlers.onText ==> ConcatText(out.trace) == FullText(chunks))
      && StreamOutcome(req, handlers.(onText := !handlers.onText), prompts, chunks, parse).result == out.result
  {
    GroqTraceShape(req, handlers, prompts, chunks, parse);
    GroqTraceShape(req, handlers.(onText := !handlers.onText), prompts, chunks, parse);
    if handlers.onText {
      var d := Flushed(chunks, handlers.onToolUse, parse);
      SettledTraceSpellsText(chunks, handlers.onToolUse, parse, d.failure.None? && handlers.onMessage);
    }
  }

  /** The text deltas of a settled trace spell the full text; tool calls and `onMessage` add none. */
  lemma SettledTraceSpellsText(chunks: seq<Chunk>, onToolUse: bool, parse: string -> Option<Json>, message: bool)
    ensures var d := Flushed(chunks, onToolUse, parse);
      ConcatText(TextEvents(chunks, true) + d.events
                 + (if message then [MessageComplete(EndTurn(FullText(chunks)))] else [])) == FullText(chunks)
  {
    var texts := TextEvents(chunks, true);
    var d := Flushed(chunks, onToolUse, parse);
    var tail := if message then [MessageComplete(EndTurn(FullText(chunks)))] else [];
    FlushedEventsAreToolUses(chunks, onToolUse, parse);
    TextEventsSpellFullText(chunks);
    ConcatTextAppend(texts, d.events);
    ConcatTextAppend(texts + d.events, tail);
    NoText(d.events);
    if tail != [] {
      assert ConcatText(tail) == "" by { assert tail[..0] == []; }
    }
  }

  /**
   * A successful invocation settles with `{role: 'assistant', content,
   * stop_reason: 'end_turn'}`, where `content` is every text delta in order
   * and equals what `onText` received when it is supplied; `onMessage` is
   * called exactly once, last, when supplied. Whether `onText` was supplied
   * does not change the result.
   */
  lemma GroqFinalMessage(req: ConversationRequest, handlers: Handlers, prompts: Prompts.PromptTable,
                         chunks: seq<Chunk>, parse: string -> Option<Json>)
    requires StreamOutcome(req, handlers, prompts, chunks, parse).result.Success?
    ensures var out := StreamOutcome(req, handlers, prompts, chunks, parse);
      && out.result.value == FinalMessage("assistant", FullText(chunks), "end_turn")
      && (handlers.onText ==> ConcatText(out.trace) == out.result.value.content)
      && MessageCount(out.trace) == (if handlers.onMessage then 1 else 0)
      && (handlers.onMessage ==> out.trace[|out.trace| - 1] == MessageComplete(out.result.value))
      && StreamOutcome(req, handlers.(onText := !handlers.onText), prompts, chunks, parse).result == out.result
  {
    GroqFinalText(req, handlers, prompts, chunks, parse);
    GroqMessageOnce(req, handlers, prompts, chunks, parse);
  }

  /**
   * With an `onToolUse` handler, an index whose concatenated arguments do not
   * parse makes the invocation reject without calling `onMessage`. An index
   * that received no arguments holds "", which `JSON.parse` always rejects.
   */
  lemma GroqInvalidArgumentsReject(req: ConversationRequest, handlers: Handlers, prompts: Prompts.PromptTable,
                                   chunks: seq<Chunk>, parse: string -> Option<Json>, k: nat)
    requires handlers.onToolUse && Prompts.GetSystemPrompt(prompts, Prompts.PromptTypeOf(req)).Success?
    requires k in IndicesOf(Fragments(chunks)) && parse(ArgsFor(Fragments(chunks), k)).None?
    ensures StreamOutcome(req, handlers, prompts, chunks, parse).result.Failure?
    ensures StreamOutcome(req, handlers, prompts, chunks, parse).result.error.InvalidToolArguments?
    ensures MessageCount(StreamOutcome(req, handlers, prompts, chunks, parse).trace) == 0
  {
    GroqTraceShape(req, handlers, prompts, chunks, parse);
    assert SomeUnparsable(Fragments(chunks), parse);
    FlushedFailure(chunks, handlers.onToolUse, parse);
    FlushedEventsAreToolUses(chunks, handlers.onToolUse, parse);
    var texts := TextEvents(chunks, handlers.onText);
    var d := Flushed(chunks, handlers.onToolUse, parse);
    TextEventsShape(chunks, handlers.onText);
    NoMessages(texts);
    NoMessages(d.events);
    MessageCountAppend(texts, d.events);
    assert texts + d.events + [] == texts + d.events;
  }

  /** Without an `onToolUse` handler nothing is parsed, so no arguments string can make the invocation reject. */
  lemma GroqWithoutToolHandlerSucceeds(req: ConversationRequest, handlers: Handlers, prompts: Prompts.PromptTable,
                                       chunks: seq<Chunk>, parse: string -> Option<Json>)
    requires !handlers.onToolUse && Prompts.GetSystemPrompt(prompts, Prompts.PromptTypeOf(req)).Success?
    ensures StreamOutcome(req, handlers, prompts, chunks, parse).result == Success(EndTurn(FullText(chunks)))
    ensures ToolUseCount(StreamOutcome(req, handlers, prompts, chunks, parse).trace) == 0
  {
    GroqTraceShape(req, handlers, prompts, chunks, parse);
    FlushedEventsAreToolUses(chunks, handlers.onToolUse, parse);
    var texts := TextEvents(chunks, handlers.onText);
    var tail := if handlers.onMessage then [MessageComplete(EndTurn(FullText(chunks)))] else [];
    TextEventsShape(chunks, handlers.onText);
    NoToolUses(texts);
    ToolUseCountAppend(texts + [], tail);
    assert texts + [] == texts;
    if tail != [] {
      assert tail[..0] == [];
    }
  }

  lemma {:induction false} NoToolUses(trace: seq<Event>)
    requires forall i :: 0 <= i < |trace| ==> !trace[i].ToolUse?
    ensures ToolUseCount(trace) == 0
    decreases |trace|
  {
    if trace != [] {
      NoToolUses(trace[..|trace| - 1]);
    }
  }

  /** A missing default prompt rejects the invocation before any request is sent or any handler runs. */
  lemma GroqMissingPromptRejectsEarly(req: ConversationRequest, handlers: Handlers, prompts: Prompts.PromptTable,
                                      chunks: seq<Chunk>, parse: string -> Option<Json>)
    requires !Prompts.HasContent(prompts, Prompts.PromptTypeOf(req)) && Config.DefaultPromptType !in prompts
    ensures StreamOutcome(req, handlers, prompts, chunks, parse) == Invocation(None, [], Failure(MissingDefaultPrompt))
  {
  }
}
