/**
 * The Gemini adapter's `streamConversation`. The history without its last
 * turn opens the chat, the last turn's content is sent, and the streamed
 * chunks are walked part by part: a part's text is delivered and
 * accumulated, and a part's function call is delivered whole, at once,
 * before the next part is looked at. Only the first candidate of a chunk
 * is read; a chunk without candidates or without parts contributes nothing.
 *
 * `text` is a `string` in which "" stands for both an absent and an empty
 * value: the adapter only tests it for truthiness.
 */
module Gemini {
  import opened Wrappers
  import opened Conversation
  import Config
  import Prompts

  // ---------------------------------------------------------------- the wire format

  datatype FunctionCall = FunctionCall(name: string, args: Json)

  datatype Part = Part(text: string, functionCall: Option<FunctionCall>)

  datatype Content = Content(parts: Option<seq<Part>>)

  datatype Candidate = Candidate(content: Option<Content>)

  datatype Chunk = Chunk(candidates: Option<seq<Candidate>>)

  /** The parts of `chunk.candidates[0].content`, or none when any step of that path is missing. */
  function CandidateParts(c: Chunk): seq<Part>
  {
    if c.candidates.Some? && |c.candidates.value| > 0 then
      var candidate := c.candidates.value[0];
      if candidate.content.Some? && candidate.content.value.parts.Some? then candidate.content.value.parts.value else []
    else []
  }

  // ---------------------------------------------------------------- the request

  /** `[{functionDeclarations: tools}]` */
  datatype ToolGroup = FunctionDeclarations(declarations: seq<ToolDefinition>)

  /** What the adapter hands to `getGenerativeModel`, `startChat` and `sendMessageStream`. */
  datatype ChatRequest = ChatRequest(
    model: string,
    systemInstruction: Option<string>,
    history: seq<Message>,
    tools: Option<seq<ToolGroup>>,
    sentContent: string)

  /**
   * The history is every turn but the last, the last turn's content is what
   * is sent, and the tools go in one declaration group unless there are none.
   */
  function BuildRequest(systemInstruction: Option<string>, req: ConversationRequest): (r: Result<ChatRequest, AdapterError>)
    ensures r.Failure? <==> req.messages == []
    ensures r.Failure? ==> r.error == NoLastMessage
    ensures r.Success? ==> r.value.history + [req.messages[|req.messages| - 1]] == req.messages
    ensures r.Success? ==> r.value.sentContent == req.messages[|req.messages| - 1].content
    ensures r.Success? ==> r.value.model == Config.ModelOf(Config.Gemini) && r.value.systemInstruction == systemInstruction
    ensures r.Success? ==> (r.value.tools.None? <==> req.tools.None? || req.tools.value == [])
    ensures r.Success? && r.value.tools.Some? ==> r.value.tools.value == [FunctionDeclarations(req.tools.value)]
  {
    var history := if |req.messages| > 0 then req.messages[..|req.messages| - 1] else [];
    var tools := if req.tools.Some? && |req.tools.value| > 0 then Some([FunctionDeclarations(req.tools.value)]) else None;
    if |req.messages| == 0 then Failure(NoLastMessage)
    else
      assert history + [req.messages[|req.messages| - 1]] == req.messages;
      Success(ChatRequest(Config.ModelOf(Config.Gemini), systemInstruction, history, tools,
                          req.messages[|req.messages| - 1].content))
  }

  // ---------------------------------------------------------------- the stream, specified

  /** Every part the adapter looks at, in stream order. */
  function StreamParts(cs: seq<Chunk>): seq<Part>
  {
    if cs == [] then [] else StreamParts(cs[..|cs| - 1]) + CandidateParts(cs[|cs| - 1])
  }

  /** The concatenation of the parts' texts. */
  function PartsText(ps: seq<Part>): string
  {
    if ps == [] then "" else PartsText(ps[..|ps| - 1]) + ps[|ps| - 1].text
  }

  /** The handler calls one part causes: its text first, then its function call. */
  function PartEvents(p: Part, handlers: Handlers): seq<Event>
  {
    (if p.text != "" && handlers.onText then [TextDelta(p.text)] else [])
    + (if p.functionCall.Some? && handlers.onToolUse
       then [ToolUse(p.functionCall.value.name, p.functionCall.value.name, p.functionCall.value.args)]
       else [])
  }

  /** The handler calls the parts cause, in order. */
  function PartsEvents(ps: seq<Part>, handlers: Handlers): seq<Event>
  {
    if ps == [] then [] else PartsEvents(ps[..|ps| - 1], handlers) + PartEvents(ps[|ps| - 1], handlers)
  }

  datatype Invocation = Invocation(request: Option<ChatRequest>, trace: seq<Event>, result: Result<FinalMessage, AdapterError>)

  /** What a `streamConversation` call over `chunks` does, as a function of its inputs. */
  function StreamOutcome(req: ConversationRequest, handlers: Handlers, prompts: Prompts.PromptTable, chunks: seq<Chunk>): (r: Invocation)
    ensures r.request.None? <==> r.result.Failure?
    ensures r.request.None? ==> r.trace == []
    ensures Prompts.GetSystemPrompt(prompts, Prompts.PromptTypeOf(req)).Failure? ==> r.result == Failure(MissingDefaultPrompt)
    ensures r.request.Some? ==> PartsEvents(StreamParts(chunks), handlers) <= r.trace
    ensures r.result.Success? ==> r.result.value == EndTurn(PartsText(StreamParts(chunks)))
  {
    var system := Prompts.GetSystemPrompt(prompts, Prompts.PromptTypeOf(req));
    if system.Failure? then Invocation(None, [], Failure(system.error))
    else
      var request := BuildRequest(system.value, req);
      if request.Failure? then Invocation(None, [], Failure(request.error))
      else
        var parts := StreamParts(chunks);
        var final := EndTurn(PartsText(parts));
        Invocation(Some(request.value),
                   PartsEvents(parts, handlers) + (if handlers.onMessage then [MessageComplete(final)] else []),
                   Success(final))
  }

  // ---------------------------------------------------------------- the adapter

  /** The adapter's `streamConversation` over a finite vendor stream. */
  method StreamConversation(req: ConversationRequest, handlers: Handlers, prompts: Prompts.PromptTable, chunks: seq<Chunk>)
    returns (out: Invocation)
    ensures out == StreamOutcome(req, handlers, prompts, chunks)
  {
    var systemInstruction := Prompts.GetSystemPrompt(prompts, Prompts.PromptTypeOf(req));
    if systemInstruction.Failure? {
      return Invocation(None, [], Failure(systemInstruction.error));
    }
    var request := BuildRequest(systemInstruction.value, req);
    if request.Failure? {
      return Invocation(None, [], Failure(request.error));
    }

    var fullResponseText := "";
    var trace: seq<Event> := [];
    var i := 0;
    while i < |chunks|
      invariant 0 <= i <= |chunks|
      invariant fullResponseText == PartsText(StreamParts(chunks[..i]))
      invariant trace == PartsEvents(StreamParts(chunks[..i]), handlers)
    {
      StreamPrefixStep(chunks, i);
      fullResponseText, trace := WalkChunk(chunks[i], handlers, StreamParts(chunks[..i]), fullResponseText, trace);
      i := i + 1;
    }
    assert chunks[..i] == chunks;

    var finalMessage := EndTurn(fullResponseText);
    if handlers.onMessage {
      trace := trace + [MessageComplete(finalMessage)];
    }
    return Invocation(Some(request.value), trace, Success(finalMessage));
  }

  /** One chunk: the parts of its first candidate's content, if it has any. */
  method WalkChunk(chunk: Chunk, handlers: Handlers, ghost before: seq<Part>, text: string, events: seq<Event>)
    returns (text': string, events': seq<Event>)
    requires text == PartsText(before) && events == PartsEvents(before, handlers)
    ensures text' == PartsText(before + CandidateParts(chunk)) && events' == PartsEvents(before + CandidateParts(chunk), handlers)
  {
    if chunk.candidates.Some? && |chunk.candidates.value| > 0 {
      var candidate := chunk.candidates.value[0];
      if candidate.content.Some? && candidate.content.value.parts.Some? {
        text', events' := WalkParts(candidate.content.value.parts.value, handlers, before, text, events);
        return;
      }
    }
    assert before + CandidateParts(chunk) == before;
    text', events' := text, events;
  }

  /**
   * The `for (const part of candidate.content.parts)` loop of one chunk, each
   * part in order.
   */
  method WalkParts(parts: seq<Part>, handlers: Handlers, ghost before: seq<Part>, text: string, events: seq<Event>)
    returns (text': string, events': seq<Event>)
    requires text == PartsText(before) && events == PartsEvents(before, handlers)
    ensures text' == PartsText(before + parts) && events' == PartsEvents(before + parts, handlers)
  {
    text', events' := text, events;
    var j := 0;
    assert before + parts[..0] == before;
    while j < |parts|
      invariant 0 <= j <= |parts|
      invariant text' == PartsText(before + parts[..j])
      invariant events' == PartsEvents(before + parts[..j], handlers)
    {
      PrefixStep(before, parts, j);
      PartsStep(before + parts[..j], parts[j], handlers);
      text', events' := WalkPart(parts[j], handlers, text', events');
      j := j + 1;
    }
    assert parts[..j] == parts;
  }

  /** One part: a truthy `text` goes to `onText` and onto the text, then a `functionCall` goes to `onToolUse`. */
  method WalkPart(part: Part, handlers: Handlers, text: string, events: seq<Event>)
    returns (text': string, events': seq<Event>)
    ensures text' == text + part.text && events' == events + PartEvents(part, handlers)
  {
    text', events' := text, events;
    if part.text != "" {
      if handlers.onText {
        events' := events' + [TextDelta(part.text)];
      }
      text' := text' + part.text;
    }
    if part.functionCall.Some? {
      if handlers.onToolUse {
        events' := events' + [ToolUse(part.functionCall.value.name, part.functionCall.value.name, part.functionCall.value.args)];
      }
    }
  }

  // ---------------------------------------------------------------- properties

  lemma PartsStep(ps: seq<Part>, p: Part, handlers: Handlers)
    ensures PartsEvents(ps + [p], handlers) == PartsEvents(ps, handlers) + PartEvents(p, handlers)
    ensures PartsText(ps + [p]) == PartsText(ps) + p.text
  {
    assert (ps + [p])[..|ps|] == ps;
    assert (ps + [p])[|ps|] == p;
  }

  lemma PrefixStep(before: seq<Part>, parts: seq<Part>, j: nat)
    requires j < |parts|
    ensures before + parts[..j + 1] == (before + parts[..j]) + [parts[j]]
  {
    assert parts[..j + 1] == parts[..j] + [parts[j]];
  }

  lemma StreamPartsStep(cs: seq<Chunk>, c: Chunk)
    ensures StreamParts(cs + [c]) == StreamParts(cs) + CandidateParts(c)
  {
    assert (cs + [c])[..|cs|] == cs;
  }

  lemma StreamPrefixStep(cs: seq<Chunk>, i: nat)
    requires i < |cs|
    ensures StreamParts(cs[..i + 1]) == StreamParts(cs[..i]) + CandidateParts(cs[i])
  {
    assert cs[..i + 1][..i] == cs[..i];
  }

  lemma {:induction false} StreamPartsAppend(a: seq<Chunk>, b: seq<Chunk>)
    ensures StreamParts(a + b) == StreamParts(a) + StreamParts(b)
    decreases |b|
  {
    if b == [] {
      assert a + b == a;
    } else {
      var init, last := b[..|b| - 1], b[|b| - 1];
      assert a + b == (a + init) + [last];
      assert b == init + [last];
      StreamPartsAppend(a, init);
      StreamPartsStep(a + init, last);
      StreamPartsStep(init, last);
    }
  }

  lemma {:induction false} PartsEventsAppend(a: seq<Part>, b: seq<Part>, handlers: Handlers)
    ensures PartsEvents(a + b, handlers) == PartsEvents(a, handlers) + PartsEvents(b, handlers)
    decreases |b|
  {
    if b == [] {
      assert a + b == a;
    } else {
      var init, last := b[..|b| - 1], b[|b| - 1];
      assert a + b == (a + init) + [last];
      assert b == init + [last];
      PartsEventsAppend(a, init, handlers);
      PartsStep(a + init, last, handlers);
      PartsStep(init, last, handlers);
    }
  }

  lemma {:induction false} PartsTextAppend(a: seq<Part>, b: seq<Part>)
    ensures PartsText(a + b) == PartsText(a) + PartsText(b)
    decreases |b|
  {
    if b == [] {
      assert a + b == a;
    } else {
      var init, last := b[..|b| - 1], b[|b| - 1];
      assert a + b == (a + init) + [last];
      assert b == init + [last];
      PartsTextAppend(a, init);
      assert PartsText((a + init) + [last]) == PartsText(a + init) + last.text by {
        assert ((a + init) + [last])[..|a + init|] == a + init;
      }
      assert PartsText(init + [last]) == PartsText(init) + last.text by {
        assert (init + [last])[..|init|] == init;
      }
    }
  }

  /**
   * Handler calls follow the stream: everything the chunks `a` cause happens
   * before anything the later chunks `b` cause, so a function call is
   * delivered before any text or call that arrives after it.
   */
  lemma StreamOrder(a: seq<Chunk>, b: seq<Chunk>, handlers: Handlers)
    ensures PartsEvents(StreamParts(a + b), handlers)
            == PartsEvents(StreamParts(a), handlers) + PartsEvents(StreamParts(b), handlers)
    ensures PartsText(StreamParts(a + b)) == PartsText(StreamParts(a)) + PartsText(StreamParts(b))
  {
    StreamPartsAppend(a, b);
    PartsEventsAppend(StreamParts(a), StreamParts(b), handlers);
    PartsTextAppend(StreamParts(a), StreamParts(b));
  }

  /**
   * Within one part, `onText` comes before `onToolUse`; the call is delivered
   * as `{id: name, name, input: args}`.
   */
  lemma PartTextBeforeCall(p: Part, handlers: Handlers)
    requires p.text != "" && p.functionCall.Some? && handlers.onText && handlers.onToolUse
    ensures PartsEvents([p], handlers)
            == [TextDelta(p.text), ToolUse(p.functionCall.value.name, p.functionCall.value.name, p.functionCall.value.args)]
  {
    assert [p][..0] == [];
  }

  /** Candidates after the first are never read. */
  lemma OnlyFirstCandidate(first: Candidate, rest: seq<Candidate>)
    ensures CandidateParts(Chunk(Some([first] + rest))) == CandidateParts(Chunk(Some([first])))
  {
  }

  /** A chunk with no candidates, no content or no parts changes nothing, wherever it arrives. */
  lemma SkippedChunkInvisible(req: ConversationRequest, handlers: Handlers, prompts: Prompts.PromptTable,
                              pre: seq<Chunk>, c: Chunk, post: seq<Chunk>)
    requires c.candidates.None? || c.candidates.value == []
             || c.candidates.value[0].content.None? || c.candidates.value[0].content.value.parts.None?
    ensures StreamOutcome(req, handlers, prompts, pre + [c] + post) == StreamOutcome(req, handlers, prompts, pre + post)
  {
    SkippedChunkHasNoParts(pre, c, post);
  }

  lemma SkippedChunkHasNoParts(pre: seq<Chunk>, c: Chunk, post: seq<Chunk>)
    requires CandidateParts(c) == []
    ensures StreamParts(pre + [c] + post) == StreamParts(pre + post)
  {
    StreamPartsStep(pre, c);
    assert StreamParts(pre + [c]) == StreamParts(pre);
    StreamPartsAppend(pre + [c], post);
    StreamPartsAppend(pre, post);
  }

  /** One part's handler calls: its text, if any, then no other text. */
  lemma PartEventsText(p: Part, handlers: Handlers)
    ensures handlers.onText ==> ConcatText(PartEvents(p, handlers)) == p.text
    ensures MessageCount(PartEvents(p, handlers)) == 0
  {
    var t := if p.text != "" && handlers.onText then [TextDelta(p.text)] else [];
    var u := if p.functionCall.Some? && handlers.onToolUse
             then [ToolUse(p.functionCall.value.name, p.functionCall.value.name, p.functionCall.value.args)] else [];
    ConcatTextAppend(t, u);
    MessageCountAppend(t, u);
    if t != [] { assert t[..0] == []; }
    if u != [] { assert u[..0] == []; }
  }

  lemma {:induction false} TextEventsSpellText(ps: seq<Part>, handlers: Handlers)
    requires handlers.onText
    ensures ConcatText(PartsEvents(ps, handlers)) == PartsText(ps)
    decreases |ps|
  {
    if ps != [] {
      var init, p := ps[..|ps| - 1], ps[|ps| - 1];
      TextEventsSpellText(init, handlers);
      ConcatTextAppend(PartsEvents(init, handlers), PartEvents(p, handlers));
      PartEventsText(p, handlers);
    }
  }

  lemma {:induction false} NoMessagesInParts(ps: seq<Part>, handlers: Handlers)
    ensures MessageCount(PartsEvents(ps, handlers)) == 0
    decreases |ps|
  {
    if ps != [] {
      var init, p := ps[..|ps| - 1], ps[|ps| - 1];
      NoMessagesInParts(init, handlers);
      MessageCountAppend(PartsEvents(init, handlers), PartEvents(p, handlers));
      PartEventsText(p, handlers);
    }
  }

  /** How a successful invocation settles: the parts' handler calls, then `onMessage` if supplied, and the end-turn message. */
  lemma GeminiTraceShape(req: ConversationRequest, handlers: Handlers, prompts: Prompts.PromptTable, chunks: seq<Chunk>)
    requires StreamOutcome(req, handlers, prompts, chunks).result.Success?
    ensures var parts := StreamParts(chunks);
      var out := StreamOutcome(req, handlers, prompts, chunks);
      && out.trace == PartsEvents(parts, handlers) + (if handlers.onMessage then [MessageComplete(EndTurn(PartsText(parts)))] else [])
      && out.result == Success(EndTurn(PartsText(parts)))
  {
  }

  /**
   * A successful invocation settles with `{role: 'assistant', content,
   * stop_reason: 'end_turn'}`, whose content is the concatenation of every
   * part's text and equals what `onText` received when supplied; `onMessage`
   * is called exactly once, last, when supplied.
   */
  lemma GeminiFinalMessage(req: ConversationRequest, handlers: Handlers, prompts: Prompts.PromptTable, chunks: seq<Chunk>)
    requires StreamOutcome(req, handlers, prompts, chunks).result.Success?
    ensures var out := StreamOutcome(req, handlers, prompts, chunks);
      && out.result.value == FinalMessage("assistant", PartsText(StreamParts(chunks)), "end_turn")
      && (handlers.onText ==> ConcatText(out.trace) == out.result.value.content)
      && MessageCount(out.trace) == (if handlers.onMessage then 1 else 0)
      && (handlers.onMessage ==> out.trace[|out.trace| - 1] == MessageComplete(out.result.value))
  {
    GeminiTraceShape(req, handlers, prompts, chunks);
    SettledTraceFacts(StreamParts(chunks), handlers);
  }

  /**
   * The settled trace of the parts `ps`: its text deltas spell the parts'
   * text, and `onMessage` occurs exactly once, last, when supplied.
   */
  lemma SettledTraceFacts(ps: seq<Part>, handlers: Handlers)
    ensures var trace := PartsEvents(ps, handlers)
                         + (if handlers.onMessage then [MessageComplete(EndTurn(PartsText(ps)))] else []);
      && (handlers.onText ==> ConcatText(trace) == PartsText(ps))
      && MessageCount(trace) == (if handlers.onMessage then 1 else 0)
      && (handlers.onMessage ==> trace[|trace| - 1] == MessageComplete(EndTurn(PartsText(ps))))
  {
    var events := PartsEvents(ps, handlers);
    var tail := if handlers.onMessage then [MessageComplete(EndTurn(PartsText(ps)))] else [];
    NoMessagesInParts(ps, handlers);
    MessageCountAppend(events, tail);
    if tail != [] {
      assert tail[..0] == [];
    }
    if handlers.onText {
      TextEventsSpellText(ps, handlers);
      ConcatTextAppend(events, tail);
    }
  }

  /** An empty history rejects before anything is sent or any handler runs. */
  lemma GeminiEmptyHistoryRejects(req: ConversationRequest, handlers: Handlers, prompts: Prompts.PromptTable, chunks: seq<Chunk>)
    requires req.messages == [] && Prompts.GetSystemPrompt(prompts, Prompts.PromptTypeOf(req)).Success?
    ensures StreamOutcome(req, handlers, prompts, chunks) == Invocation(None, [], Failure(NoLastMessage))
  {
  }
}
