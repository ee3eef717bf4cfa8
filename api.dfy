/** The Baichuan chat-completion client: the records it exchanges, the small
    pure helpers on them, and the streaming pipeline that turns the raw
    server-sent events of a streamed completion into merged chunks. */
module Api {
  import opened Lang
  import StreamOps
  import ToolWindows

  // ---------------------------------------------------------------- records

  /** Why the model stopped generating ("stop", "length", "content_filter",
      "tool_calls", "function_call", and "tool_call" kept for Mistral AI
      compatibility). */
  datatype FinishReason = Stop | Length | ContentFilter | ToolCalls | FunctionCall | MistralToolCall

  /** The author of a message. */
  datatype Role = System | User | Assistant | Tool

  /** Token counts of one completion; each count may be absent (null). */
  datatype Usage = Usage(promptTokens: Option<Int32>, totalTokens: Option<Int32>, completionTokens: Option<Int32>)

  /** The function a tool call invokes, with its (possibly partial) arguments. */
  datatype ChatCompletionFunction = ChatCompletionFunction(name: Option<string>, arguments: Option<string>)

  /** One tool call of a message. */
  datatype ToolCall = ToolCall(id: Option<string>, kind: Option<string>, call: Option<ChatCompletionFunction>)

  /** The untyped "content" of a message: a JSON string, or any other JSON
      value (an array of parts, an object, a number ...), kept as its text. */
  datatype RawContent = Text(text: string) | NonText(json: string)

  /** A message of the conversation, also used as the delta of a streamed chunk. */
  datatype ChatCompletionMessage = ChatCompletionMessage(
    rawContent: Option<RawContent>,
    role: Option<Role>,
    name: Option<string>,
    toolCallId: Option<string>,
    toolCalls: Option<seq<ToolCall>>)

  /** One choice of a streamed chunk. */
  datatype ChunkChoice = ChunkChoice(
    index: Option<Int32>,
    delta: Option<ChatCompletionMessage>,
    finishReason: Option<FinishReason>,
    usage: Option<Usage>)

  /** One decoded server-sent event of a streamed completion. */
  datatype ChatCompletionChunk = ChatCompletionChunk(
    id: Option<string>,
    objectType: Option<string>,
    created: Option<Int64>,
    model: Option<string>,
    choices: Option<seq<ChunkChoice>>)

  /** A function tool offered to the model. */
  datatype FunctionTool = FunctionTool(description: Option<string>, name: Option<string>)

  /** A chat completion request; every field may be null. */
  datatype ChatCompletionRequest = ChatCompletionRequest(
    messages: seq<ChatCompletionMessage>,
    model: Option<string>,
    stream: Option<bool>,
    temperature: Option<real>,
    topP: Option<real>,
    topK: Option<Int32>,
    maxTokens: Option<Int32>,
    tools: Option<seq<FunctionTool>>,
    toolChoice: Option<string>)

  // ---------------------------------------------------------------- messages

  /** The two-argument message constructor: content and role, nothing else. */
  function NewMessage(content: Option<RawContent>, role: Option<Role>): (m: ChatCompletionMessage)
    ensures m.rawContent == content && m.role == role
    ensures m.name.None? && m.toolCallId.None? && m.toolCalls.None?
  {
    ChatCompletionMessage(content, role, None, None, None)
  }

  /** The message content as a string: null stays null, a JSON string is
      returned as it is, any other content is refused. */
  function Content(m: ChatCompletionMessage): (r: Result<Option<string>, JavaError>)
    ensures r.Failure? <==> m.rawContent.Some? && m.rawContent.value.NonText?
    ensures r.Failure? ==> r.error == IllegalState("The content is not a string!")
    ensures r == Success(None) <==> m.rawContent.None?
    ensures r.Success? && r.value.Some? ==> m.rawContent == Some(Text(r.value.value))
  {
    match m.rawContent
    case None => Success(None)
    case Some(Text(text)) => Success(Some(text))
    case Some(NonText(_)) => Failure(IllegalState("The content is not a string!"))
  }

  /** Text stored by the message constructor is what content() gives back. */
  lemma ContentOfNewMessage(text: string, role: Option<Role>)
    ensures Content(NewMessage(Some(Text(text)), role)) == Success(Some(text))
    ensures Content(NewMessage(None, role)) == Success(None)
  {
  }

  // ---------------------------------------------------------------- web search

  const DefaultSearchMode: string := "performance_first"

  /** The web-search options of a web-search tool. */
  datatype WebSearch = WebSearch(enable: bool, searchMode: string)

  /** The WebSearch constructor as written: a null flag is false, and the
      search mode falls back to the default unless it is a non-null string
      that is blank after trimming -- so a chosen mode such as
      "quality_first" is replaced by the default. */
  function NewWebSearch(enable: Option<bool>, searchMode: Option<string>): (w: WebSearch)
    ensures w.enable <==> enable == Some(true)
    ensures searchMode.Some? && TrimsToEmpty(searchMode.value) ==> w.searchMode == searchMode.value
    ensures !(searchMode.Some? && TrimsToEmpty(searchMode.value)) ==> w.searchMode == DefaultSearchMode
  {
    WebSearch(
      if enable.None? then false else enable.value,
      if searchMode.None? || Trim(searchMode.value) != [] then DefaultSearchMode else searchMode.value)
  }

  /** The WebSearch constructor with the evidently intended test: the search
      mode falls back to the default when it is null or blank, and a chosen
      mode is kept. */
  function IntendedWebSearch(enable: Option<bool>, searchMode: Option<string>): (w: WebSearch)
    ensures w.enable <==> enable == Some(true)
    ensures searchMode.Some? && !TrimsToEmpty(searchMode.value) ==> w.searchMode == searchMode.value
    ensures searchMode.None? || TrimsToEmpty(searchMode.value) ==> w.searchMode == DefaultSearchMode
    ensures !TrimsToEmpty(w.searchMode)
  {
    assert DefaultSearchMode[0] == 'p';
    WebSearch(
      if enable.None? then false else enable.value,
      if searchMode.None? || Trim(searchMode.value) == [] then DefaultSearchMode else searchMode.value)
  }

  /** A chosen, non-blank search mode is discarded by the constructor as
      written and kept by the intended one. */
  lemma WebSearchDiscardsChosenMode()
    ensures NewWebSearch(None, Some("quality_first")).searchMode == DefaultSearchMode
    ensures IntendedWebSearch(None, Some("quality_first")).searchMode == "quality_first"
  {
  }

  /** The two constructors agree exactly when no search mode is given or the
      default one is. */
  lemma WebSearchAsWrittenVersusIntended(enable: Option<bool>, searchMode: Option<string>)
    ensures NewWebSearch(enable, searchMode) == IntendedWebSearch(enable, searchMode)
            <==> searchMode.None? || searchMode.value == DefaultSearchMode
  {
  }

  // ---------------------------------------------------------------- requests

  const DefaultChatModel: string := "Baichuan4-Air"

  /** Shortcut constructor with messages and model. */
  function RequestOf(messages: seq<ChatCompletionMessage>, model: Option<string>): (r: ChatCompletionRequest)
    ensures r.messages == messages && r.model == model
    ensures r.stream == Some(false) && r.temperature == Some(0.3) && r.topP == Some(0.85) && r.topK == Some(5)
    ensures r.maxTokens.None? && r.tools.None? && r.toolChoice.None?
  {
    ChatCompletionRequest(messages, model, Some(false), Some(0.3), Some(0.85), Some(5), None, None, None)
  }

  /** Shortcut constructor with messages, model, temperature and stream flag. */
  function RequestWithTemperatureAndStream(messages: seq<ChatCompletionMessage>, model: Option<string>,
      temperature: Option<real>, stream: bool): (r: ChatCompletionRequest)
    ensures r.messages == messages && r.model == model
    ensures r.stream == Some(stream) && r.temperature == temperature && r.topP == Some(0.85) && r.topK == Some(5)
    ensures r.maxTokens.None? && r.tools.None? && r.toolChoice.None?
  {
    ChatCompletionRequest(messages, model, Some(stream), temperature, Some(0.85), Some(5), None, None, None)
  }

  /** Shortcut constructor with messages, model and temperature. */
  function RequestWithTemperature(messages: seq<ChatCompletionMessage>, model: Option<string>,
      temperature: Option<real>): (r: ChatCompletionRequest)
    ensures r.messages == messages && r.model == model
    ensures r.stream.None? && r.temperature == temperature && r.topP == Some(0.85) && r.topK == Some(5)
    ensures r.maxTokens.None? && r.tools.None? && r.toolChoice.None?
  {
    ChatCompletionRequest(messages, model, None, temperature, Some(0.85), Some(5), None, None, None)
  }

  /** Shortcut constructor with messages, model, tools and tool choice. */
  function RequestWithTools(messages: seq<ChatCompletionMessage>, model: Option<string>,
      tools: Option<seq<FunctionTool>>, toolChoice: Option<string>): (r: ChatCompletionRequest)
    ensures r.messages == messages && r.model == model && r.toolChoice == toolChoice
    ensures r.stream.None? && r.temperature.None? && r.topP == Some(0.85) && r.topK == Some(5)
    ensures r.maxTokens.None? && r.tools.None?
  {
    ChatCompletionRequest(messages, model, None, None, Some(0.85), Some(5), None, None, toolChoice)
  }

  /** Shortcut constructor with messages and stream flag, on the default model. */
  function RequestWithStream(messages: seq<ChatCompletionMessage>, stream: Option<bool>): (r: ChatCompletionRequest)
    ensures r.messages == messages && r.model == Some(DefaultChatModel)
    ensures r.stream == stream && r.temperature.None? && r.topP == Some(0.85) && r.topK == Some(5)
    ensures r.maxTokens.None? && r.tools.None? && r.toolChoice.None?
  {
    ChatCompletionRequest(messages, Some(DefaultChatModel), stream, None, Some(0.85), Some(5), None, None, None)
  }

  /** Every shortcut constructor keeps the messages, sets top_p 0.85 and
      top_k 5, and leaves max_tokens and tools unset. */
  lemma ShortcutSamplingDefaults(messages: seq<ChatCompletionMessage>, model: Option<string>,
      temperature: Option<real>, stream: bool, tools: Option<seq<FunctionTool>>,
      toolChoice: Option<string>, streamFlag: Option<bool>)
    ensures forall r <- [RequestOf(messages, model),
                         RequestWithTemperatureAndStream(messages, model, temperature, stream),
                         RequestWithTemperature(messages, model, temperature),
                         RequestWithTools(messages, model, tools, toolChoice),
                         RequestWithStream(messages, streamFlag)] ::
              r.messages == messages && r.topP == Some(0.85) && r.topK == Some(5)
              && r.maxTokens.None? && r.tools.None?
  {
  }

  /** The tools overload stores neither the tools nor a temperature: its
      result does not depend on the tools passed, and only the tool choice
      is kept. */
  lemma ToolsOverloadDropsTools(messages: seq<ChatCompletionMessage>, model: Option<string>,
      tools1: Option<seq<FunctionTool>>, tools2: Option<seq<FunctionTool>>, toolChoice: Option<string>)
    ensures RequestWithTools(messages, model, tools1, toolChoice) == RequestWithTools(messages, model, tools2, toolChoice)
    ensures var r := RequestWithTools(messages, model, tools1, toolChoice);
            r.tools.None? && r.temperature.None? && r.stream.None? && r.toolChoice == toolChoice
  {
  }

  // ---------------------------------------------------------------- streaming

  /** The argument checks of the streaming call: the request must be present,
      and its stream flag must be true (a null flag fails on unboxing). */
  function CheckStreamRequest(request: Option<ChatCompletionRequest>): (r: Outcome<JavaError>)
    ensures r.Pass? <==> request.Some? && request.value.stream == Some(true)
    ensures request.None? ==> r == Fail(IllegalArgument("The request body can not be null."))
    ensures request.Some? && request.value.stream.None? ==> r == Fail(NullPointer)
    ensures request.Some? && request.value.stream == Some(false)
            ==> r == Fail(IllegalArgument("Request must set the steam property to true."))
  {
    if request.None? then Fail(IllegalArgument("The request body can not be null."))
    else if request.value.stream.None? then Fail(NullPointer)
    else if !request.value.stream.value then Fail(IllegalArgument("Request must set the steam property to true."))
    else Pass
  }

  /** Of the shortcut requests, only those built with stream = true can be
      streamed; the messages-and-model one is refused, and the
      temperature-only and tools overloads leave the flag null. */
  lemma StreamCheckOnShortcuts(messages: seq<ChatCompletionMessage>, model: Option<string>,
      temperature: Option<real>, tools: Option<seq<FunctionTool>>, toolChoice: Option<string>)
    ensures CheckStreamRequest(Some(RequestOf(messages, model))).Fail?
    ensures CheckStreamRequest(Some(RequestWithTemperature(messages, model, temperature))) == Fail(NullPointer)
    ensures CheckStreamRequest(Some(RequestWithTools(messages, model, tools, toolChoice))) == Fail(NullPointer)
    ensures CheckStreamRequest(Some(RequestWithTemperatureAndStream(messages, model, temperature, true))).Pass?
    ensures CheckStreamRequest(Some(RequestWithStream(messages, Some(true)))).Pass?
  {
  }

  /** The argument checks of the blocking call: the request must be present,
      and its stream flag must be false (a null flag fails on unboxing). */
  function CheckEntityRequest(request: Option<ChatCompletionRequest>): (r: Outcome<JavaError>)
    ensures r.Pass? <==> request.Some? && request.value.stream == Some(false)
    ensures request.None? ==> r == Fail(IllegalArgument("The request body can not be null."))
    ensures request.Some? && request.value.stream.None? ==> r == Fail(NullPointer)
    ensures request.Some? && request.value.stream == Some(true)
            ==> r == Fail(IllegalArgument("Request must set the stream property to false."))
  {
    if request.None? then Fail(IllegalArgument("The request body can not be null."))
    else if request.value.stream.None? then Fail(NullPointer)
    else if request.value.stream.value then Fail(IllegalArgument("Request must set the stream property to false."))
    else Pass
  }

  /** No request passes both argument checks, and a request with a null
      stream flag passes neither. */
  lemma EntityAndStreamChecksExclusive(request: Option<ChatCompletionRequest>)
    ensures !(CheckEntityRequest(request).Pass? && CheckStreamRequest(request).Pass?)
    ensures request.Some? && request.value.stream.None?
            ==> CheckEntityRequest(request).Fail? && CheckStreamRequest(request).Fail?
  {
  }

  /** Of the shortcut requests, the messages-and-model one is the one the
      blocking call accepts; the temperature-only and tools overloads leave
      the flag null, so both endpoints refuse them. */
  lemma EntityCheckOnShortcuts(messages: seq<ChatCompletionMessage>, model: Option<string>,
      temperature: Option<real>, tools: Option<seq<FunctionTool>>, toolChoice: Option<string>)
    ensures CheckEntityRequest(Some(RequestOf(messages, model))).Pass?
    ensures CheckEntityRequest(Some(RequestWithTemperature(messages, model, temperature))) == Fail(NullPointer)
    ensures CheckEntityRequest(Some(RequestWithTools(messages, model, tools, toolChoice))) == Fail(NullPointer)
    ensures CheckEntityRequest(Some(RequestWithTemperatureAndStream(messages, model, temperature, false))).Pass?
    ensures CheckEntityRequest(Some(RequestWithStream(messages, Some(true)))).Fail?
  {
  }

  /** The stream-merging collaborator, whose code is not part of this model:
      the start and finish tests of a streamed tool call and the merge step. */
  datatype ChunkMerger = ChunkMerger(
    isStreamingToolFunctionCall: ChatCompletionChunk -> bool,
    isStreamingToolFunctionCallFinish: ChatCompletionChunk -> bool,
    merge: (ChatCompletionChunk, ChatCompletionChunk) -> ChatCompletionChunk)

  /** The seed of every window's reduction: a chunk with every field null. */
  const EmptyChunk := ChatCompletionChunk(None, None, None, None, None)

  /** The sentinel event that ends the stream. */
  predicate IsDone(event: string)
  {
    event == "[DONE]"
  }

  /** The events that reach the decoder: takeUntil the sentinel, then filter it out. */
  function Undone(events: seq<string>): seq<string>
  {
    StreamOps.FilterOut(StreamOps.TakeUntil(events, IsDone), IsDone)
  }

  /** Every event decoded, in order. */
  function DecodeAll(events: seq<string>, decode: string -> ChatCompletionChunk): (chunks: seq<ChatCompletionChunk>)
  {
    seq(|events|, i requires 0 <= i < |events| => decode(events[i]))
  }

  /** One output per window, in window order: the window reduced with merge
      from the all-null seed. */
  function MergeWindows(windows: seq<seq<ChatCompletionChunk>>,
      merge: (ChatCompletionChunk, ChatCompletionChunk) -> ChatCompletionChunk): seq<ChatCompletionChunk>
  {
    seq(|windows|, k requires 0 <= k < |windows| => StreamOps.FoldLeft(merge, EmptyChunk, windows[k]))
  }

  /** The merged chunks produced for a sequence of decoded chunks. */
  function MergedStream(chunks: seq<ChatCompletionChunk>, merger: ChunkMerger): seq<ChatCompletionChunk>
  {
    MergeWindows(
      ToolWindows.Windows(chunks, merger.isStreamingToolFunctionCall, merger.isStreamingToolFunctionCallFinish),
      merger.merge)
  }

  /** The merged chunks produced for a sequence of raw events. */
  function StreamOutput(events: seq<string>, decode: string -> ChatCompletionChunk, merger: ChunkMerger)
    : seq<ChatCompletionChunk>
  {
    MergedStream(DecodeAll(Undone(events), decode), merger)
  }

  /** The first two stages: each event passes takeUntil, the sentinel is
      filtered out, and the stream completes right after it.  The events
      kept are exactly those before the first sentinel. */
  method DropDone(events: seq<string>) returns (kept: seq<string>)
    ensures kept == Undone(events)
    ensures kept == events[..|kept|]
    ensures forall i :: 0 <= i < |kept| ==> !IsDone(kept[i])
    ensures |kept| < |events| ==> IsDone(events[|kept|])
  {
    kept := [];
    var i := 0;
    var completed := false;
    while i < |events| && !completed
      invariant 0 <= i <= |events|
      invariant completed ==> 0 < i && IsDone(events[i - 1])
      invariant kept == events[..if completed then i - 1 else i]
      invariant forall j :: 0 <= j < |kept| ==> !IsDone(kept[j])
    {
      var event := events[i];
      if !IsDone(event) {
        kept := kept + [event];
      }
      completed := IsDone(event);
      i := i + 1;
    }
    StreamOps.TakeUntilThenFilterOutExact(events, IsDone, |kept|);
  }

  /** chatCompletionStream once the HTTP response has delivered its events:
      check the request, cut the events at the sentinel, decode them, cut
      the chunks into windows with the inside-tool flag, and reduce each
      window to one chunk. */
  method ChatCompletionStream(request: Option<ChatCompletionRequest>, events: seq<string>,
      decode: string -> ChatCompletionChunk, merger: ChunkMerger)
    returns (r: Result<seq<ChatCompletionChunk>, JavaError>)
    ensures CheckStreamRequest(request).Fail? ==> r == Failure(CheckStreamRequest(request).error)
    ensures CheckStreamRequest(request).Pass? ==> r == Success(StreamOutput(events, decode, merger))
  {
    var check := CheckStreamRequest(request);
    if check.Fail? {
      return Failure(check.error);
    }
    var kept := DropDone(events);
    var chunks := DecodeAll(kept, decode);
    var windows := ToolWindows.WindowUntilToolFinish(
      chunks, merger.isStreamingToolFunctionCall, merger.isStreamingToolFunctionCallFinish);
    var merged: seq<ChatCompletionChunk> := [];
    for k := 0 to |windows|
      invariant |merged| == k
      invariant forall j :: 0 <= j < k ==> merged[j] == StreamOps.FoldLeft(merger.merge, EmptyChunk, windows[j])
    {
      var one := StreamOps.Reduce(windows[k], EmptyChunk, merger.merge);
      merged := merged + [one];
    }
    assert merged == MergeWindows(windows, merger.merge);
    r := Success(merged);
  }

  /** Events after the first sentinel never reach the output: the result is
      that of the events before it. */
  lemma {:induction false} NothingAfterDone(events: seq<string>, rest: seq<string>,
      decode: string -> ChatCompletionChunk, merger: ChunkMerger)
    requires forall i :: 0 <= i < |events| ==> !IsDone(events[i])
    ensures Undone(events + ["[DONE]"] + rest) == events
    ensures Undone(events) == events
    ensures StreamOutput(events + ["[DONE]"] + rest, decode, merger) == StreamOutput(events, decode, merger)
  {
    var s := events + ["[DONE]"] + rest;
    assert s[..|events|] == events && s[|events|] == "[DONE]";
    StreamOps.TakeUntilThenFilterOutExact(s, IsDone, |events|);
    assert events[..|events|] == events;
    StreamOps.TakeUntilThenFilterOutExact(events, IsDone, |events|);
  }

  /** Without any streamed tool call every chunk is its own window: one
      output per chunk, the chunk merged into the all-null seed. */
  lemma PlainChunksPassAlone(chunks: seq<ChatCompletionChunk>, merger: ChunkMerger)
    requires forall i :: 0 <= i < |chunks| ==> !merger.isStreamingToolFunctionCall(chunks[i])
    ensures |MergedStream(chunks, merger)| == |chunks|
    ensures forall i :: 0 <= i < |chunks| ==> MergedStream(chunks, merger)[i] == merger.merge(EmptyChunk, chunks[i])
  {
    ToolWindows.NoStartChunksGiveSingletons(
      chunks, merger.isStreamingToolFunctionCall, merger.isStreamingToolFunctionCallFinish);
    var ws := ToolWindows.Windows(
      chunks, merger.isStreamingToolFunctionCall, merger.isStreamingToolFunctionCallFinish);
    forall i | 0 <= i < |chunks|
      ensures MergedStream(chunks, merger)[i] == merger.merge(EmptyChunk, chunks[i])
    {
      assert ws[i] == [chunks[i]];
      assert [chunks[i]][..0] == [];
      assert StreamOps.FoldLeft(merger.merge, EmptyChunk, [chunks[i]]) == merger.merge(EmptyChunk, chunks[i]);
    }
  }

  /** A plain chunk, a tool call streamed in three chunks and another plain
      chunk give three outputs: the first chunk, the three tool-call chunks
      merged in order, and the last chunk. */
  lemma PlainToolPlainStream(a: ChatCompletionChunk, b: ChatCompletionChunk, c: ChatCompletionChunk,
      d: ChatCompletionChunk, e: ChatCompletionChunk, merger: ChunkMerger)
    requires !merger.isStreamingToolFunctionCall(a) && !merger.isStreamingToolFunctionCall(e)
    requires merger.isStreamingToolFunctionCall(b) && !merger.isStreamingToolFunctionCallFinish(b)
    requires !merger.isStreamingToolFunctionCallFinish(c) && merger.isStreamingToolFunctionCallFinish(d)
    ensures MergedStream([a, b, c, d, e], merger)
            == [merger.merge(EmptyChunk, a),
                merger.merge(merger.merge(merger.merge(EmptyChunk, b), c), d),
                merger.merge(EmptyChunk, e)]
  {
    ToolWindows.PlainToolPlainWindows(a, b, c, d, e,
      merger.isStreamingToolFunctionCall, merger.isStreamingToolFunctionCallFinish);
    var m := merger.merge;
    assert [a][..0] == [] && [e][..0] == [];
    assert [b, c, d][..2] == [b, c] && [b, c][..1] == [b] && [b][..0] == [];
    assert StreamOps.FoldLeft(m, EmptyChunk, [a]) == m(EmptyChunk, a);
    assert StreamOps.FoldLeft(m, EmptyChunk, [e]) == m(EmptyChunk, e);
    assert StreamOps.FoldLeft(m, EmptyChunk, [b]) == m(EmptyChunk, b);
    assert StreamOps.FoldLeft(m, EmptyChunk, [b, c]) == m(m(EmptyChunk, b), c);
    assert StreamOps.FoldLeft(m, EmptyChunk, [b, c, d]) == m(m(m(EmptyChunk, b), c), d);
  }
}
