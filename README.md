# Baichuan chat client: streamed tool-call windowing

A Dafny model of the core of the Baichuan chat-completion client in Spring AI
(`BaichuanApi` and `BaichuanUsage`).

The heart of it is `chatCompletionStream`. It turns the server-sent events of a
streamed completion into chunks in three steps:

1. The events are cut at the first `"[DONE]"` sentinel (`takeUntil`), and the
   sentinel itself is dropped (`filter`).
2. Each event is decoded to a chunk. A boolean `isInsideTool`, initially false,
   groups the chunks into windows. A chunk that starts a streamed tool call
   raises the flag. While the flag is up, a chunk that finishes the call lowers
   it and closes the window after itself. With the flag down, a chunk that does not
   start a tool call is a window of its own.
3. Each window is reduced to one chunk: a left fold of the merge step, seeded
   with a chunk whose fields are all null.

The start test, the finish test and the merge step belong to a helper class
that is not part of this model. They are function-typed fields of the
`ChunkMerger` value. So every property of the windowing and the fold holds for
any start test, finish test and merge step.

Modules, one per concern:

- `Lang` (`lang.dfy`): null (`Option`), thrown exceptions (`Result`, `Outcome`,
  `JavaError`), `Integer`/`Long` ranges and widening, and `String.trim()`.
- `StreamOps` (`stream_ops.dfy`): the Reactor operators `takeUntil`, `filter`
  and `reduce`, read on the finite sequence of elements a stream delivers.
- `ToolWindows` (`tool_windows.dfy`): the `isInsideTool` flag machine
  (`Advance`, `Windowed`), a reference definition of the windows (`Windows`),
  the proof that the two agree and that the reference is the only split with
  the required shape, and the windowing loop `WindowUntilToolFinish`.
- `Api` (`api.dfy`): the records, `content()`, the `WebSearch` constructor, the
  request shortcut constructors, the argument check of the streaming call and
  the whole streaming pipeline `ChatCompletionStream`.
- `Metadata` (`metadata.dfy`): `BaichuanUsage`, its construction and its three
  token getters.

## Model

| member | source | states |
|---|---|---|
| `StreamOps.TakeUntil` | models/spring-ai-baichuan/src/main/java/org/springframework/ai/baichuan/api/BaichuanApi.java:139 | the result is a prefix of the events; no element before its last one is the sentinel; it is the whole input or ends with the sentinel |
| `StreamOps.FilterOut` | models/spring-ai-baichuan/src/main/java/org/springframework/ai/baichuan/api/BaichuanApi.java:141 | no kept element is the sentinel; every kept element comes from the input; every non-sentinel element of the input is kept |
| `StreamOps.FilterOutSingle` | models/spring-ai-baichuan/src/main/java/org/springframework/ai/baichuan/api/BaichuanApi.java:141 | a single event is kept exactly when it is not the sentinel |
| `StreamOps.FilterOutAppend` | models/spring-ai-baichuan/src/main/java/org/springframework/ai/baichuan/api/BaichuanApi.java:141 | filtering a + b is filtering a followed by filtering b, so kept events stay in input order, each once |
| `StreamOps.FilterOutNothingDropped` | models/spring-ai-baichuan/src/main/java/org/springframework/ai/baichuan/api/BaichuanApi.java:141 | a stream with no sentinel passes the filter unchanged |
| `StreamOps.TakeUntilThenFilterOut` | models/spring-ai-baichuan/src/main/java/org/springframework/ai/baichuan/api/BaichuanApi.java:139-141 | takeUntil then filter keeps a prefix with no sentinel in it, and the next event (if any) is the sentinel |
| `StreamOps.TakeUntilThenFilterOutStep` | models/spring-ai-baichuan/src/main/java/org/springframework/ai/baichuan/api/BaichuanApi.java:139-141 | an event before the sentinel passes both operators and stays at the front of what the rest of the stream yields |
| `StreamOps.TakeUntilThenFilterOutExact` | models/spring-ai-baichuan/src/main/java/org/springframework/ai/baichuan/api/BaichuanApi.java:139-141 | the kept events are exactly the events before the first sentinel |
| `Api.DropDone` | models/spring-ai-baichuan/src/main/java/org/springframework/ai/baichuan/api/BaichuanApi.java:139-141 | the per-event loop keeps exactly the events before the first `"[DONE]"`: a prefix with no sentinel, followed by the sentinel or by the end of the stream |
| `Api.NothingAfterDone` | models/spring-ai-baichuan/src/main/java/org/springframework/ai/baichuan/api/BaichuanApi.java:139-141 | events after the first sentinel never influence the output; a stream without the sentinel is kept whole |
| `ToolWindows.Advance` | models/spring-ai-baichuan/src/main/java/org/springframework/ai/baichuan/api/BaichuanApi.java:144-158 | per chunk: the flag is down afterwards exactly when the window closes; the flag is raised only by a start chunk and lowered only by a finish chunk; with the flag down an ordinary chunk closes at once; inside a tool call only a finish chunk closes |
| `ToolWindows.Windowed` | models/spring-ai-baichuan/src/main/java/org/springframework/ai/baichuan/api/BaichuanApi.java:144-158 | the flag machine run from any flag and open window: its windows concatenate to the open window followed by the chunks, and none is empty |
| `ToolWindows.UpToFinish` | models/spring-ai-baichuan/src/main/java/org/springframework/ai/baichuan/api/BaichuanApi.java:152-158 | a tool-call window reaches up to and including the first finish chunk, or to the end of the stream when none comes |
| `ToolWindows.FirstWindowWellShaped` | models/spring-ai-baichuan/src/main/java/org/springframework/ai/baichuan/api/BaichuanApi.java:144-158 | the first reference window meets the window conditions and is the last window exactly when it takes every chunk |
| `ToolWindows.WindowsIsToolPartition` | models/spring-ai-baichuan/src/main/java/org/springframework/ai/baichuan/api/BaichuanApi.java:144-158 | the windows concatenate back to the chunks (none dropped, duplicated or reordered); each is non-empty; a window not opened by a start chunk is that chunk alone; a tool-call window holds no finish chunk before its last, and its last is a finish chunk unless the stream ended inside the call |
| `ToolWindows.ToolPartitionUnique` | models/spring-ai-baichuan/src/main/java/org/springframework/ai/baichuan/api/BaichuanApi.java:144-158 | any split of the chunks with that shape is the reference split |
| `ToolWindows.InsideToolWindow` | models/spring-ai-baichuan/src/main/java/org/springframework/ai/baichuan/api/BaichuanApi.java:152-158 | with the flag up, the open window extends to the first finish chunk inclusive, and after it the flag is down |
| `ToolWindows.StartChunkWindow` | models/spring-ai-baichuan/src/main/java/org/springframework/ai/baichuan/api/BaichuanApi.java:144-158 | from the flag down, a start chunk that does not finish opens a window running to the first finish chunk inclusive, after which the machine restarts with the flag down |
| `ToolWindows.FlagMachineMatchesReference` | models/spring-ai-baichuan/src/main/java/org/springframework/ai/baichuan/api/BaichuanApi.java:131-158 | the flag machine, started with the flag down, produces exactly the reference windows |
| `ToolWindows.WindowUntilToolFinish` | models/spring-ai-baichuan/src/main/java/org/springframework/ai/baichuan/api/BaichuanApi.java:131-158 | the loop over the chunks with the mutable flag returns the reference windows, a well-shaped split of the chunks; its invariant keeps the flag up exactly while a window is open |
| `ToolWindows.NoStartChunksGiveSingletons` | models/spring-ai-baichuan/src/main/java/org/springframework/ai/baichuan/api/BaichuanApi.java:144-157 | when no chunk starts a tool call, every chunk is a window of its own |
| `ToolWindows.PlainToolPlainWindows` | models/spring-ai-baichuan/src/main/java/org/springframework/ai/baichuan/api/BaichuanApi.java:144-158 | plain chunk, start, continuation, finish, plain chunk give the three windows [a], [b, c, d], [e] |
| `StreamOps.FoldLeftAppend` | models/spring-ai-baichuan/src/main/java/org/springframework/ai/baichuan/api/BaichuanApi.java:164-166 | reducing a window in two parts equals reducing it at once |
| `StreamOps.Reduce` | models/spring-ai-baichuan/src/main/java/org/springframework/ai/baichuan/api/BaichuanApi.java:164-166 | the accumulator loop returns the left fold of merge over the window from the seed |
| `Api.ChatCompletionStream` | models/spring-ai-baichuan/src/main/java/org/springframework/ai/baichuan/api/BaichuanApi.java:128-171 | a bad request fails with the check's exception; otherwise the output is one merged chunk per window, in window order, each the fold of merge from the all-null chunk over that window of the decoded events before the sentinel |
| `Api.PlainChunksPassAlone` | models/spring-ai-baichuan/src/main/java/org/springframework/ai/baichuan/api/BaichuanApi.java:144-170 | without tool calls there is one output per chunk, the chunk merged into the all-null seed |
| `Api.PlainToolPlainStream` | models/spring-ai-baichuan/src/main/java/org/springframework/ai/baichuan/api/BaichuanApi.java:144-170 | plain, start, continuation, finish, plain give three outputs: merge(seed, a), the three tool-call chunks merged in order, merge(seed, e) |
| `Api.CheckStreamRequest` | models/spring-ai-baichuan/src/main/java/org/springframework/ai/baichuan/api/BaichuanApi.java:129-130 | the streaming call proceeds exactly when the request is present with stream = true; a missing request and a false flag raise their argument errors; a null flag fails on unboxing |
| `Api.StreamCheckOnShortcuts` | models/spring-ai-baichuan/src/main/java/org/springframework/ai/baichuan/api/BaichuanApi.java:129-130 | of the shortcut requests only those built with stream = true pass; the messages-and-model request is refused; the temperature-only and tools requests fail on their null flag |
| `Api.CheckEntityRequest` | models/spring-ai-baichuan/src/main/java/org/springframework/ai/baichuan/api/BaichuanApi.java:112-113 | the blocking call proceeds exactly when the request is present with stream = false; a missing request and a true flag raise their argument errors; a null flag fails on unboxing |
| `Api.EntityAndStreamChecksExclusive` | models/spring-ai-baichuan/src/main/java/org/springframework/ai/baichuan/api/BaichuanApi.java:112-113 | no request passes the checks of both endpoints, and a request with a null stream flag passes neither |
| `Api.EntityCheckOnShortcuts` | models/spring-ai-baichuan/src/main/java/org/springframework/ai/baichuan/api/BaichuanApi.java:112-113 | the messages-and-model request passes the blocking check; the temperature-only and tools requests fail on their null flag there too; a stream = true request is refused |
| `Api.Content` | models/spring-ai-baichuan/src/main/java/org/springframework/ai/baichuan/api/BaichuanApi.java:430-438 | null content gives null; string content is returned unchanged; any other content raises IllegalStateException("The content is not a string!") |
| `Api.NewMessage` | models/spring-ai-baichuan/src/main/java/org/springframework/ai/baichuan/api/BaichuanApi.java:423-425 | the two-argument message constructor stores the content and role and leaves name, tool call id and tool calls null |
| `Api.ContentOfNewMessage` | models/spring-ai-baichuan/src/main/java/org/springframework/ai/baichuan/api/BaichuanApi.java:423-438 | text stored by the message constructor is what content() returns |
| `Lang.Trim` | models/spring-ai-baichuan/src/main/java/org/springframework/ai/baichuan/api/BaichuanApi.java:774 | trim() is empty exactly when every character is at most U+0020; a non-empty result starts and ends with a character above it |
| `Api.NewWebSearch` | models/spring-ai-baichuan/src/main/java/org/springframework/ai/baichuan/api/BaichuanApi.java:766-781 | a null enable becomes false, otherwise it is kept; the search mode is kept only when it is non-null and blank after trim, and is "performance_first" otherwise |
| `Api.IntendedWebSearch` | models/spring-ai-baichuan/src/main/java/org/springframework/ai/baichuan/api/BaichuanApi.java:766-781 | corrected constructor: a non-blank search mode is kept; null or blank gives "performance_first"; the stored mode is never blank |
| `Api.WebSearchDiscardsChosenMode` | models/spring-ai-baichuan/src/main/java/org/springframework/ai/baichuan/api/BaichuanApi.java:774-779 | "quality_first" is replaced by the default as written and kept by the corrected constructor |
| `Api.WebSearchAsWrittenVersusIntended` | models/spring-ai-baichuan/src/main/java/org/springframework/ai/baichuan/api/BaichuanApi.java:774-779 | the two constructors agree exactly when the mode is null or is the default itself |
| `Api.RequestOf` | models/spring-ai-baichuan/src/main/java/org/springframework/ai/baichuan/api/BaichuanApi.java:314-316 | (messages, model) keeps both and sets stream false, temperature 0.3, top_p 0.85, top_k 5, null for the rest |
| `Api.RequestWithTemperatureAndStream` | models/spring-ai-baichuan/src/main/java/org/springframework/ai/baichuan/api/BaichuanApi.java:328-331 | keeps messages, model, temperature and the stream flag; top_p 0.85, top_k 5, null for the rest |
| `Api.RequestWithTemperature` | models/spring-ai-baichuan/src/main/java/org/springframework/ai/baichuan/api/BaichuanApi.java:341-343 | keeps messages, model and temperature; stream null, top_p 0.85, top_k 5, null for the rest |
| `Api.RequestWithTools` | models/spring-ai-baichuan/src/main/java/org/springframework/ai/baichuan/api/BaichuanApi.java:355-358 | keeps messages, model and tool choice; stream, temperature and tools null, top_p 0.85, top_k 5 |
| `Api.RequestWithStream` | models/spring-ai-baichuan/src/main/java/org/springframework/ai/baichuan/api/BaichuanApi.java:364-367 | keeps messages and the stream flag, uses model "Baichuan4-Air"; top_p 0.85, top_k 5, null for the rest |
| `Api.ShortcutSamplingDefaults` | models/spring-ai-baichuan/src/main/java/org/springframework/ai/baichuan/api/BaichuanApi.java:314-366 | all five shortcut constructors keep the messages, set top_p 0.85 and top_k 5, and leave max_tokens and tools null |
| `Api.ToolsOverloadDropsTools` | models/spring-ai-baichuan/src/main/java/org/springframework/ai/baichuan/api/BaichuanApi.java:355-358 | the tools overload stores null tools, temperature and stream whatever tools are passed, and keeps the tool choice |
| `Metadata.From` | models/spring-ai-baichuan/src/main/java/org/springframework/ai/baichuan/metadata/BaichuanUsage.java:30-37 | a null usage record raises IllegalArgumentException("Baichaun Usage must not be null"); any other is stored unchanged |
| `Metadata.GetUsage` | models/spring-ai-baichuan/src/main/java/org/springframework/ai/baichuan/metadata/BaichuanUsage.java:39-41 | the stored record is returned unchanged: from() of it rebuilds the same adapter |
| `Metadata.GetPromptTokens` | models/spring-ai-baichuan/src/main/java/org/springframework/ai/baichuan/metadata/BaichuanUsage.java:44-46 | the record's prompt tokens widened to a Long; a null count fails on unboxing |
| `Metadata.GetGenerationTokens` | models/spring-ai-baichuan/src/main/java/org/springframework/ai/baichuan/metadata/BaichuanUsage.java:49-51 | the record's completion tokens widened to a Long; a null count fails on unboxing |
| `Metadata.GetTotalTokens` | models/spring-ai-baichuan/src/main/java/org/springframework/ai/baichuan/metadata/BaichuanUsage.java:54-56 | the record's total tokens widened to a Long; a null count fails on unboxing |
| `Metadata.FromThenGet` | models/spring-ai-baichuan/src/main/java/org/springframework/ai/baichuan/metadata/BaichuanUsage.java:28-56 | the record given to from() is returned unchanged by getUsage(), and the getters report its prompt, completion and total counts |
| `Metadata.GenerationIsNotTotal` | models/spring-ai-baichuan/src/main/java/org/springframework/ai/baichuan/metadata/BaichuanUsage.java:49-56 | with 3 prompt, 7 completion and 10 total tokens the getters report 3, 7 and 10 |

## Left out

- HTTP and authentication: building the REST and web clients, the bearer header and the POST calls. `ChatCompletionStream` takes the response events as a parameter. `chatCompletionEntity` is modelled only through its argument checks (`CheckEntityRequest`); its HTTP call is not.
- JSON decoding (`jsonToObject`, `jsonToMap`) is a foreign call. It is a `decode` parameter, and decoding failures are not modelled.
- `BaichuanStreamFunctionCallingHelper` is not part of this model. Its start test, finish test and merge step stay uninterpreted, so nothing is claimed about how chunks are merged.
- Reactor mechanics: backpressure, subscription, cancellation and concurrency are not modelled. The pipeline is read as a sequential pass over a finite sequence of events.
- `ToolWindows.Windowed`, `Api.ChatCompletionStream`: when the last window closed on the last chunk, Reactor may emit a trailing empty window. That window would reduce to the all-null seed chunk. The model emits no such window, because this behaviour belongs to the library.
- Temperature and top_p are only stored as constants. They are real literals, with no floating-point behaviour.
- Records with no logic are left out or cut down: `ChatCompletion`, `KnowledgeBase`, `Tool`, `RetrievalTool`, `WebSearchTool`, `FunctionTool` parameters and the `ChatModel` enum. Only the default model name is kept.
- A null message list is not distinguished from a list. The shortcut constructors pass the list through unchanged either way.
- `toString()` of `BaichuanUsage` is not modelled.
- The Javadoc of the tools overload promises temperature 0.8 and stream false. The code stores null for both. The model follows the code.

## Findings

| source | as written | input that shows it | evidently intended | confidence | as-written member | corrected member |
|---|---|---|---|---|---|---|
| models/spring-ai-baichuan/src/main/java/org/springframework/ai/baichuan/api/BaichuanApi.java:774 | `searchMode == null \|\| !searchMode.trim().isEmpty()` picks the default, so only a blank mode is kept | `new WebSearch(null, "quality_first")` stores "performance_first" | default only when the mode is null or blank; keep a chosen mode | high, not executed | `Api.WebSearchDiscardsChosenMode` | `Api.IntendedWebSearch` |
