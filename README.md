# proxy-service streaming core, in Dafny

A model of the streaming core of `wolodata/proxy-service`. It has three parts.

1. **Server-sent events reader.** The `text/event-stream` decoder turns the lines of a
   response body into records, each with an `event` type and accumulated `data`. The typed
   stream on top of it decodes each record into a value. It skips everything after a
   `[DONE]` record and stops on a top-level `error` field or a decoding failure. It wraps
   `thread.` events before decoding. This part is `sse_stream.dfy`, module `SseStream`,
   after `internal/ssestream/ssestream.go`.
2. **`<think>` tag splitter.** This is the splitter of the service tests. It sorts
   streamed answer text into message text and reasoning text, one character at a time,
   with `<think>`/`</think>` switching between the two. Text that could be the start of a
   marker split across chunks is carried over to the next chunk. A final flush writes
   what is left. Two helpers go with it: `extractThinkBlocks` collects the blocks and
   `removeThinkBlocks` cuts them out. This part is `think_tags.dfy`, module `ThinkTags`,
   after `internal/service/perplexity_test.go`.
3. **The Perplexity service.** A client request is validated and turned into the
   upstream request. `processChunk` and its four handlers route each upstream chunk to a
   response or skip it. The relay loop sends the responses of the decoded stream in
   order. This part is `perplexity.dfy`, module `Perplexity`, after
   `internal/service/perplexity.go`.

`go_strings.dfy` (module `GoStrings`) holds the parts of Go's `strings` and `unicode`
packages that the core uses: `HasPrefix`, `Index` and `TrimSpace` over Unicode white
space. `wrappers.dfy` holds `Option` and `Result`.

How each part reads as Dafny:

- **The decoder and the stream are classes whose methods change state.**
  - `EventStreamDecoder` keeps the scanner's lines, a cursor, the last record and the
    error.
  - `Stream<T>` keeps the decoder, the current value, the error and the `done` flag.
  - Each `Next` is proved against a specification function of the records still to
    come. The decoder's ghost field `rest` names those records. The decoder side is the
    `Records` function; the stream side is `Pull` for one call and `Drain` for calling
    `Next` until it answers false.
- **The splitter is proved against `Classify`.** `Classify` is the unchunked loop of
  `TestThinkTagParsing`.
  - `Feed` is the body of the chunk loop of `TestThinkTagSplitAcrossChunks`, proved
    equal to the function `Step`.
  - `Finish` is the flush.
  - The main theorem is `SplitAllIsClassify`: whatever the chunking, feeding all chunks
    and flushing gives exactly what `Classify` gives on the joined text.
- **`extractThinkBlocks` and `removeThinkBlocks` keep their loops.**
  `ExtractThinkBlocks` and `RemoveThinkBlocks` are proved equal to the recursive
  functions `ThinkBlocks` and `WithoutThinkBlocks`. Lemmas about those functions state
  what the helpers promise, including what happens at an unclosed `<think>`.
- **The service's validation is a method proved against a function.**
  - `Validate` is the specification function; `BuildRequest` and `ConvertMessages` run
    the source's loop with its early returns.
  - `Relay` is the stream loop. It is proved to send `Responses` of the chunks that
    `Drain` yields and to return the stream's final error.

Three points of the code's behaviour that are easy to miss:

- The splitter writes to two buffers (message and reasoning). It keeps no ordered list
  of pieces.
- A stream drained after `[DONE]` still reports the decoder's read error, if any
  (`ssestream.go:196`): see `SseStream.Pull`.
- An upstream `error` field ends the stream with an error built from the field's value.
  The model keeps that value, in `StreamError.Upstream`, and not the fixed text the
  code puts in front of it.

## Model

| member | source | states |
|---|---|---|
| `GoStrings.Index` | internal/service/perplexity_test.go:410 | The result is -1 exactly when the pattern occurs nowhere; otherwise the pattern occurs there and nowhere before. |
| `GoStrings.IndexInSuffix` | internal/service/perplexity_test.go:415 | Searching a suffix that starts after every earlier occurrence finds the same first occurrence, shifted by the start of the suffix. |
| `GoStrings.TrimSpace` | internal/service/perplexity.go:142 | The result is a contiguous slice of the input that neither starts nor ends with white space, and everything cut off after it is white space. |
| `GoStrings.BlankIffAllSpace` | internal/service/perplexity.go:164-167 | Content trims to empty exactly when it is empty or all white space. |
| `SseStream.Cut` | internal/ssestream/ssestream.go:72 | No colon is in the name. With a colon, the line is name, colon, value; without one, the line is the name and the value is empty. |
| `SseStream.CutAtFirstColon` | internal/ssestream/ssestream.go:71-72 | A line splits at its first colon only; later colons stay in the value. |
| `SseStream.CommentIgnored` | internal/ssestream/ssestream.go:79-82 | A line starting with a colon leaves the record unchanged. |
| `SseStream.EventLineSetsType` | internal/ssestream/ssestream.go:74-84 | `event: v` replaces the type by `v`, with the space after the colon dropped, and keeps the data. |
| `SseStream.DataLineAppends` | internal/ssestream/ssestream.go:85-93 | `data: v` appends `v` and a line feed to the data and keeps the type. |
| `SseStream.OtherFieldIgnored` | internal/ssestream/ssestream.go:79-94 | A field other than `event` and `data` (such as `id` or `retry`) leaves the record unchanged. |
| `SseStream.BareFieldName` | internal/ssestream/ssestream.go:72-94 | A line without a colon is a field with an empty value: `data` appends a bare line feed, and `event` clears the type. |
| `SseStream.DataLinesConcatenate` | internal/ssestream/ssestream.go:85-93 | k `data` lines give the concatenation of each value followed by a line feed, with an empty type. |
| `SseStream.LastEventLineWins` | internal/ssestream/ssestream.go:83-84 | Of two `event` lines in one record, the second gives the type. |
| `SseStream.FirstBlank` | internal/ssestream/ssestream.go:59-69 | The line where a record ends is blank, or is the end of input, and every line before it is non-blank. |
| `SseStream.Records` | internal/ssestream/ssestream.go:51-102 | There are no records left exactly when no blank line is left. |
| `SseStream.BlankLineDispatchesEmpty` | internal/ssestream/ssestream.go:63-68 | A blank line with no field line before it still dispatches an empty record. |
| `SseStream.PartialRecordDropped` | internal/ssestream/ssestream.go:95-101 | Field lines with no blank line after them form no record: a partial record at the end of input is dropped. |
| `SseStream.EventStreamDecoder.constructor` | internal/ssestream/ssestream.go:24-36 | A new decoder is at the first line, with an empty record, no error, not closed, and all records of the input still to come. |
| `SseStream.EventStreamDecoder.Next` | internal/ssestream/ssestream.go:51-102 | The answer is true exactly when a record is left. Then the first remaining record becomes the current one and the cursor moves past its blank line. Otherwise the cursor is at the end and the scanner's error, if any, is kept. Once an error is kept, the answer stays false. |
| `SseStream.EventStreamDecoder.ScanRecord` | internal/ssestream/ssestream.go:56-95 | Reading from an empty record, the loop stops at the first blank line (or the end), having built the record from the lines before it, one line at a time. |
| `SseStream.EventStreamDecoder.ReadField` | internal/ssestream/ssestream.go:71-94 | One field line updates the record as `ApplyLine` says. |
| `SseStream.EventStreamDecoder.Close` | internal/ssestream/ssestream.go:108-110 | Closing sets the closed flag and changes nothing else. |
| `SseStream.Input` | internal/ssestream/ssestream.go:159-183 | The decoder's input is wrapped with the type exactly when the type starts with `thread.`; otherwise it is the raw data. |
| `SseStream.ReadFailure` | internal/ssestream/ssestream.go:195-196 | The stream's error at the end is set exactly when the decoder's error is. |
| `SseStream.Decide` | internal/ssestream/ssestream.go:159-191 | An `error` field fails with its value before any decoding. Without one, a successful decode yields the decoded value and a failed decode fails with the decoder's message; a value is produced in no other way. |
| `SseStream.Pull` | internal/ssestream/ssestream.go:141-199 | One `Next` either uses up every remaining record (when none is left, after `done`, or at a `[DONE]` record) or decides exactly the next record and leaves the rest. |
| `SseStream.Stream.constructor` | internal/ssestream/ssestream.go:123-128 | A new stream holds the decoder and the given error, with `done` unset. |
| `SseStream.Stream.Next` | internal/ssestream/ssestream.go:141-199 | With an error already set, it answers false and changes nothing. Otherwise it does what `Pull` says: a value sets `Current`; a failure sets the error and keeps `Current`; running dry copies the decoder's error. |
| `SseStream.Stream.Dispatch` | internal/ssestream/ssestream.go:157-192 | A record that is not skipped yields its decoded value, or fails with the `error` field or the decoding error, and leaves `done` alone. |
| `SseStream.Stream.Close` | internal/ssestream/ssestream.go:209-215 | Closing the stream closes the decoder and changes nothing else. |
| `SseStream.Drain` | internal/ssestream/ssestream.go:146-155 | Once `done` is set, no value is produced and the final error is the decoder's; there are never more values than records. |
| `SseStream.PullStartsDrain` | internal/ssestream/ssestream.go:141-199 | One `Next` is the first step of draining the stream: its value heads the values still to come, its failure is the final error, and running dry ends with the decoder's error. |
| `SseStream.NothingAfterDoneMatters` | internal/ssestream/ssestream.go:146-155 | The records after a `[DONE]` record make no difference to the values or the final error. |
| `SseStream.UpstreamErrorStops` | internal/ssestream/ssestream.go:160-164 | An `error` field before `[DONE]` ends the stream with that value as the error, after exactly the decoded values of the records before it, one per record and in order. |
| `Perplexity.HandleReasoning` | internal/service/perplexity.go:45-65 | A response comes exactly when the first choice has a delta with reasoning steps; it carries those steps and the chunk's id, model and creation time. |
| `Perplexity.HandleReasoningDone` | internal/service/perplexity.go:67-86 | Always a response, with the chunk's search results and images; the steps are the first choice's message steps when there is a message and empty otherwise. |
| `Perplexity.HandleCompletionChunk` | internal/service/perplexity.go:88-108 | A response comes exactly when the first choice has a delta with non-empty content, and it carries that content. |
| `Perplexity.HandleCompletionDone` | internal/service/perplexity.go:110-130 | Always a response, with the search results, the images and the usage as `ConvertUsage` converts it; the full content is set exactly when the first choice has a message. |
| `Perplexity.Int32` | internal/converter/perplexity.go:83-89 | Go's `int32` conversion: the result lies in the 32-bit range, agrees with the input modulo 2^32, and equals the input when the input already fits. |
| `Perplexity.SentCount` | internal/converter/perplexity.go:82-90 | A token count is sent exactly when it is positive, and then narrowed to 32 bits. |
| `Perplexity.ConvertUsage` | internal/converter/perplexity.go:76-108 | No usage stays absent. Otherwise each of the three token counts is sent as `SentCount` says, and the search context size is not sent. |
| `Perplexity.SmallCountsKept` | internal/converter/perplexity.go:82-90 | Positive counts below 2^31 reach the client unchanged, counts of zero or below are not sent, and 2^31 wraps to -2^31. |
| `Perplexity.ProcessChunk` | internal/service/perplexity.go:29-43 | The chunk's `object` picks the handler, and the response is exactly that handler's. So each response kind comes from exactly its `object` value, with `chat.reasoning` and `chat.completion.chunk` only when the delta is non-empty. Any other object gives no response. Every response echoes the chunk's id, model and creation time. |
| `Perplexity.ResponsesAppend` | internal/service/perplexity.go:245-267 | Relaying two runs of chunks one after the other sends their responses one after the other. |
| `Perplexity.ResponsesOfOne` | internal/service/perplexity.go:251-266 | A single chunk sends its response, or nothing when it gives none. |
| `Perplexity.SkippedChunkSendsNothing` | internal/service/perplexity.go:257-260 | A chunk that gives no response is skipped, wherever it stands. |
| `Perplexity.SentChunkSendsItsResponse` | internal/service/perplexity.go:262-266 | A chunk that gives a response sends exactly it, between the responses of the chunks around it. |
| `Perplexity.RoleName` | internal/service/perplexity.go:150-162 | System, user and assistant map to `"system"`, `"user"` and `"assistant"`. Unspecified and any other role are refused, each with its own error. |
| `Perplexity.RoleNamesDistinct` | internal/service/perplexity.go:151-157 | Distinct accepted roles get distinct names. |
| `Perplexity.ConvertMessage` | internal/service/perplexity.go:150-172 | The role is checked before the content. The message converts exactly when its role has a name and its trimmed content is not blank, and then it holds that name and the trimmed content. |
| `Perplexity.ConvertAll` | internal/service/perplexity.go:148-173 | All messages convert exactly when each does; then the result has one converted message per input message, in the same order. |
| `Perplexity.ConvertMessages` | internal/service/perplexity.go:148-173 | The message loop with its early returns gives exactly `ConvertAll`. |
| `Perplexity.ConvertOne` | internal/service/perplexity.go:150-172 | The loop body converts one message as `ConvertMessage` does. |
| `Perplexity.ConvertAllSucceeds` | internal/service/perplexity.go:148-173 | When every message converts, the conversion is the list of the messages converted one by one. |
| `Perplexity.ConvertFailsAt` | internal/service/perplexity.go:158-167 | The first message that fails to convert decides the error. |
| `Perplexity.Validate` | internal/service/perplexity.go:142-197 | A blank token is refused before any message is looked at. Next comes the first message error, then an empty message list. A valid request gives the trimmed token and a streaming request in `concise` mode with the model and converted messages, and temperature and top-p copied when present. |
| `Perplexity.BuildRequest` | internal/service/perplexity.go:142-197 | The validation code, with its early returns and optional fields, gives exactly `Validate`. |
| `Perplexity.Upstream` | internal/service/perplexity.go:239-242 | The upstream's chunks are the values of draining a fresh stream over its records, with no more chunks than records. |
| `Perplexity.Relay` | internal/service/perplexity.go:239-273 | The loop sends, in order, the response of every chunk the stream yields that gives one. It returns the stream's final error. |
| `Perplexity.RelayedOne` | internal/service/perplexity.go:257-266 | Sending what one more chunk gives keeps the relay's sent-plus-pending invariant. |
| `ThinkTags.Marker` | internal/service/perplexity_test.go:219-229 | The marker recognised outside a block is the 7-character `<think>`; inside one it is the 8-character `</think>`. Both start with `<`. |
| `ThinkTags.Scan` | internal/service/perplexity_test.go:317-346 | What a chunk leaves pending is nothing or a strict prefix of the current mode's marker. |
| `ThinkTags.Finish` | internal/service/perplexity_test.go:349-357 | The flush appends the pending text verbatim: to reasoning when inside a block, to the message otherwise. Nothing is lost and the pending text is cleared. |
| `ThinkTags.ParseThinkTags` | internal/service/perplexity_test.go:218-237 | The unchunked loop's message and reasoning are those of `Classify` on the input. |
| `ThinkTags.Feed` | internal/service/perplexity_test.go:310-347 | One chunk, with the pending text put in front: the loop gives the state of `Step`. |
| `ThinkTags.SplitChunks` | internal/service/perplexity_test.go:303-357 | Feeding all chunks and flushing gives the message and reasoning of `Classify` on the joined chunks. |
| `ThinkTags.ScanPendingIsSuffix` | internal/service/perplexity_test.go:331-338 | The held-back text is the unwritten tail of the chunk. |
| `ThinkTags.ScanThenClassify` | internal/service/perplexity_test.go:310-347 | Holding text back changes nothing: scanning a chunk, then classifying its pending text with what follows, is classifying it all in one go. |
| `ThinkTags.FinishClassifies` | internal/service/perplexity_test.go:349-357 | Flushing a well-formed pending text is classifying it: a marker prefix holds no marker. |
| `ThinkTags.ClassifyShort` | internal/service/perplexity_test.go:349-357 | Text shorter than the current marker is written verbatim to the current mode's buffer. |
| `ThinkTags.FeedAllClassifies` | internal/service/perplexity_test.go:310-357 | From any state with well-formed pending text, feeding chunks and flushing classifies the pending text and the joined chunks. |
| `ThinkTags.SplitAllIsClassify` | internal/service/perplexity_test.go:310-357 | The chunked splitter agrees with the unchunked loop on the joined text, for every chunking. |
| `ThinkTags.ChunkingInvariance` | internal/service/perplexity_test.go:265-300 | Two chunkings of the same text give the same message, reasoning and final mode. |
| `ThinkTags.CharByChar` | internal/service/perplexity_test.go:310-357 | Feeding one character at a time gives the unchunked outcome. |
| `ThinkTags.ClassifyUpTo` | internal/service/perplexity_test.go:231-236 | Up to the first occurrence of the current marker, text is written verbatim to the current mode's buffer. |
| `ThinkTags.ClassifyRuns` | internal/service/perplexity_test.go:218-237 | The current mode's first marker is dropped. With no marker of the current mode, all text goes to the current buffer. Otherwise the text before the first such marker goes there, that marker is dropped, and the rest is classified in the other mode. The other mode's marker is ordinary text. |
| `ThinkTags.OpenWhileThinking` | internal/service/perplexity_test.go:225-229 | Markers do not nest: inside a block, `<think>` is reasoning text. |
| `ThinkTags.OpenInsideIsText` | internal/service/perplexity_test.go:219-229 | In `<think>x<think>y</think>z`, the reasoning is `x<think>y`, the message is `z`, and the first `</think>` closes the block. |
| `ThinkTags.ClassifyMarker` | internal/service/perplexity_test.go:219-229 | The current mode's marker at the front is dropped and flips the mode. |
| `ThinkTags.ClassifyPlain` | internal/service/perplexity_test.go:231-236 | Text without `<` is written verbatim, whatever follows. |
| `ThinkTags.ParseNoTag` | internal/service/perplexity_test.go:187-192 | `Hello world` is all message. |
| `ThinkTags.ParseOneBlock` | internal/service/perplexity_test.go:193-198 | `Before<think>thinking</think>After` gives message `BeforeAfter` and reasoning `thinking`. |
| `ThinkTags.ParseTwoBlocks` | internal/service/perplexity_test.go:199-204 | `A<think>T1</think>B<think>T2</think>C` gives `ABC` and `T1T2`. |
| `ThinkTags.ParseOnlyBlock` | internal/service/perplexity_test.go:205-210 | `<think>only thinking</think>` gives an empty message and reasoning `only thinking`. |
| `ThinkTags.ChunksAroundBlock` | internal/service/perplexity_test.go:265-300 | However chunks cut up `a<think>x</think>b`, the outcome is message `a + b` and reasoning `x`. |
| `ThinkTags.SplitOnBoundaries` | internal/service/perplexity_test.go:266-270 | Markers on chunk boundaries: `Hello  world` and `thinking`. |
| `ThinkTags.SplitOpenMarker` | internal/service/perplexity_test.go:271-276 | `<thi` and `nk>` in two chunks: `Hello  world` and `thinking`. |
| `ThinkTags.SplitCloseMarker` | internal/service/perplexity_test.go:277-282 | `</thi` and `nk>` in two chunks: `Hello  world` and `thinking`. |
| `ThinkTags.SplitManyPieces` | internal/service/perplexity_test.go:283-288 | Both markers in four pieces: `Hello  world` and `thinking`. |
| `ThinkTags.SplitSingleChunk` | internal/service/perplexity_test.go:289-294 | One chunk: `Hello  world` and `thinking`. |
| `ThinkTags.SplitTwoBlocks` | internal/service/perplexity_test.go:295-300 | Two blocks, one marker cut: `ABC` and `R1R2`. |
| `ThinkTags.ScanPlain` | internal/service/perplexity_test.go:317-345 | In a chunk, text without `<` is written at once, whatever follows. |
| `ThinkTags.HoldsBackPrefix` | internal/service/perplexity_test.go:331-338 | A strict prefix of `<think>` at the end of a first chunk is held back, and the text before it is written. |
| `ThinkTags.HoldsBackHello` | internal/service/perplexity_test.go:271-276 | `Hello <thi` writes `Hello ` and holds back `<thi`. |
| `ThinkTags.FlushesHeldBack` | internal/service/perplexity_test.go:349-357 | A stream ending in `done<th` holds `<th` back and the flush writes `done<th` to the message. |
| `ThinkTags.PotentialPrefixCases` | internal/service/perplexity_test.go:331-334 | Only strict prefixes of the current mode's marker are held back: `lo <thi` is not, and a prefix of the other mode's marker is not either. |
| `ThinkTags.SplitMarkerReassembles` | internal/service/perplexity_test.go:218-237 | Markers are dropped per run: in `<thi<think>x</think>nk>`, the outer pieces join into `<think>` in the message. |
| `ThinkTags.BrokenOpenAroundBlock` | internal/service/perplexity_test.go:218-237 | The same for any block text without `<`. |
| `ThinkTags.MarkersApart` | internal/service/perplexity_test.go:415-421 | A `</think>` cannot start inside a `<think>`, so a block's end lies at least 7 past its start. |
| `ThinkTags.FindBlock` | internal/service/perplexity_test.go:410-418 | The block reported is the first `<think>` and the first `</think>` from it on. |
| `ThinkTags.FindBlockIff` | internal/service/perplexity_test.go:409-418 | Either loop goes on exactly as long as some `<think>` has a `</think>` after it. |
| `ThinkTags.ExtractThinkBlocks` | internal/service/perplexity_test.go:407-428 | The loop returns exactly `ThinkBlocks`: the text between each `<think>` and the next `</think>`, in order, resuming after it. |
| `ThinkTags.ExtractRound` | internal/service/perplexity_test.go:420-425 | One round moves the first block from the text left to the blocks found. |
| `ThinkTags.LoopDone` | internal/service/perplexity_test.go:410-418 | Either loop stops exactly when no block is left; then nothing more is extracted or removed. |
| `ThinkTags.ThinkBlocksEmptyIff` | internal/service/perplexity_test.go:407-428 | There are no blocks exactly when no closed `<think>`/`</think>` pair exists. |
| `ThinkTags.ThinkBlocksStopAtUnclosed` | internal/service/perplexity_test.go:407-428 | Extraction stops at the first `<think>` with no `</think>` after it: the text from there on adds no block. |
| `ThinkTags.RemoveThinkBlocks` | internal/service/perplexity_test.go:431-448 | The loop returns exactly `WithoutThinkBlocks`: each first closed block is cut out, markers included, and the search starts over. |
| `ThinkTags.RemoveStep` | internal/service/perplexity_test.go:444-445 | One round cuts out the first block without changing the final result. |
| `ThinkTags.WithoutThinkBlocksShorter` | internal/service/perplexity_test.go:431-448 | Removing blocks never lengthens the text. |
| `ThinkTags.WithoutThinkBlocksClean` | internal/service/perplexity_test.go:431-448 | No closed block is left, not even one that cutting out another has formed. |
| `ThinkTags.WithoutThinkBlocksKeeps` | internal/service/perplexity_test.go:434-442 | Text without a closed block is returned as it is. |
| `ThinkTags.WithoutThinkBlocksIdempotent` | internal/service/perplexity_test.go:431-448 | Removing blocks twice is removing them once. |
| `ThinkTags.WithoutThinkBlocksKeepsUnclosed` | internal/service/perplexity_test.go:431-448 | The text from the first unclosed `<think>` on is kept as it is, and the text before it is treated as a whole text of its own. |
| `ThinkTags.FindBlockBeforeUnclosed` | internal/service/perplexity_test.go:410-418 | The first closed block ends before an unclosed `<think>`, so cutting the text there finds the same block. |
| `ThinkTags.ClassifyAtBlock` | internal/service/perplexity_test.go:218-237 | Around the first block, the splitter writes the text before it to the message and the text inside it to the reasoning. |
| `ThinkTags.ClassifyWithoutBlock` | internal/service/perplexity_test.go:218-237 | With no closed block, the splitter ends inside a block exactly when there is a `<think>`, and otherwise writes everything to the message. |
| `ThinkTags.ThinkBlocksAreReasoning` | internal/service/perplexity_test.go:407-428 | The extracted blocks, joined, start the splitter's reasoning, and are all of it when the text does not end inside a block. |

## Left out

- HTTP and the network (`perplexity.go:199-237`): serialising the request, posting it, and the status check. `Relay` starts from the lines of the response body and a possible read error after the last of them. `BuildRequest` stops at the request value.
- `bufio.Scanner`: line splitting, CR/LF handling and the buffer size limit (`ssestream.go:31-32`). The input is the list of lines already split, and scanner failure is the abstract `readErr`.
- JSON: decoding with unknown fields disallowed (`ssestream.go:166-168`, `184-186`) and the `gjson` probe for an `error` field (`ssestream.go:160`, `175`) are function parameters `decode` and `errorField`. The `%q`/`%s` wrapper text is the `Payload.Wrapped` value.
- Error message texts (`fmt.Errorf`, `pbv1.ErrorInvalidArgument`, `pbv1.ErrorUpstreamApiError`): errors are datatype constructors (`StreamError`, `Invalid`) carrying what the message would carry.
- Write errors on the record's data buffer (`ssestream.go:86-93`): writes to an in-memory buffer do not fail, so these branches are not modelled.
- `NewDecoder` returning nil for a missing response or body (`ssestream.go:24-27`), and `Stream.Close` on a nil decoder (`ssestream.go:210-213`): the decoder always exists here.
- Closing: `Close` sets a `closed` flag. Releasing the body and `Close`'s error result are I/O.
- `Current` and `Err` of the decoder and the stream are plain field reads and carry no contract.
- `SseStream.Stream.Next`: a decoder error set before the stream is built is excluded by the constructor's requirement. `Relay` builds the decoder immediately before the stream, so this cannot happen there.
- `processChunk`'s error result and its check in the loop (`perplexity.go:252-255`): every handler returns a nil error, so the check can never fire. `ProcessChunk` returns only the response.
- `conn.Send` failures (`perplexity.go:263-266`): sending to the client is I/O and always succeeds in `Relay`.
- Logging (`s.log.*`) everywhere.
- The converters (`internal/converter/perplexity.go`) copy search results, images and reasoning steps field by field into protobuf types. Optional string fields, which they set only when non-empty, are plain strings here, with the empty string standing for unset. Responses keep those upstream values. The usage is converted as `ConvertUsage` says, except that the floating-point cost fields are left out. Temperature and top-p are `real`. Nil and empty slices are not told apart.
- Characters stand for bytes. The markers, field names and sentinels are ASCII, and `TrimSpace` works on code points.
- `isPotentialTagPrefix` (called at `perplexity_test.go:334`) has no body in the source. Here it is "a strict prefix of the current mode's marker", a reading the test tables at `perplexity_test.go:265-300` are consistent with.
- `internal/service/openai.go`, `internal/client/perplexity/client.go` and the live-API tests are not part of this model.
- Some loop bodies and branches are separate members so that each is proved on its own: `ScanRecord`, `ReadField`, `Advance` and `RunDry` (the decoder's loop, one field line, and what happens after a blank line or at the end of the lines), `Dispatch` (the decoding branches of `Stream.Next`), and `ConvertOne` (the message loop body). Their behaviour is the source's.
