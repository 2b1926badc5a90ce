# Verification model of the proxy's protocol core

The proxy lets an Anthropic client talk to other model providers. Its hard part is translation: it turns
whatever a provider sends into a well-formed Anthropic event stream, and Anthropic histories into OpenAI
ones. This project models that core in Dafny, together with the schedulers around it, and proves what it
guarantees over whole runs.

`dafny verify dfyconfig.toml` checks everything.

| files | what they model |
|---|---|
| `Prelude`, `SseEvents` | options, sequence functions; events as structured values |
| `StreamContract` | the repository's own checker for Anthropic streams: the specification of all producers |
| `NativeRemapper`, `RemapperContract`, `RemapperHistory`, `RemapperPolicy`, `RemapperBans` | the block remapper for native Anthropic upstreams, what it sends as a function of the upstream's history, its thinking policy, and what the bans of its upstream protocol are for |
| `SseWire`, `EmittedTracker`, `NativeTransport`, `TrackerMeaning`, `WireWitness` | frames as text, the tracker that repairs a broken stream, the transport that joins them with the remapper, what the client reads of a broken stream, and an encoding of events that meets what the transport asks |
| `SseBuilder`, `OpenAIStream`, `OpenAIContract`, `UncountedTokens` | the builder, the chunk loop of OpenAI-compatible providers, and when their streams meet the contract |
| `OpenAIContent`, `OpenAIContentRuns`, `OpenAIResponseContent` | what these streams say: which text, thinking and tool calls the client is shown, told from the chunks |
| `ToolArguments`, `ToolArgumentTotals`, `RewrittenArguments` | what becomes of the arguments of native tool calls |
| `ThinkTags` | the streaming parser for think tags |
| `Conversion`, `ConversionReference`, `ConversionTranscript`, `ConversionOrder`, `ConversionHistory`, `ConversionRepeats`, `ConversionReplay` | replaying a history to an OpenAI provider, and the transcript told from the blocks and strings of the history |
| `ProviderAttempts`, `Fallback`, `TransportFallback` | trying providers in order, and what that gives over the two transports |
| `KeyPool`, `KeyRotation`, `SlidingWindow`, `ClosedWindows`, `CompactingQueue`, `CompactingRuns` | key rotation on a shared pool, rate limiting, merged messages |
| `MessageTree`, `TreeQueue`, `TreeQueueSafety`, `TreeQueueMeaning`, `TreeQueueStandstill`, `BranchClearing` | reply trees and their queues: what always holds, what each step does to each field, when processing stands still, and what clearing a branch does |

Objects whose methods change their fields are classes with those fields; each method is proved equal to a
function on the object's value (`View()`), and the theorems are about these functions. Event streams are
sequences, and an exception is a flag or a result. Clocks, JSON, fresh ids, the heuristic tool parser and the
answers of upstreams are parameters, so the results hold for every choice of them.

Where the code falls short of what its documentation says, the code is modelled as it is, the exact condition
is proved, and an example is given:

- With thinking disabled, the remapper's output is free of thinking exactly if every `signature_delta` is for an
  index that was started with a block of thinking (`CleanExactlyIfSignaturesDropped`, `SignatureReopensThinking`). On
  legal streams that is so (`ThinkingIsRemoved`).
- Remapping a legal stream with thinking disabled leaves no block at all exactly when every block was dropped
  (`RemapMeetsContract`).
- An OpenAI stream that does not fail is never ended, and an exception escapes after content, exactly if the upstream
  gives no count of output tokens and the encoder that estimates it does not take some text, reasoning, tool name or
  arguments of the stream (`ResponseMeetsContract`, `UncountedReasoning`); the name of a special token is such a text
  (`EndOfTextIsNeverEnded`).
- The fallback's error block after content uses index 0 again (`CommittedFailure`, `CommittedFailureBreaks`). No
  transport raises a `ProviderError` after content. One raises before content exactly if its request body is refused,
  in both modes, or its upstream does not open and raising is asked for (`RaisesExactlyWhen`); a user's image is
  refused so by the last provider of a chain (`UserImageIsReported`). Errors that are not mapped to a `ProviderError`,
  such as a refused connection to a native upstream, and providers that cannot be set up end the request although
  candidates are left (`FallbackDeliversIff`).
- "At most `rate_limit` acquisitions in any interval" holds for half-open intervals. A closed one can hold up to
  twice as many (`AtMostLimitPerWindow`, `ClosedWindowHoldsAtMostTwice`, `ClosedWindowCanHoldTwice`); a turn overfills
  one that was not overfull exactly when it is granted while the limit-th last grant is one window old
  (`TurnOverfillsIff`), which at a new clock reading the deque shows (`DequeShowsOverfilling`).
- "Each pool key is tried at most once per request": one pool serves all requests of a provider. Within the
  cooldown of its first report, a request tries no key twice if and only if at none of its picks all keys it has not
  tried were reported, by anybody, after one it has (`RotationTriesOnceIff`, `SharedRunRepeatsAKey`). With distinct
  keys, and others reporting only keys it has tried itself, the promise holds (`RotationCoversThePool`); the condition
  for runs of any length is in `TriedOnceIff`, with `SlowRunRepeatsAKey` as example.
- Arguments of a tool that is never given a name are lost when the stream ends (`ArgumentsArriveIffNamed`). Arguments
  that are rewritten, those of Task and those with renamed keys, are lost as far as they are held back when the
  stream fails; at a regular end a held back Task becomes `{}`, and others go out as they are (`ArgumentsTotal`).
- Text after a tool call is replayed again exactly if the message that answers the last awaited id goes on with
  another tool result (`TextIsRepeatedIff`, `OverrunTranscript`).
- A tree comes to a standstill exactly when it turns to a node it no longer has, or when its task is cancelled before
  its node has begun or after it has ended (`StallsExactlyWhen`). Then nothing begins until the whole tree is
  cancelled, which `/stop` and a standalone `/clear` do (`OnlyTreeCancelRevives`, `StalledUntilTreeCancel`,
  `TreeCancelRevives`).
- Clearing a branch leaves a queued id without a node if and only if it is not the root's, which is removed by
  cancelling the whole tree (`RemovingTheRootFrees`), and one of it waits when it is removed (`RemovalLeavesNoOrphan`). Waiting nodes already in error and replies that come between the cancelling and the
  removal do that (`CancellingClears`, `StepKeepsClear`), and the tree then stands still (`FailedReplyStalls`,
  `LateReplyStalls`, `ClearingAFailedReplyStalls`).
- Cancelling a whole tree keeps to one node at a time if and only if no node is in its processor
  (`TreeCancelKeepsIff`); otherwise the next reply runs beside the cancelled one (`CancelledTreeRunsTwo`).

## Model

| member | source | states |
|---|---|---|
| StreamContract.AssertContract | core/anthropic/stream_contracts.py:97-162 | the checker's loop, with its table of open blocks and set of seen ones, accepts exactly the streams of the fold specification |
| StreamContract.ContractMeaning | core/anthropic/stream_contracts.py:97-162 | acceptance means, position by position: fresh index for every start, deltas and stops only to a block of their kind open at that moment, nothing left open, some block, message_start present, message_stop last |
| StreamContract.FoldAppend | core/anthropic/stream_contracts.py:107-156 | checking a stream in two parts is checking it whole |
| NativeRemapper.BlockPolicy.CloseOtherOpenBlocks | core/anthropic/native_sse_block_policy.py:129-150 | stops exactly the other open segments, in table order, and remembers their upstream stops as to be suppressed |
| NativeRemapper.BlockPolicy.AllocateNewSegment | core/anthropic/native_sse_block_policy.py:153-169 | the next downstream index, recorded as open under the upstream index |
| NativeRemapper.BlockPolicy.TransformEvent | core/anthropic/native_sse_block_policy.py:172-313 | each upstream event leaves the tables and the output of the specification function |
| NativeRemapper.BlockPolicy.TransformDelta | core/anthropic/native_sse_block_policy.py:213-289 | a delta is dropped, renumbered, reopens its block, starts one, or passes through raw |
| RemapperContract.EventKeeps | core/anthropic/native_sse_block_policy.py:172-313 | one event of an upstream that obeys the protocol is legal downstream and keeps the simulation: every live undropped upstream index is open or awaits a suppressed stop, no stopped one is either, and the open blocks mirror the checker's |
| RemapperContract.StartKeeps | core/anthropic/native_sse_block_policy.py:188-211 | starting a block stops the other open ones legally, takes a fresh index and keeps the simulation |
| RemapperContract.DeltaKeeps | core/anthropic/native_sse_block_policy.py:213-289 | a delta, also one that reopens or announces its block, is legal and keeps the simulation |
| RemapperContract.StopKeeps | core/anthropic/native_sse_block_policy.py:291-311 | a stop reaches the client only if its block is still open there |
| RemapperContract.RunKeeps | core/anthropic/native_sse_block_policy.py:172-313 | the simulation holds over every run |
| RemapperContract.BlocksAreNumbered | core/anthropic/native_sse_block_policy.py:153-169 | for every input at all, downstream starts are 0, 1, 2, ..., once each, and events outside the blocks pass in order |
| RemapperContract.RemapMeetsContract | core/anthropic/native_sse_block_policy.py:172-313 | a complete upstream that obeys the protocol is remapped to a stream that meets the whole contract if and only if the thinking policy leaves a block to show |
| RemapperContract.ContentIsConserved | core/anthropic/native_sse_block_policy.py:213-289 | downstream deltas in order are exactly the undropped upstream ones, each attributed to its upstream index by the segment map |
| RemapperHistory.RunIsHistory | core/anthropic/native_sse_block_policy.py:172-313 | for every upstream that obeys the protocol the output is, event by event, what its history asks for: a shown block with its own payload and the next number after the stops of all other open blocks, a delta with the number of the block its index has open, or after a fresh block that bears a carried tool's id, name and input, a stop exactly of what is open; nothing of thinking that is disabled |
| Prelude.DecimalMeaning | core/anthropic/native_sse_block_policy.py:92-113 | the number in an invented tool id stands for the upstream index, so different indexes get different ids |
| RemapperPolicy.LegalStreamsObey | core/anthropic/native_sse_block_policy.py:172-313 | a legal Anthropic stream obeys the upstream protocol, so everything above applies to it |
| RemapperPolicy.RemapOfContractStream | core/anthropic/native_sse_block_policy.py:172-313 | remapping a contract stream gives a contract stream, unless thinking is disabled and all its blocks are dropped |
| RemapperPolicy.ThinkingIsRemoved | core/anthropic/native_sse_block_policy.py:121-126 | with thinking disabled, no block or delta of thinking, by its type, and nothing of a thinking or redacted block of a legal upstream, complete or cut off, reaches the client |
| RemapperPolicy.CleanExactlyIfSignaturesDropped | core/anthropic/native_sse_block_policy.py:213-264 | for every input at all, with thinking disabled the output holds no thinking if and only if every signature_delta is for an index that was started before with a block of thinking |
| RemapperPolicy.SignatureReopensThinking | core/anthropic/native_sse_block_policy.py:235-264 | such a signature can even open a thinking block while thinking is disabled |
| RemapperBans.BannedEvent | core/anthropic/native_sse_block_policy.py:172-313 | after any run that obeys the protocol, an event the protocol bans makes the output illegal at once, except: starts of listed or dropped types, deltas of live blocks that are closed downstream, and raw deltas and stops that happen to fit an open block of the same number |
| RemapperBans.OpenIsStoppedIff | core/anthropic/native_sse_block_policy.py:172-313 | for every continuation at all, an open downstream block is stopped if and only if another index is started with a shown block, or its own index is stopped while that stop is neither dropped nor awaited, or a raw stop happens to bear its number |
| RemapperBans.RestartBreaksContract | core/anthropic/native_sse_block_policy.py:202-211 | whatever comes before and after: once an index whose block is open downstream is started again, the contract can only be met if a raw stop happens to bear that block's number |
| RemapperBans.BannedStartMustEnd | core/anthropic/native_sse_block_policy.py:188-211 | any other banned start leaves a block open that only those same events can close, or the contract is not met |
| RemapperBans.BannedStartIsFelt | core/anthropic/native_sse_block_policy.py:188-211 | the stop an upstream would send next does not complete the message, unless the start was dropped while its index was closed downstream |
| SseWire.ParseSseLines | core/anthropic/stream_contracts.py:51-94 | the line loop computes the events of the reading function |
| SseWire.FrameRoundTrip | core/anthropic/sse.py:45-47 | reading a written event gives back its name and data |
| SseWire.StreamRoundTrip | core/anthropic/stream_contracts.py:51-94 | reading a written stream gives back its events, in order |
| SseWire.ReadsByGroups | core/anthropic/stream_contracts.py:51-94 | reading any lines: each group up to a blank line with a name or data is one event, with the last name and all its data, and other lines are ignored |
| SseWire.SplitLinesMeaning | core/anthropic/stream_contracts.py:51-94 | every text is split at exactly its line breaks, a carriage return with its line feed being one |
| SseWire.FirstBlankLine | core/anthropic/emitted_sse_tracker.py:26-33 | the first blank line of a text that starts with a written event is that event's end |
| EmittedTracker.EmittedNativeSseTracker.Feed | core/anthropic/emitted_sse_tracker.py:24-36 | a chunk is buffered and all complete frames are observed, up to one that raises |
| EmittedTracker.EmittedNativeSseTracker.ObserveOne | core/anthropic/emitted_sse_tracker.py:38-62 | the effect of one event on the open stack and the largest index |
| EmittedTracker.EmittedNativeSseTracker.IterCloseUnclosedBlocks | core/anthropic/emitted_sse_tracker.py:68-75 | stops what is open, innermost first, and forgets it |
| EmittedTracker.EmittedNativeSseTracker.IterMidstreamErrorTail | core/anthropic/emitted_sse_tracker.py:77-97 | an error block above all seen indexes, then the end of the message |
| EmittedTracker.DrainInTwo | core/anthropic/emitted_sse_tracker.py:24-36 | draining a text in two pieces is draining it whole |
| EmittedTracker.CutsDoNotMatter | core/anthropic/emitted_sse_tracker.py:24-36 | stack, largest index and unconsumed rest depend only on the concatenation of the chunks fed |
| EmittedTracker.TextIsObserved | core/anthropic/emitted_sse_tracker.py:24-62 | a written stream is observed event by event and leaves nothing buffered |
| EmittedTracker.LegalIsObserved | core/anthropic/emitted_sse_tracker.py:38-62 | on a legal stream the stack is a permutation of the checker's open blocks and the largest index bounds all seen ones |
| EmittedTracker.ClosesAreLegal | core/anthropic/emitted_sse_tracker.py:68-75 | the recovery's stops are legal and leave nothing open |
| EmittedTracker.RecoveryMeetsContract | core/anthropic/emitted_sse_tracker.py:68-97 | any stream cut anywhere, followed by the recovery, meets the contract if and only if what was sent was legal so far and contained a message_start |
| EmittedTracker.EveryCutIsRepaired | core/anthropic/emitted_sse_tracker.py:68-97 | every cut of a contract stream after its message_start is repaired |
| EmittedTracker.FreshErrorMeetsContract | core/anthropic/provider_stream_error.py:12-34 | the error stream of a provider that sent nothing meets the contract |
| TrackerMeaning.TrackerKnows | core/anthropic/emitted_sse_tracker.py:38-62 | over every stream the largest index is that of its starts, and the stack holds in order the blocks begun and not yet ended, told from the events |
| NativeTransport.AnthropicMessagesTransport.YieldChunks | providers/anthropic_messages.py:457-466 | chunks are fed to the tracker and then yielded |
| NativeTransport.AnthropicMessagesTransport.FailWith | providers/anthropic_messages.py:478-521 | the error path: repair what was sent, or send a fresh error stream |
| NativeTransport.AnthropicMessagesTransport.StreamResponse | providers/anthropic_messages.py:408-524 | the text sent and how the stream ends: with and without a failure, for an upstream that does not open, which is rendered or raised, and for a body that cannot be built, which raises in both modes |
| NativeTransport.RelayIsRun | providers/anthropic_messages.py:457-466 | on an upstream that obeys the protocol, whatever the chunking, everything remapped is sent and the tracker has observed exactly that |
| NativeTransport.UnbrokenResponse | providers/anthropic_messages.py:457-466 | without a failure the client reads back the remapped stream |
| NativeTransport.BrokenResponseMeetsContract | providers/anthropic_messages.py:478-521 | when the upstream fails at any point and in any chunking, what the client reads meets the whole contract, exactly if nothing or a message_start had been sent |
| TrackerMeaning.BrokenResponseReads | providers/anthropic_messages.py:478-521 | the client then reads what was remapped, the stops of what is open, innermost first, a text block above all used indexes with the error message, and the end of the message; or, if nothing was sent, a fresh message with it |
| WireWitness.SoundExists | core/anthropic/sse.py:45-47 | there is an encoding of events on one clean line each, with a decoding that gives them back, as the results about the client's text ask |
| SseBuilder.SSEBuilder.EmitThinking | core/anthropic/sse.py:277-336 | closes text, opens a thinking block if none is open, and emits the delta to it |
| SseBuilder.SSEBuilder.EmitText | core/anthropic/sse.py:292-342 | closes thinking, opens a text block if none is open, and emits the delta to it |
| SseBuilder.SSEBuilder.RegisterToolName | core/anthropic/sse.py:93-109 | names arriving whole, growing or in pieces are put together |
| SseBuilder.SSEBuilder.StartToolBlock | core/anthropic/sse.py:305-319 | the tool's block gets the next index and is recorded as started |
| SseBuilder.SSEBuilder.EmitToolDelta | core/anthropic/sse.py:321-326 | the fragment is recorded and sent to the tool's block |
| SseBuilder.SSEBuilder.CloseAllBlocks | core/anthropic/sse.py:350-354 | stops content blocks and all started tools, in table order |
| SseBuilder.StopsInOrder | core/anthropic/sse.py:350-354 | at the close every started tool is stopped once, in the order of the table |
| SseBuilder.SSEBuilder.EstimateOutputTokens | core/anthropic/sse.py:383-411 | the estimate with and without an encoder; none if the encoder raises |
| SseBuilder.EstimateSucceedsIff | core/anthropic/sse.py:383-411 | it succeeds if and only if the encoder takes the text, the reasoning, and the name and arguments of every tool |
| SseBuilder.IterProviderStreamError | core/anthropic/provider_stream_error.py:12-34 | the terminal error events, with a message_start if none was sent |
| OpenAIStream.OpenAIChatTransport.EmitToolArgDelta | providers/openai_compat.py:243-281 | arguments go to the block as they come, those of Task and those with renamed keys once they are complete |
| OpenAIStream.OpenAIChatTransport.ProcessCall | providers/openai_compat.py:283-345 | one call delta: id and name recorded, block started once named, arguments held back until then |
| OpenAIStream.OpenAIChatTransport.EmitHeuristicTools | providers/openai_compat.py:37-58 | each detected tool use is a complete block of its own |
| OpenAIStream.OpenAIChatTransport.HandleChunk | providers/openai_compat.py:453-528 | one chunk: reasoning, text through the parsers, then tool calls |
| OpenAIStream.OpenAIChatTransport.Fail | providers/openai_compat.py:532-564 | the error path: close everything, report the error, end the message |
| OpenAIStream.OpenAIChatTransport.FlushTaskArgBuffers | providers/openai_compat.py:347-350 | what is left of Task arguments is sent as a delta |
| OpenAIStream.OpenAIChatTransport.FlushAliasBuffers | providers/openai_compat.py:352-374 | what is held back of arguments with renamed keys is sent, with its keys restored or as it is, table entry by table entry |
| OpenAIStream.OpenAIChatTransport.Finish | providers/openai_compat.py:566-646 | the end of a stream: parsers flushed, placeholder text, buffers flushed, blocks closed, and the message ended if the output tokens are counted or can be estimated |
| OpenAIStream.OpenAIChatTransport.StreamResponse | providers/openai_compat.py:404-646 | the whole response for every sequence of chunks and every failure, for an upstream that does not open, which is rendered or raised, and for a body that cannot be built, which raises in both modes |
| OpenAIContract.ToolCallKeeps | providers/openai_compat.py:283-345 | one call delta is legal downstream and keeps builder and checker in step |
| OpenAIContract.ChunkKeeps | providers/openai_compat.py:453-528 | so is one chunk |
| OpenAIContract.ChunksKeep | providers/openai_compat.py:453-528 | and every sequence of chunks |
| OpenAIContract.CloseAllCloses | core/anthropic/sse.py:344-354 | closing all blocks leaves nothing open, however tool calls were interleaved |
| OpenAIContract.FailureCompletes | providers/openai_compat.py:532-564 | from every reachable state the error path completes the stream and shows a block |
| OpenAIContract.SuccessCompletes | providers/openai_compat.py:566-646 | the regular end closes all blocks, and completes the stream if and only if the output tokens are counted or can be estimated |
| OpenAIContract.ResponseMeetsContract | providers/openai_compat.py:438-646 | for every sequence of chunks and a failure after or inside any of them the response meets the whole contract with errors allowed if and only if it failed, or its tokens are counted by the upstream or taken by the encoder, and exactly otherwise an exception escapes; with errors disallowed it must not have failed after a tool block was sent either |
| UncountedTokens.UncountedReasoning | core/anthropic/sse.py:386-393 | one chunk of reasoning that the encoder does not take, and no count: an exception escapes and the client gets no contract stream |
| UncountedTokens.EndOfTextIsNeverEnded | core/anthropic/sse.py:386-393 | so it is with an encoder that refuses the text of the end-of-text token, when that is streamed |
| OpenAIResponseContent.ResponseSays | providers/openai_compat.py:438-646 | for every response, what the client is shown, in order, is told from the chunks: reasoning and tagged thinking as thinking if enabled, the texts the heuristic parser returns as text, each tool it finds, each native call with the last id received for it before its start, an invented one only if there is none, and its stripped name as put together so far; then the error message, or what the parsers still hold and the placeholder |
| OpenAIResponseContent.FoundToolsAreWhole | providers/openai_compat.py:37-58 | over every response, the block of a tool found in the text is sent that tool's input, in one piece, and nothing else |
| OpenAIResponseContent.TextIsScanned | providers/openai_compat.py:453-528 | with a heuristic parser that passes text through and no reasoning fields, text and thinking shown by the end are exactly what the scanner makes of the whole content, however it is cut |
| OpenAIResponseContent.FailedResponseEnds | providers/openai_compat.py:532-564 | a failed response ends its message regularly, after an error event exactly if a native call was started |
| OpenAIResponseContent.ResponseEnds | providers/openai_compat.py:566-646 | one that does not fail ends with the stop reason for the last non-empty reason the upstream gave, and the upstream's count if it gave one |
| OpenAIResponseContent.EstimatedResponse | core/anthropic/sse.py:383-410 | without count and encoder it reports a fourth of the characters of the text and thinking it has shown, and fifty for each native call |
| OpenAIResponseContent.EstimateByTokens | core/anthropic/sse.py:383-410 | with an encoder the estimate is the tokens of what was shown as text and as thinking, those of the names and arguments of the native calls and fifteen for each, and four for each kind of text and each call that was started; none if one of these texts is not taken |
| ToolArguments.CallConserves | providers/openai_compat.py:283-345 | one call delta: fragments sent plus fragment held back grow by the fragment received |
| ToolArguments.ArgumentsAreConserved | providers/openai_compat.py:243-345 | at every point, for every tool whose arguments are never rewritten: what was sent to its block, followed by what is held back, is what was received for it |
| ToolArguments.FlushMeetsMalformedOnly | core/anthropic/sse.py:111-158 | after a stream without an exception, Task arguments still to be flushed are not JSON, so the flush cannot raise |
| ToolArgumentTotals.ArgumentsArriveIffNamed | providers/openai_compat.py:283-345 | over a whole response, however it ends, for every tool whose arguments are never rewritten: its block was sent all that was received for it if and only if the tool was given a name or nothing was received |
| RewrittenArguments.ArgumentsTotal | providers/openai_compat.py:243-374 | over a whole response, for every tool that keeps its name once it has one: its block was sent what the fragments delivered to it are rewritten to, followed, if the stream did not fail, by what is left: {} for a Task, the text as it is for renamed keys |
| RewrittenArguments.TaskIsTaken | core/anthropic/sse.py:111-158 | Task arguments are sent if and only if some first fragments make up an object and no fewer are JSON, then once and as that object; as long as none are JSON all is held back |
| RewrittenArguments.AliasedIsTaken | providers/openai_compat.py:214-281 | arguments with renamed keys are sent in pieces, each with its keys restored, and the pieces followed by what is held back are all that was delivered |
| ThinkTags.ThinkTagParser.FeedContent | core/anthropic/thinking.py:42-56 | a feed buffers its content and parses until no progress is made |
| ThinkTags.ThinkTagParser.ParseOutsideThink | core/anthropic/thinking.py:58-99 | one step outside think mode, orphan close tags and partial tags included |
| ThinkTags.ThinkTagParser.ParseInsideThink | core/anthropic/thinking.py:101-129 | one step inside think mode |
| ThinkTags.ThinkTagParser.FlushRest | core/anthropic/thinking.py:131-140 | what is buffered is given out with the type of the mode |
| ThinkTags.FeedSettles | core/anthropic/thinking.py:42-56 | after every feed only a proper prefix of a tag, at most 7 characters, is buffered |
| ThinkTags.CutsDoNotMatter | core/anthropic/thinking.py:42-140 | for every cut of the text, the typed characters of all feeds and the flush are those of a one-pass scanner on the whole text |
| ThinkTags.ReplayRoundTrip | core/anthropic/conversion.py:82-83 | replayed reasoning, fed in any pieces, is parsed back as exactly that reasoning, all thinking, if and only if it contains no close tag |
| Fallback.StreamWithFallback | api/fallback.py:84-150 | the loop over candidates serves what the recursion over the chain serves |
| Fallback.DrainAttempt | api/fallback.py:112-134 | events are held back until the first content event and then all passed on |
| Fallback.FirstToStayIsServed | api/fallback.py:84-150 | whatever the candidates do: the client gets what the first one that does not give way leaves, verbatim, and nothing of those before it; a candidate gives way by a ProviderError before any content if another one follows |
| Fallback.FallbackMeetsContractIff | api/fallback.py:84-150 | for every chain the client gets a contract stream and no exception if and only if that candidate completes with one, fails before content, or fails after content when nothing is open and index 0 is unused |
| Fallback.CommittedFailure | api/fallback.py:135-147 | after content, the error block makes a contract stream if and only if the interrupted stream was legal, had nothing open and had not used index 0 |
| Fallback.CommittedFailureBreaks | api/fallback.py:135-147 | so a stream that used index 0 is always broken by it |
| TransportFallback.RaisesExactlyWhen | providers/openai_compat.py:404-646 | a candidate raises before any content if and only if its body is refused, in both modes, or its upstream does not open and raising is asked for; otherwise it completes, unless it is an OpenAI stream that did not fail and whose tokens nobody can count |
| TransportFallback.UnopenedIsShown | providers/openai_compat.py:532-564 | over both transports, an upstream that does not open is shown as one whole message with the text of its error, if raising is not asked for |
| TransportFallback.FallbackDeliversIff | api/fallback.py:84-150 | for every request and every chain of upstreams over the two transports: with the first candidate that does not give up, or the last, the client gets a contract stream and no exception if and only if that one leaves it: as the last, its body is refused by a ProviderError, or it delivers, opened or not; before that, it is set up, its body taken, its upstream opened, and it delivers, which is said in terms of what its upstream sends |
| TransportFallback.UnsupportedIsReported | api/fallback.py:84-150 | with a history that cannot be converted and a chain whose last candidate is an OpenAI provider, all others being OpenAI providers or giving up, the client gets exactly one fresh error message with the refusal, and no exception |
| TransportFallback.UserImageIsReported | api/fallback.py:135-147 | an instance: a native upstream refused at opening, then an OpenAI provider that is given a user's image |
| KeyPools.KeyPool.Create | providers/key_pool.py:22-36 | keys are stripped, blank ones dropped; a pool is refused exactly when all are blank |
| KeyPools.KeyPool.NextLiveKey | providers/key_pool.py:55-70 | the loops compute the round-robin scan and the minimum |
| KeyPools.KeyPool.ReportRateLimit | providers/key_pool.py:72-87 | the key cools for the default or for the given non-negative time |
| KeyPools.KeyPool.AllCooling | providers/key_pool.py:89-92 | true exactly when no key is live |
| KeyPools.CleanedMeaning | providers/key_pool.py:22-36 | the keys of a pool are those that are not blank, in order, each without the spaces around it |
| KeyPools.ReportMeaning | providers/key_pool.py:72-87 | a reported key is live again exactly when the default or given time has passed, a negative one counting as none; no other key changes |
| KeyPools.PickMeaning | providers/key_pool.py:55-70 | a pick is the first live key from the cursor on, and only when all cool the one free soonest |
| KeyRotation.OpenWithKeyRotation | providers/openai_compat.py:151-197 | the rotation loop, with other requests using the pool between any two of its steps, tries the keys, and ends the way, of the recursion over attempts |
| KeyRotation.RotationEnds | providers/openai_compat.py:151-197 | the loop ends with the first answer that is not a 429, opened on the key tried with it or raising its error, and without one in the retrying path |
| KeyRotation.OneKeyRetries | providers/openai_compat.py:160-170 | a pool of one key is not rotated: nothing is tried or reported, and its key goes to the retrying path |
| KeyRotation.TriedOnceIff | providers/openai_compat.py:151-197 | for every pool, every run of any length and all that others do: no key is tried twice if and only if at no pick all keys cool with a tried one free soonest, or the first live key from the cursor on is a tried one |
| KeyRotation.RotationTriesOnceIff | providers/openai_compat.py:151-197 | within the cooldown of its first report: a request tries no key twice if and only if at none of its picks all keys it had not tried were reported after one it had, whoever reported them |
| KeyRotation.GivingUpHasTriedAll | providers/openai_compat.py:151-197 | a request that gives up without having tried a key twice has tried each key once, and goes on with the one whose last report, by anybody, lies furthest back |
| KeyRotation.RotationCoversThePool | providers/openai_compat.py:151-197 | with distinct keys, and others reporting only keys the request has tried itself, it tries no key twice, and all of them before it gives up, whatever the pool went through before |
| KeyRotation.SharedRunRepeatsAKey | providers/openai_compat.py:151-197 | two requests on two distinct keys within three seconds: one of them gets its first key again |
| KeyRotation.SlowRunRepeatsAKey | providers/openai_compat.py:151-197 | a run longer than the cooldown can try one key twice and another not at all |
| SlidingWindows.StrictSlidingWindowLimiter.Create | core/rate_limit.py:22-31 | refused exactly for a non-positive limit or window |
| SlidingWindows.StrictSlidingWindowLimiter.AcquireTurn | core/rate_limit.py:33-48 | one turn under the lock: expire, then grant or tell how long to sleep |
| SlidingWindows.ForgettingIsSafe | core/rate_limit.py:40-45 | although expired grants are discarded, every run grants what a limiter with full memory grants |
| SlidingWindows.AtMostLimitPerWindow | core/rate_limit.py:33-53 | over every run, grant i + limit comes at least a window after grant i, and a half-open window holds at most limit grants; a closed one holds more exactly when it has grants at both ends, limit apart |
| SlidingWindows.SleepIsExact | core/rate_limit.py:47-53 | a refused caller sleeps a positive time, and a later turn succeeds exactly from its end on, if nobody else is granted meanwhile |
| ClosedWindows.TurnOverfillsIff | core/rate_limit.py:36-45 | for every turn of a run, repeated clock readings included: it leaves more than limit grants in the closed window ending with it if and only if there were more already, or it is granted and the limit-th last grant before it is exactly one window old |
| ClosedWindows.DequeShowsOverfilling | core/rate_limit.py:36-45 | at a new clock reading, if and only if it meets a full deque whose oldest entry is exactly one window old |
| ClosedWindows.ClosedWindowHoldsAtMostTwice | core/rate_limit.py:33-53 | over every run, a closed window holds at most twice the limit |
| ClosedWindows.ClosedWindowCanHoldTwice | core/rate_limit.py:13-14 | for every limit and window there is a run in which a closed window holds twice the limit |
| CompactingQueues.MessagingRateLimiter.EnqueueInternalMulti | messaging/limiter.py:217-233 | a known key gets the new function and the additional futures, a new one a place at the end or in front |
| CompactingQueues.MessagingRateLimiter.TakeNext | messaging/limiter.py:98-99 | the first key leaves the deque and the map together |
| CompactingQueues.MessagingRateLimiter.Settle | messaging/limiter.py:113-121 | every future of the entry that is not done gets the outcome |
| CompactingQueues.EnqueueIsQueued | messaging/limiter.py:217-233 | the merged queue keeps standing for the list of all outstanding calls |
| CompactingQueues.TakeIsBatch | messaging/limiter.py:98-99 | taking takes the oldest outstanding call with all others of its key, to run the latest of their functions |
| CompactingRuns.StepKeeps | messaging/limiter.py:85-121 | every step keeps the accounting of calls, futures and order |
| CompactingRuns.NobodyIsForgotten | messaging/limiter.py:85-121 | over every run: deque keys are distinct and are the map's keys, every call is in exactly one of queued, running, finished, and every waiter of a finished call got the outcome of a function for its key enqueued no earlier than its own, or gave up |
| CompactingRuns.SettledOnce | messaging/limiter.py:113-121 | over every run a future is settled once, by the first step that would settle it, with the result or failure of that step |
| CompactingRuns.OldestKeyIsServed | messaging/limiter.py:85-121 | without calls put in front, the key served next is the one whose oldest outstanding call is oldest of all |
| MessageTrees.MessageTree.AddNode | messaging/trees/data.py:187-223 | refused exactly for an unknown parent; keeps the tree's shape exactly for a fresh id and status |
| MessageTrees.MessageTree.GetDescendants | messaging/trees/data.py:435-452 | terminates without a set of visited nodes and returns exactly the subtree, without duplicates |
| MessageTrees.MessageTree.RemoveBranch | messaging/trees/data.py:454-482 | deletes exactly the subtree from both tables and from its parent, and keeps the shape exactly when it is not the whole tree |
| MessageTrees.AddingKeepsShape | messaging/trees/data.py:206-223 | unique parents, children in the table, status index a bijection and reachability from the root survive adding if and only if id and status are new |
| MessageTrees.AddedMeaning | messaging/trees/data.py:187-223 | an added node is pending, without children, found by its status and the last child of its parent; no other node changes |
| MessageTrees.PruningKeepsShape | messaging/trees/data.py:454-482 | they survive removing a branch if and only if it is not the root's |
| MessageTrees.WalkIsExact | messaging/trees/data.py:444-452 | a finished stack walk has taken exactly the nodes below its start |
| MessageTrees.NoCycle | messaging/trees/data.py:435-452 | in a well-formed tree nothing is below itself, which is why the walks terminate |
| MessageTrees.MessageTree.GetPendingChildren | messaging/trees/queue_manager.py:100-125 | exactly the descendants reached through an unbroken chain of pending nodes |
| MessageTrees.MessageTree.MarkNodeError | messaging/trees/queue_manager.py:489-528 | the node and, if asked, exactly its descendants through an unbroken pending chain fail, no other node changes, and the shape is kept |
| TreeQueues.TreeQueue.GetNowait | messaging/trees/data.py:34-39 | both lose the first id |
| TreeQueues.TreeQueue.RemoveIfPresent | messaging/trees/data.py:48-54 | both lose the id, if the set has it |
| TreeQueues.TreeQueue.EnqueueAndStart | messaging/trees/queue_manager.py:304-330 | a busy tree queues the node, a free one makes it current and starts its task |
| TreeQueues.TreeQueue.TakeNext | messaging/trees/queue_manager.py:276-298 | the ending task hands over to the next queued node or frees the tree |
| TreeQueues.TreeQueue.EndNode | messaging/trees/queue_manager.py:254-270 | an exception of the processor marks the node as failed |
| TreeQueues.TreeQueue.CancelOne | messaging/trees/queue_manager.py:579-610 | an active node fails and leaves the queue, and if it is current its task is cancelled; any other call changes nothing |
| TreeQueues.TreeQueue.CancelBranch | messaging/trees/queue_manager.py:658-689 | the same for every node of a subtree, and exactly the nodes it fails are returned |
| TreeQueues.TreeQueue.CancelTree | messaging/trees/queue_manager.py:530-577 | the current task is cancelled, the queue drained, every node left active swept, and the tree freed |
| TreeQueueSafety.StepKeeps | messaging/trees/queue_manager.py:240-330 | every step of enqueueing, running, ending, cancelling a node, a branch or, with no node in its processor, the tree, and of changing the tree keeps the invariant; a cancelled task may be anywhere |
| TreeQueueSafety.OneNodeAtATime | messaging/trees/queue_manager.py:240-330 | over all interleavings at most one task of a tree is alive, a waiting node means the tree is processing, the set is the deque's content, and nodes reach the processor at most once and in the order of enqueueing |
| TreeQueueSafety.TreeCancelKeepsIff | messaging/trees/queue_manager.py:544-568 | cancelling the whole tree keeps the invariant if and only if no node is in its processor |
| TreeQueueSafety.CancelledTreeRunsTwo | messaging/trees/queue_manager.py:544-568 | from every state with a node in its processor, cancelling the tree and starting the next reply puts two nodes in their processors at once |
| TreeQueueSafety.TreeCancelMeaning | messaging/trees/queue_manager.py:544-568 | cancelling the tree frees it and empties its queue; waiting nodes fail whatever their state, the current one as cancelled, every other active one as stale, and no node stays active |
| TreeQueueMeaning.StepMeaning | messaging/trees/queue_manager.py:240-330 | what each step makes of every field: which nodes fail and with which message, who is current, who waits, whether the tree is busy, and which task is alive |
| TreeQueueMeaning.CancelNodeMeaning | messaging/trees/queue_manager.py:579-610 | cancelling a node fails it as cancelled and takes it out of the queue exactly if it is active, ends its task exactly if it is current and not in its processor, and changes nothing else |
| TreeQueueMeaning.CancelledNeverBegins | messaging/trees/queue_manager.py:579-689 | over every run, a node cancelled while it waits, by itself, with its branch or with its tree, is at once in error, waits no more and is never begun |
| TreeQueueMeaning.OnlyTheLastRuns | messaging/trees/queue_manager.py:254-270 | over every run the node in its processor is the one begun last |
| BranchClearing.CancelEachMeaning | messaging/trees/queue_manager.py:669-685 | cancelling a list of nodes fails exactly the active ones, unqueues exactly those of them that are not current, and ends the current task exactly if it is hit outside its processor |
| TreeQueueStandstill.StallsExactlyWhen | messaging/trees/queue_manager.py:240-330 | a tree comes to a standstill exactly when it turns to a node it no longer has, or when its current task is cancelled before its node has begun or after it has ended |
| TreeQueueStandstill.OnlyTreeCancelRevives | messaging/trees/queue_manager.py:530-568 | of all steps only the cancellation of the whole tree ends a standstill |
| TreeQueueStandstill.StalledUntilTreeCancel | messaging/trees/queue_manager.py:316-330 | in every run without one nothing that is enqueued is ever begun |
| TreeQueueStandstill.TreeCancelRevives | messaging/handler.py:598-620 | after it the next reply that is added and enqueued begins |
| TreeQueueStandstill.CarefulRunsGoOn | messaging/trees/queue_manager.py:276-330 | a run that enqueues nodes of the tree, removes no waiting one and cancels the current task inside its processor only never stalls, and when no task is left the tree is free and its queue empty |
| BranchClearing.RemovalLeavesNoOrphan | messaging/trees/queue_manager.py:691-719 | removing a branch leaves only known ids in the queue if and only if it is the root's or none of it waits at that moment |
| BranchClearing.RemovingTheRootFrees | messaging/trees/queue_manager.py:707-713 | removing the root, which cancels the whole tree, leaves a free tree with nothing waiting and no active node, whatever happened before |
| BranchClearing.CancellingClears | messaging/trees/queue_manager.py:658-689 | cancelling the branch brings that about if and only if every waiting node of it was still active |
| BranchClearing.StepKeepsClear | messaging/commands.py:142-165 | between the two, exactly two kinds of steps undo it: enqueueing a reply in the branch while the tree is busy, and a change of the tree that moves a waiting node below it |
| BranchClearing.ClearingLeavesNoOrphan | messaging/commands.py:142-165 | clearing a branch with any steps between cancelling and removing: no queued id loses its node if and only if the branch is the root's or none of it waits at the end, which is so if all its waiting nodes were active and no step in between undid it |
| BranchClearing.LateReplyStalls | messaging/commands.py:142-165 | from every state with a node in its processor and an empty queue: clearing a branch other than the root's that is answered in between ends in a standstill |
| BranchClearing.FailedReplyStalls | messaging/commands.py:142-165 | from every state with a node in its processor: clearing a branch other than the root's whose node is next in the queue but in error ends in a standstill |
| BranchClearing.ClearingAFailedReplyStalls | messaging/trees/queue_manager.py:489-719 | a possible run from the start: a parent's failure is propagated to a queued reply, the reply's branch is cancelled and removed, and the tree stalls |
| Conversion.ConvertAssistantMessage | core/anthropic/conversion.py:338-396 | content, calls and reasoning of one assistant message in the three replay modes |
| Conversion.ConvertAssistantMessageWithSplit | core/anthropic/conversion.py:281-336 | the call message, and what is deferred until which ids are answered |
| Conversion.DeferredPostToolToMessages | core/anthropic/conversion.py:398-408 | the deferred blocks as one assistant message, or nothing |
| Conversion.ConvertUserMessage | core/anthropic/conversion.py:469-503 | texts joined between tool results; refused exactly when it holds an image |
| Conversion.ConvertUserMessageWithInjection | core/anthropic/conversion.py:410-467 | the same with the deferred message after each result that leaves no awaited id |
| Conversion.ConvertOne | core/anthropic/conversion.py:173-272 | one message of the history: what it puts out and what is pending after it |
| Conversion.ConvertMessages | core/anthropic/conversion.py:164-279 | the whole history |
| ConversionTranscript.TranscriptIs | core/anthropic/conversion.py:164-279 | for every history that is converted, in every mode, the transcript is told from the history's blocks and strings: which call each message waits for, which ids are open, and so where text, replayed thinking, calls, results and what stands after a call come out, in order |
| ConversionReference.RepliesForm | core/anthropic/conversion.py:410-467 | a user message that answers calls comes out as its results and the texts between them, with the deferred message after each result that leaves no id open |
| ConversionOrder.RefusedIffUnsupported | core/anthropic/conversion.py:144-158 | a history is refused if and only if some message holds an image, or an assistant message a block of a server tool |
| ConversionOrder.RefusalIs | core/anthropic/conversion.py:144-158 | the refusal is that of the first unsupported message, for its first unsupported block |
| ConversionOrder.OtherUserBlocksAreDropped | core/anthropic/conversion.py:410-503 | all other blocks of a user message that are neither text nor tool result are dropped without a trace, whatever is pending |
| ConversionOrder.UserSideIsKept | core/anthropic/conversion.py:164-279 | for every history, user strings, texts and tool results, read off the history, come out complete and in order, wherever deferred text is put |
| ConversionOrder.UserMessageKeepsAll | core/anthropic/conversion.py:469-503 | one user message keeps its results in order and all its text |
| ConversionReplay.CallsAreKept | core/anthropic/conversion.py:114-131 | for every history, the transcript makes the same tool calls in the same order |
| ConversionHistory.NothingDeferredIsLost | core/anthropic/conversion.py:164-279 | for every history, the transcript holds the text, replayed thinking and calls of every assistant message and, at least once, all that stands after its calls, read off the blocks, and beyond that exactly the repeats |
| ConversionHistory.RepeatsIffResultsGoOn | core/anthropic/conversion.py:440-462 | a user message repeats the deferred text if and only if a tool result follows the one that completes the answers |
| ConversionRepeats.TextIsRepeatedIff | core/anthropic/conversion.py:440-462 | for every history that is converted, some deferred text is replayed more than once if and only if the answers to some call with text after it overrun: the message that answers the last of its awaited ids goes on with another tool result |
| ConversionRepeats.OverrunTranscript | core/anthropic/conversion.py:440-462 | such a history and its transcript, which holds the text twice |
| ConversionReplay.GoodOrderIsReplayed | core/anthropic/conversion.py:164-279 | a history whose calls are answered once each by the next message, results first, becomes, read off its blocks and strings: each call message, its results, its deferred text once, the user's text; all else unchanged |
| ConversionReplay.EveryCallIsAnswered | core/anthropic/conversion.py:86-93 | in such a transcript every call message is directly followed by tool messages for exactly its ids |

## Left out

- `HeuristicToolParser` is a parameter of the OpenAI stream: any function from text to text and tool uses.
- JSON text is abstract: event payloads, tool inputs and Task arguments are values or strings; the Task rewriting
  is a parameter that says whether a buffer is incomplete, no object, or normalised, and the restoring of argument
  keys one that says what a buffer becomes, if it is JSON.
- The fallback sees a native stream as whole events; that line-wise transports hand it line by line changes nothing in the text that is sent and is not modelled.
- Fresh ids, clock readings and upstream answers are parameters; floating-point rounding of clocks is not modelled.
- The upstream's count of tokens is a parameter, and so is the encoder, as a function that may refuse a text; logging, tracing and user-facing error texts are left out.
- The hooks of provider subclasses are modelled as the base class has them; retried request bodies are left out.
- OpenRouter's dropping of all events after message_stop, and of `[DONE]`, is left out: the native transport is modelled with the remapper that it calls for every other event.
- The check of the first provider's request before the stream begins is left out: a chain is modelled from the loop over its candidates on.
- The payload of a content block event is a JSON object; one that is valid JSON of another kind is not modelled.
- Fields nothing in the model reads are left out: the message's model name and usage, a segment's block type, a node's session, time stamps and incoming message.
- Event frames that are not content block events keep only what the contract or the tracker looks at.
- The retry and back-off loop behind key rotation, and waiting for a blocked limiter, are not modelled; the rotation ends where that loop takes over.
- The sleeping part of the limiter's acquire is not modelled: a run is the sequence of its turns under the lock.
- Asyncio is a step per lock-held region; the fairness of locks and the order of wake-ups are left open.
- Cancelling a whole tree while a node is in its processor is no step of the runs about trees: TreeCancelKeepsIff shows that it alone breaks their invariant, CancelledTreeRunsTwo what follows.
- A message function that raises a cancellation ends the worker and leaves the futures it had taken unsettled; this, shutting down the worker and the pause after a flood error are left out.
- Nodes of a reply tree are values in the tree's table: what other holders of a node object see is not modelled.
- The repository of several trees and its node-to-tree map are left out; each tree is modelled by itself.
- Content of tool results is the already serialised string; the rendering of lists and dictionaries is left out.
- Conversion of tools, tool choice and system prompts is left out, as are settings, the provider catalog, routing by model name and all HTTP, chat platform and user interface code.
- RotationTriesOnceIff: is about runs within the cooldown of the first report and reports at different clock readings; TriedOnceIff has no such bound, in terms of the pool's cooldowns.
- RotationCoversThePool: gives a sufficient condition; the exact one is in RotationTriesOnceIff.
- CarefulRunsGoOn: assumes that no waiting node is taken out of the tree and that no task is cancelled outside its processor; StallsExactlyWhen and ClearingLeavesNoOrphan say when that happens.
