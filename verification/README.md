# Audit pipeline: model and proofs

The proxy copies every LLM response to its client while an audit goroutine reads the same bytes,
parses them, and queues audit rows that a batcher writes to ClickHouse. This project models that path
from upstream bytes to stored rows, and the migration runner that prepares the tables, and proves what
holds over every input, every interleaving and every interruption. `dafny verify dfyconfig.toml` checks
everything.

| file | subject |
|---|---|
| `Sse.dfy`, `Whatwg.dfy` | line framing of an event stream; a reference reading of section 9.2.6 of the WHATWG HTML Living Standard |
| `Anthropic.dfy`, `AnthropicReassembly.dfy` | the two Anthropic parsers; why replaying a stream gives the message |
| `AnthropicMeaning.dfy`, `OpenAIMeaning.dfy`, `HandlerMeaning.dfy` | results, rows and records in the wire's own names, without the parsers' own functions |
| `AnthropicStopOrder.dfy`, `AnthropicTruncation.dfy` | blocks closed in another order than their content; streams cut off at any byte |
| `OpenAI.dfy`, `OpenAIReassembly.dfy`, `OpenAIChoices.dfy` | the two OpenAI parsers; the emission loop; several choices and the limits of agreement |
| `Batching.dfy`, `TimedBatching.dfy`, `BatcherObject.dfy` | the batcher as a step system, with a clock, and as an object with one reused array |
| `Tap.dfy` | the tee, pipe and goroutine protocol |
| `Handler.dfy`, `SapPath.dfy` | event extraction and the completion callback; what a SAP AI Core path says |
| `Migrations.dfy`, `MigrationBatches.dfy`, `MigrationExecutions.dfy` | restartable runs; when lists of statements fail; how often a file is executed |
| `MigrationRunner.dfy`, `MigrationFiles.dfy` | the runner with its temporary files; the seven migrations |
| `EndToEnd.dfy` | composition: streamed and unstreamed responses are audited alike |
| `Sequences.dfy`, `Llm.dfy` | shared values |

How things are modelled:

- A Go string or byte slice is a Dafny string with one char per byte; only ASCII is ever looked at.
- JSON decoding is a given function from a text to a typed value, `None` on failure. An absent JSON
  member is the empty string, 0 or `None`. Everything around it is concrete.
- The line scanner has a buffer of `limit` bytes (65536 in Go's default); a raw line that long is a scan error.
- A parser is a method over its loop and map of heap blocks, proved equal to a fold; the theorems are
  about the fold. Its partial result on a scan error, which its only caller ignores, is not kept.
- Concurrency is a step system whose steps are taken in any order that is enabled; the object's methods
  each refine one step, and a schedule of methods refines a run.
- A write is all or nothing, its outcome free; a token counter is an integer; the error text of an
  unprocessed record is the kind of error.
- Batch size is at least 1.
- The choice that a streamed delta names, which the program does not decode, is a tag that the model
  strips before parsing.

Where the code and its own comments differ, the model follows the code:

- The migration runner's header says each file is executed at most once. An interrupted file is
  executed again (`MigrationExecutions.ExecutedTwiceIff` says exactly when); safety rests on idempotent statements.
- The tap's comment says the callback runs once the full body has been consumed. It runs after Close, with
  what was read until then, and with the whole body if and only if it was read to its end (`Tap.TapIsFaithful`).
- The batcher's comment says Stop drains any remaining events. An event accepted after the loop has exited
  stays in the channel (`Batching.FinishedIsFinal`, `Batching.DrainedIffNothingLate`).

## Model

| member | source | states |
|---|---|---|
| EndToEnd.AnthropicStreamIsStored | internal/proxy/handler.go:303-383 | from bytes to store: a streamed message, in any pieces, read in any chunks and written in any batches whose writes succeed, ends up as the rows of its blocks, said field by field |
| EndToEnd.AnthropicEndToEnd | internal/proxy/handler.go:303-383 | any message, any stream whose events carry it, whatever its fragmentation, interleaving, line ends and other lines, any tap schedules: the streamed response has the same meaning, rows (but raw body and time) and token counts as the message in one piece |
| EndToEnd.OpenAIEndToEnd | internal/proxy/handler.go:303-383 | the same for OpenAI and SAP AI Core responses with any number of choices of which at most one has text and at most one has calls; "[DONE]" and any other lines may occur |
| EndToEnd.AnthropicClosedEarly | internal/proxy/stream.go:38-51 | a client that goes away at any byte: the callback gets exactly the bytes read until then, they still parse, and each result list is a prefix of the whole answer's |
| EndToEnd.SameStoredRows | internal/audit/batcher.go:83-120 | two responses of one meaning leave the same rows in the store, among any other rows that the shared batchers carry, under any sizes and schedules without drops and failed writes |
| EndToEnd.OwnAmongOthers | internal/proxy/handler.go:357-359 | the rows of a response are recognised among any others |
| EndToEnd.AnthropicStreamMeans | internal/parser/anthropic.go:52-226 | any scannable body whose events carry a message, blocks closed in content order at least within each kind, has the message's meaning |
| EndToEnd.AnthropicStreamMeansIff | internal/parser/anthropic.go:52-226 | blocks closed in any order: the meanings are equal if and only if the metadata is and each kind's payloads keep their order |
| EndToEnd.OpenAIStreamMeans | internal/parser/openai.go:52-182 | any number of choices, any interleaving of their deltas: the meanings are equal if and only if at most one choice has text, at most one has calls, and model (unless the path names it) and usage are the response's |
| EndToEnd.PrintedStream | internal/parser/openai.go:116-131 | what a printed stream holds: the payloads other than "" and "[DONE]" that decode, and then what follows it |
| EndToEnd.EndedStream | internal/parser/openai_test.go:240-249 | a printed stream with its closing "data: [DONE]" holds just the events printed, so that it is among the streams of the theorems |
| EndToEnd.AuditedBody | internal/proxy/stream.go:34-51 | a body read to its end and closed reaches the callback unchanged |
| Sse.PrintRoundTrip | internal/parser/anthropic_test.go:282-292 | printing events and scanning them returns the payloads, with LF or CRLF, with or without event lines |
| Sse.PrintThenScan | internal/parser/openai.go:116-125 | in general it returns the payloads other than "" and "[DONE]", and then those of whatever follows |
| Sse.ScanSplits | internal/parser/anthropic.go:142-143 | a body that scans is its lines put together again: split at LFs and nowhere else, one CR before the end of a line not part of it, the last LF optional |
| Sse.TooLongIffLongLine | internal/parser/anthropic.go:142-143 | the scan fails if and only if some line fills the buffer |
| Whatwg.FramingAgrees | internal/parser/anthropic.go:142-151 | the payloads are the data the standard dispatches, less "" and "[DONE]", then the data of an event cut off at the end |
| Whatwg.FramingAgreesExactly | internal/parser/openai.go:116-125 | so both readings are equal if and only if no event with a payload is left open |
| Whatwg.SamePayloadsFrom | internal/parser/anthropic.go:143-151 | the same from any buffered event on, line by line |
| Anthropic.ParseFull | internal/parser/anthropic.go:52-91 | the loop over content blocks computes the fold; a decoding failure is an error |
| Anthropic.ParseStream | internal/parser/anthropic.go:138-226 | scanner, block map and buffers compute the fold over decoded events |
| Anthropic.ReplayLines | internal/parser/anthropic.go:143-223 | the loop, with heap blocks that no two indices share |
| Anthropic.Handle | internal/parser/anthropic.go:159-222 | one event takes the heap blocks and the result where the fold's step takes them |
| Anthropic.EmitBlock | internal/parser/anthropic.go:202-220 | the list that a closing block is appended to |
| Anthropic.WriteDelta | internal/parser/anthropic.go:188-195 | the text that a delta appends |
| AnthropicMeaning.FullYields | internal/parser/anthropic.go:52-91 | the result in the wire's names: non-empty thoughts and texts and all calls in content order, no input as "{}", the model and the four counts |
| AnthropicMeaning.StreamYields | internal/parser/anthropic.go:138-226 | for blocks sent in any pieces (thinking_delta, text_delta, input_json_delta) and any interleaving: the joined thoughts, texts and calls, with "{}" for no input, in the order of closing |
| AnthropicMeaning.MetaYields | internal/parser/anthropic.go:160-172 | model and input-side counts are those of the last message_start, the output count that of the last message_delta |
| AnthropicReassembly.OpenBlock | internal/parser/anthropic.go:174-195 | an open block holds the kind and name of its last start and exactly what the deltas since then brought |
| AnthropicReassembly.StoppedIsClosed | internal/parser/anthropic.go:197-221 | a block that was stopped is no longer open |
| AnthropicReassembly.Confluence | internal/parser/anthropic.go:159-222 | equal metadata, equal events per index and equal order of stops give the same state, whatever the interleaving |
| AnthropicReassembly.LocalView | internal/parser/anthropic.go:174-195 | the block open at an index depends on that index's events alone |
| AnthropicReassembly.ClosedAt | internal/parser/anthropic.go:197-221 | the k-th block closed is found on its own index |
| AnthropicReassembly.Factor | internal/parser/anthropic.go:160-220 | the result is the closed blocks in stop order on top of the metadata |
| AnthropicReassembly.StreamEqualsFull | internal/parser/anthropic.go:52-226 | blocks closed in content order: thinking, texts and tool calls equal the full parse, and the whole results are equal if and only if the metadata is, which takes its output count from message_delta alone |
| AnthropicStopOrder.StopOrderIsContentOrder | internal/parser/anthropic.go:197-221 | blocks closed in any order: the result is the full parse with the content put in stop order |
| AnthropicStopOrder.StopOrderAgreesIff | internal/parser/anthropic.go:52-226 | it equals the full parse if and only if the metadata does and, for thinking, text and tool calls separately, the non-empty payloads in stop order are those in content order |
| AnthropicStopOrder.OrderWithinKindsSuffices | internal/parser/anthropic.go:197-221 | so it is enough that the blocks of each kind are closed in their order |
| AnthropicStopOrder.StopOrderIsVisible | internal/parser/anthropic.go:197-221 | a stream of two text blocks, the second closed first: replaying gives ["b", "a"] where the message gives ["a", "b"] |
| AnthropicReassembly.TruncationKeepsPrefixes | internal/parser/anthropic.go:143-223 | each result list of a shortened event sequence is a prefix of the whole one's |
| AnthropicTruncation.ScanCut | internal/parser/anthropic.go:142-143 | a body cut at any byte scans to the first lines of the whole, the last of them perhaps cut short |
| AnthropicTruncation.TruncatedBody | internal/parser/anthropic.go:138-226 | a body cut at any byte still parses, and its lists are prefixes of the whole's, if no payload cut short decodes |
| AnthropicReassembly.NoiseIsIgnored | internal/parser/anthropic.go:144-157 | lines without payload, undecodable payloads and events without effect can be inserted anywhere |
| OpenAI.ParseFull | internal/parser/openai.go:52-83 | the nested loops compute the texts and calls of all choices |
| OpenAI.ParseStream | internal/parser/openai.go:104-182 | the whole stream parser computes the fold and the emission |
| OpenAI.GatherLines | internal/parser/openai.go:117-156 | the chunk loop, with heap fragments that no two indices share |
| OpenAI.GatherChunk | internal/parser/openai.go:142-155 | one chunk's choices and fragments |
| OpenAI.Emit | internal/parser/openai.go:166-179 | the counting loop over the fragment map |
| OpenAIMeaning.FullYields | internal/parser/openai.go:52-83 | the result in the wire's names: non-empty contents, all calls with "{}" for no arguments, the model, prompt tokens as input and completion tokens as output |
| OpenAIMeaning.StreamYields | internal/parser/openai.go:104-182 | one text; of the indices with fragments those below their number, in increasing order, names and arguments joined; first model, last usage by its prompt and completion tokens |
| OpenAIReassembly.RunSummary | internal/parser/openai.go:132-155 | first non-empty model, last usage by its fields, all text, all fragments |
| OpenAIReassembly.GatheredByIndex | internal/parser/openai.go:146-154 | fragments of an index concatenate in arrival order and never mix |
| OpenAIReassembly.Confluence | internal/parser/openai.go:117-156 | the interleaving across chunks and indices does not matter |
| OpenAIReassembly.EmissionOrder | internal/parser/openai.go:165-179 | emitted are exactly the fragments with an index in [0, count), in strictly increasing order |
| OpenAIReassembly.EmissionCompleteIff | internal/parser/openai.go:165-179 | no fragment is lost if and only if the indices are 0 to n - 1 |
| OpenAIReassembly.StreamEqualsFull | internal/parser/openai.go:52-182 | at most one choice, any chunking: texts and calls agree, and the results if and only if model and usage do |
| OpenAIChoices.AgreeIff | internal/parser/openai.go:52-182 | any number of choices, deltas interleaved freely: texts equal if and only if at most one choice has content, calls (names and arguments) if and only if at most one has calls, everything if and only if model and usage agree as well |
| OpenAIChoices.CallsBounded | internal/parser/openai.go:146-179 | the stream never yields more calls than the choice with the most |
| OpenAIChoices.Merged | internal/parser/openai.go:142-155 | what the parser gathers is the merged sequence of all choices' deltas |
| Batching.RunKeepsInv | internal/audit/batcher.go:83-120 | in every reachable state flushed ++ batch ++ channel is the accepted sequence, and every flush has its shape |
| Batching.StepKeepsInv | internal/audit/batcher.go:89-117 | each step keeps this: size flushes exact, tick flushes smaller, none empty, one final flush of at most size - 1 + capacity + late arrivals |
| Batching.AddsAccounted | internal/audit/batcher.go:67-76 | accepted plus dropped are all Adds; the accepted keep their order, and are all if and only if none was dropped |
| Batching.DroppedIsExcess | internal/audit/batcher.go:65-76 | over any run the number dropped is what the peak of an unbounded channel under the same schedule exceeds the capacity by; none is dropped if and only if it never does |
| Batching.StoreIsAcceptedLessBatches | internal/audit/batcher.go:215-246 | the store is the accepted sequence less whole batches, in order, nothing twice; all that was flushed if and only if every write succeeded |
| Batching.ShutdownStep | internal/audit/batcher.go:105-117 | after Stop each productive step decreases the measure |
| Batching.ShutdownTerminates | internal/audit/batcher.go:105-117 | so a shutdown has at most that many productive steps |
| Batching.ShutdownProgresses | internal/audit/batcher.go:105-117 | until it has finished, the loop has a productive step |
| Batching.ShutdownComplete | internal/audit/batcher.go:105-117 | with no Add after Stop, all accepted events are flushed at exit and the final flush is at most size - 1 + capacity long |
| Batching.Gathers | internal/audit/batcher.go:91-92 | receiving into a batch that does not fill up only moves events |
| Batching.FillsAndFlushes | internal/audit/batcher.go:91-97 | the receive that fills the batch flushes exactly the batch and the events received, with the write's outcome |
| Batching.TickFlushes | internal/audit/batcher.go:99-103 | a tick flushes exactly what was received since |
| Batching.StopDrains | internal/audit/batcher.go:78-117 | from any running state Stop leads to an exit with batch and channel flushed as one |
| Batching.OutcomesRecorded | internal/audit/batcher.go:215-246 | the outcomes that the flushes record are those of the run's own writes, in order |
| Batching.StoreFollowsWrites | internal/audit/batcher.go:215-246 | while writes succeed the store grows by exactly what is flushed; while they fail it stays as it is |
| Batching.EverythingStored | internal/audit/batcher.go:78-120 | no drop and no late Add: the store holds exactly the added events when the schedule's writes succeed, and nothing when they fail |
| Batching.FinishedIsFinal | internal/audit/batcher.go:112-115 | after exit nothing is flushed; what is accepted later stays in the channel |
| Batching.DrainedIffNothingLate | internal/audit/batcher.go:78-81 | after exit everything accepted is flushed if and only if nothing was accepted since |
| TimedBatching.BoundedDelay | internal/audit/batcher.go:84-103 | in every reachable state of the running loop, no event has been in the batch longer than interval + tick latency |
| TimedBatching.TimedStepKeepsInv | internal/audit/batcher.go:91-103 | the invariant that ties arrivals to the waiting or next tick, across Reset and periodic ticks |
| TimedBatching.TicksArePeriodic | internal/audit/batcher.go:84-103 | between size flushes the ticker fires at whole intervals; neither ticks nor tick flushes move it |
| TimedBatching.TicksFromStart | internal/audit/batcher.go:84-85 | from the start it fires at every multiple of the interval, on a clock that shows the time passed |
| TimedBatching.NoTickBeforeDue | internal/audit/batcher.go:99-103 | with no tick waiting, none is received in any run that ends before the next one is due |
| TimedBatching.QuietAfterSizeFlush | internal/audit/batcher.go:93-97 | in no run is there a tick flush within an interval of a size flush, whatever tick had fired or was about to |
| TimedBatching.ClockNeverStuck | internal/audit/batcher.go:99-103 | when time may not pass, a tick is due |
| TimedBatching.TimedRefinesUntimed | internal/audit/batcher.go:83-120 | a timed run is a run of the step system |
| BatcherObject.Batcher.constructor | internal/audit/batcher.go:52-63 | starts empty and running, with a channel of ten batches |
| BatcherObject.Batcher.AddOne | internal/audit/batcher.go:67-76 | is the Add step, and never blocks |
| BatcherObject.Batcher.Append | internal/audit/batcher.go:92 | appends in place, or in a larger array |
| BatcherObject.Batcher.WriteBatch | internal/audit/clickhouse.go:40-94 | sends all rows or none |
| BatcherObject.Batcher.FlushAndReuse | internal/audit/batcher.go:94-95 | flushes the slice and truncates it in place |
| BatcherObject.Batcher.Receive | internal/audit/batcher.go:91-97 | is the receive step |
| BatcherObject.Batcher.OnTick | internal/audit/batcher.go:99-103 | is the tick step |
| BatcherObject.Batcher.DrainReceive | internal/audit/batcher.go:109-110 | is the drain's receive step |
| BatcherObject.Batcher.DrainDefault | internal/audit/batcher.go:111-115 | is the finishing step |
| BatcherObject.Batcher.Run | internal/audit/batcher.go:83-120 | under any schedule the object passes through the step system's states, and reusing the array never changes what was stored |
| Tap.RunKeepsInv | internal/proxy/stream.go:34-51 | captured ++ pending is what was read, and with the rest it is the body, in every reachable state |
| Tap.TapIsFaithful | internal/proxy/stream.go:31-52 | the consumer gets the body's bytes; onComplete runs at most once, after Close, with exactly what the consumer read; the whole body if and only if it read to the end |
| Tap.ClosedIsFinal | internal/proxy/stream.go:40-44 | after Close nothing more is delivered, and a completion stays |
| Tap.PendingIsTaken | internal/proxy/stream.go:38-51 | in every reachable state, bytes waiting in the pipe find the goroutine still reading |
| Tap.QuiescentIffCompleted | internal/proxy/stream.go:38-51 | a reachable state has no step left that changes it if and only if the body is closed and onComplete has run, once, with what was read |
| Tap.TapTerminates | internal/proxy/stream.go:38-51 | a run in which each step changes something is bounded by the body's length |
| Tap.AnyReadingCompletes | internal/proxy/stream.go:34-51 | a consumer can read the start of a body in chunks of any sizes, and onComplete then has exactly that |
| Tap.IsStreamIff | internal/proxy/stream.go:32 | a response is a stream if and only if "text/event-stream" stands somewhere in its content type |
| Tap.TapReadCloser.Run | internal/proxy/stream.go:38-51 | the object under any schedule passes through the step system's states |
| Tap.TapReadCloser.PipeRead | internal/proxy/stream.go:47-50 | the goroutine's partial reads |
| Handler.ExtractEvents | internal/proxy/handler.go:414-507 | computes the rows of the body's meaning, or none and the error |
| Handler.BuildToolEvents | internal/proxy/handler.go:443-455 | one row per call, in order, or a single row |
| Handler.ParseOpenAIStyle | internal/proxy/handler.go:475-503 | OpenAI's parser or SAP AI Core's |
| Handler.ParseSAPAICore | internal/parser/sapaicore.go:24-54 | the deployment id of the path is the model, the response's own only if there is none; a native path is not parsed |
| SapPath.DeploymentIDIsFirst | internal/parser/sapaicore.go:9-10 | the id is the segment at the leftmost place that matches, and there is none if and only if no place does |
| SapPath.NativeIff | internal/parser/sapaicore.go:32-34 | a path is native if and only if it ends in "/invoke" followed by slashes at most |
| Handler.AuditTransport.OnComplete | internal/proxy/handler.go:303-383 | adds rows, or one record, and the token counts |
| Handler.RowsCarryTurn | internal/proxy/handler.go:422-455 | a structured response gives at least one row; rows carry the calls in order and share identity, texts, model and usage |
| Handler.ResponsePartition | internal/proxy/handler.go:356-382 | each response yields rows and no record, or exactly one record, which carries every field of request and response, and the error |
| Handler.CreditCounts | internal/proxy/handler.go:309-335 | each counter goes up by what the first row says, if that is positive |
| Handler.LedgerOfRun | internal/proxy/handler.go:356-382 | after any run the records are those of the unstructured responses in order, or none when they are not kept, and the rows those of all the others, one response after another |
| Handler.TokensConserved | internal/proxy/handler.go:309-335 | over any run, the counters are the sums of the turns' positive input and output counts, once per turn; where records are kept, turns plus records are all responses |
| Handler.ToolCallsConserved | internal/proxy/handler.go:447-453 | over any run, the calls in the rows are the calls of all turns, in order |
| Handler.TurnHasInputs | internal/parser/anthropic.go:211-215 | no parser yields a call with an empty input |
| HandlerMeaning.AnthropicRows | internal/proxy/handler.go:458-472 | rows of an Anthropic message, field by field, from its decoded content, model and usage |
| HandlerMeaning.AnthropicStreamRows | internal/proxy/handler.go:458-472 | the same for a stream, from the blocks sent in it |
| HandlerMeaning.OpenAIRows | internal/proxy/handler.go:474-502 | rows of an OpenAI or SAP AI Core response: no thinking, and for SAP AI Core the deployment on the path as model, if any, and the request's resource group |
| HandlerMeaning.OpenAIStreamRows | internal/proxy/handler.go:474-502 | the same for a stream |
| HandlerMeaning.NativeRows | internal/parser/sapaicore.go:27-38 | the native API leaves one row with the deployment as model, or none |
| HandlerMeaning.FirstNamedUnique | internal/parser/sapaicore.go:27-30 | the deployment that the path names first is the one taken |
| HandlerMeaning.FailureIsRecorded | internal/parser/openai.go:157-159 | an undecodable body, or a stream with a line as long as the buffer, leaves no row and one record with that error |
| HandlerMeaning.OthersAreRecorded | internal/proxy/handler.go:503-505 | responses of other providers leave one record without an error |
| HandlerMeaning.NoRowsIff | internal/proxy/handler.go:457-507 | there are no rows if and only if the provider is another one, the body does not decode or scan, or model and all lists are empty |
| Migrations.Convergence | migrations/migrate.sh:103-117 | any interrupted runs and one clean run end as a single clean run: tables, column order, recorded versions, success |
| Migrations.ReachableIsOneRun | migrations/migrate.sh:103-117 | every reachable state is that of one interrupted run |
| Migrations.Resume | migrations/migrate.sh:103-117 | two runs cut anywhere amount to one |
| Migrations.ResumeFile | migrations/migrate.sh:55-69 | executing a file again after a part of it amounts to executing it once |
| Migrations.RecordedImpliesApplied | migrations/migrate.sh:109-112 | at every point a recorded version implies that its tables and columns exist |
| MigrationExecutions.RecordedIsNotExecuted | migrations/migrate.sh:107-116 | no statement of a recorded file is executed by any later run |
| MigrationExecutions.ArrivesIff | migrations/migrate.sh:103-117 | a run comes to a file if and only if the files before it apply and its budget covers their writes |
| MigrationExecutions.ExecutedTwiceIff | migrations/migrate.sh:4-5 | for any pending file of any list: two runs in a row both execute statements of it if and only if the first stops strictly inside the file's own writes (by a cut, or at an error after the first statement) and the second can write |
| MigrationExecutions.ExecutedTwiceIffCut | migrations/migrate.sh:4-5 | without erroneous statements: if and only if the cut is after the file's first statement and before its record |
| Migrations.DoneIffAllRecorded | migrations/migrate.sh:103-119 | a run ends well if and only if every file is then recorded |
| Migrations.ExecSettles | migrations/002_add_branch.sql:5-6 | an executed statement has had its effect |
| Migrations.ExecKeepsSettled | migrations/003_request_capture.sql:4-8 | later statements do not undo it |
| MigrationBatches.FailsIffOutOfOrder | migrations/002_add_branch.sql:5-6 | a list of statements fails if and only if some statement, judged by names alone, comes before the table or column it relies on |
| MigrationBatches.PendingRun | migrations/migrate.sh:103-117 | a clean run over pending files is one list of statements |
| MigrationBatches.PendingRunSucceedsIff | migrations/migrate.sh:103-119 | so it succeeds if and only if no statement in all the files comes too early |
| MigrationBatches.AddedColumnsFollow | migrations/003_request_capture.sql:4-8 | new columns without a place follow the table's own, in the order of the statements |
| Migrations.AddColumnPlaces | migrations/002_add_branch.sql:5-6 | where a new column goes, and that nothing else moves |
| MigrationRunner.Runner.SplitFile | migrations/migrate.sh:43-53 | writes the numbered files over any leftovers and touches no others |
| MigrationRunner.Runner.ExecuteFile | migrations/migrate.sh:41-70 | the counting loop executes the file's statements and then any leftovers that continue their numbers |
| MigrationRunner.LeftoversHarmlessIff | migrations/migrate.sh:55-69 | leftovers do not matter if and only if none has the number after the last statement, or the file fails before |
| MigrationRunner.ShortenedFile | migrations/migrate.sh:55-69 | a file shortened after an interruption has its old statements executed behind the new ones if and only if the cut came no later than the first of them |
| MigrationRunner.Runner.Run | migrations/migrate.sh:103-117 | the file loop, cut off after any write or in the middle of splitting any file, is the model's run with the writes made until then, and what it leaves over fits the next run |
| MigrationFiles.CleanInstall | migrations/007_add_token_usage.sql:8-11 | the seven files apply to an empty database and give these columns in this order |
| MigrationFiles.InstallConverges | migrations/001_initial.sql:4-24 | so they do after any interruptions |
| MigrationFiles.BranchFollowsProject | migrations/002_add_branch.sql:5-6 | on a table without it, 002 puts the branch right behind the project and moves nothing else |
| MigrationFiles.InstallExecutesTwiceIff | migrations/007_add_token_usage.sql:8-11 | which of the seven files two runs of an installation both execute: 001 when cut after write 1 or 2, 007 after 16 to 19, and so on |
| MigrationFiles.WriterMatchesSchema | internal/audit/clickhouse.go:45-46 | the writer's column lists are the migrated tables' columns, in order |

## Left out

- JSON decoding and encoding (library code): a given function.
- A byte order mark at the start of a stream, which the standard strips and the program does not; streams whose data lines are not spelt "data: " or which have several per event.
- HTTP transport, TLS, reverse proxying, routing, header overrides, agent detection, configuration and telemetry spans: calls into other code or finite choices.
- The request-direction row, request parsing and scrubbing: they rest on the regular-expression engine.
- The Gemini parser, a stub whose responses all become unprocessed records.
- NewChannelBatcher's sink, a helper of the tests: it delivers what a channel of the test's own has room for.
- The time a flush takes: it is zero in the timed model, so that the delay bound speaks of ticks, not of a slow store.
- Process exit after Stop: the program does not wait for the loop; the drain theorems are about the loop reaching its return.
- Reads after Close and closing during a read, which the single consumer of a body does not do.
- Narrowing of token counts and status codes to fixed-width integers when a row is written.
- SQL beyond the statement forms of the migration files, column defaults and table engines, and creation of the database and of schema_migrations.
- Handler.ResponsePartition: assumes an unprocessed batcher; without one such a response leaves nothing, as Handler.AuditTransport.OnComplete states.
- MigrationRunner.Runner.Run: takes the leftovers to be those of earlier runs over the same files; for a file changed in between see MigrationRunner.ShortenedFile.
