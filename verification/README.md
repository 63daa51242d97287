# Verified model of the output pipeline and of process termination

A Dafny model of two parts of `tokio-process-tools`: the pipeline that carries a child
process's output from the reader task to its consumers, and the escalation that terminates a
child.

## What is modelled

**Output pipeline.** A reader splits what the child writes into chunks, records them for later
subscribers and sends them to the current ones. There are two backends and two delivery modes.

* The broadcast backend (`Fanout`) snapshots its registry under the lock and then sends to one
  subscriber at a time. Reliable delivery waits for capacity. Lossy delivery collapses a full
  queue into a gap.
* The single-subscriber backend (`SingleSubscriber`) has an exclusive claim, published through a
  watch. The reader records an event and refreshes its cached subscriber under one lock and sends
  outside it. The lossy loop tracks who is owed a gap and may discard its whole buffer.

Both are transition systems. A step is one critical section, one send or one receive, because
that is where the source awaits or releases a lock; in between, reader, subscribers and the owner
of the stream interleave freely. `Reachable` and `CanReach` range over all finite runs. Fields
marked as history in the state (`log`, `ingested`, `received`, `from`, `upTo`, `lo`, `hi`, ...)
never influence a step; they exist so that theorems can speak about whole runs.

The lock-protected objects, the queue and the subscriptions are also modelled as classes with the
source's methods (`BroadcastState`, `BestEffortLiveQueue`, `SharedSubscription`, `ReplayState`,
`ConfiguredShared`, `SingleSubscription`). Their contracts tie them to the same functions the
transition systems use.

Consumers parse lines (`LineParser`, `ParseLines`, `ConsumeSync`) and collect them
(`CollectedBytes`, `CollectedLines`). The parser is specified in two stages: a byte-at-a-time
machine (`ParserMachine`), and a closed form on whole byte strings without any state (`LineSpec`).

**Termination.** `Termination.Terminated` is the escalation in closed form, for every phase list
and every outcome of polls, sends and waits. `ProcessHandle` is the handle with its drop guards;
its loop is proved to do what the closed form says.

`LineParser.LeaveMode`, `ScanLine` and `ScanContent`, `CollectedLines.MakeRoom`,
`BroadcastState.RetainChunk`, `SharedSubscription.RecvLive`, and `ProcessHandle.RunPhases` and
`Escalate` are parts of `next_line`, `push_line`, `push_event`, `recv` and `run_termination_loop`,
split off so that each has its own contract.

## Central definitions

* `LineSpec.Lines(l, bytes)`: split at newlines, limit each segment, omit an empty last one.
* `GapParsing.Drive(l, p, events)`: the lines parser state `p` emits for a stream of events;
  `Offered` are those offered while the stream still goes on, before anything is flushed.
* `Coverage.Covers(log, seen, lo, hi)`: `seen` accounts for `log[lo..hi]`, where each event that
  is not a gap is the next one of the log and each gap skips at least one. It covers reliable
  delivery (without gaps, `seen` is exactly that slice) and lossy delivery alike.
* `Replay.Window(size, retention, items)`: what a retention keeps of everything recorded.
* `Collecting.Retained` and `RetainedLines`: what a collector keeps of everything observed.

## Files

| file | content |
|---|---|
| `Events`, `Subsequences`, `Coverage` | events, payload, sequences, the coverage relation |
| `LineSpec`, `ParserMachine`, `GapParsing`, `CutOffLines`, `LineParsing` | closed form of lines, byte machine, gaps, streams that close in the middle of a line, the parser object |
| `Consuming`, `Collecting`, `CollectorTheorems` | adapter and consumer loop, line waiting, collectors, end-to-end results |
| `Replay`, `ReplayAgreement`, `LossyQueue` | retention windows, agreement of both backends, the lossy queue |
| `BroadcastState`, `BroadcastSubscription`, `Fanout`, `FanoutInvariant`, `FanoutTheorems` | broadcast backend |
| `WideGaps`, `FanoutService` | who the broadcast backend has to serve, and how much a gap stands for |
| `SingleSubscriber`, `SingleReplay`, `SingleInvariant`, `SingleTheorems` | single-subscriber backend |
| `SingleService` | who the single-subscriber backend has to serve, and when it may give output up |
| `SingleSources`, `ReplayTheorems`, `DiscardedReplay` | when a single subscriber's replay fits its live events, and a run in which it does not |
| `DroppedStream` | runs of both backends in which a dropped stream cuts a line off |
| `Termination`, `TerminationReports`, `ProcessHandle` | escalation, time bounds, what is reported, the handle |

## Where code and documentation differ

`UnixGracefulShutdown::total_timeout` is documented as the upper bound on the time spent in
graceful phases (`src/process_handle/termination/shutdown.rs:435-436`). A failed send is followed
by a wait of 100 ms even if the phase's timeout is shorter. `ShortPhaseOverruns` gives an input
for which the bound fails, and `TotalTimeoutIffNoShortPhase` shows that it holds in every
environment exactly if no phase's timeout is shorter than 100 ms. The model follows the code.

## Where replay hides a loss

With lossy delivery, the single-subscriber reader discards its whole buffer when even a gap finds
the channel full (`src/output_stream/backend/single_subscriber/reader.rs:288-293`). Discarded
chunks are not recorded, and a subscriber that attaches later gets no gap for them. It can then
join the end of its replay to its first live event: `ReplayCanInventLine` is a run in which the
consumer sees the line `abd` although the child wrote `ab` and `cd`. `ReplayIsGenuineIff` gives the
exact condition, for every reachable state: what a subscriber returned and holds accounts for a run
of the reader's output, with a gap for every loss, if and only if everything from its first replayed
chunk up to its first live event was recorded, that is, if no buffer was discarded in between.
Under that condition `SingleLinesAreGenuine` shows that the lines offered to a consumer are genuine.
It always holds with reliable delivery (`ReliableDiscardsNothing`) and for a consumer that replays
nothing.

## Where dropping a stream cuts a line off

A subscription of a dropped stream ends without a terminal event, and the consumer treats that like
the end of the stream: it flushes a partial line (`src/output_stream/consumer/driver.rs:37`). What it
flushes may be only the beginning of a line. `BroadcastCutsLineOff` and `SingleCutsLineOff` are runs
in which the consumer sees the line `ab` although the child wrote `abc`, with lossy and with reliable
delivery. In every reachable state the lines of a consumer whose stream is dropped then are among
the lines of exactly what it received an account of (`LossyLinesAreGenuine`,
`SingleLinesAreGenuine`). They are among the lines of everything the child wrote if there is no
partial line or if it has just reached the length limit. Without gaps that condition is exact
(`DroppedLinesIff`, `SingleDroppedLinesIff`). With gaps there is one more way, and only one: an equal
line was completed before and lost (`ClosedLinesIff`). Lines offered before the subscription ends are
genuine without any condition on where it ends.

## Model

| member | source | states |
|---|---|---|
| `LineSpec.EmitConservesBytes` | src/output_stream/line/parser.rs:105-155 | when additional data becomes new lines, or without a limit, the lines of any byte string concatenate to exactly its bytes other than newlines |
| `LineSpec.LinesWithinLimit` | src/output_stream/line/parser.rs:105-155 | no line is longer than a non-zero limit, in either overflow mode |
| `LineSpec.PiecesConserve` | src/output_stream/line/parser.rs:138-150 | the pieces of a long segment are within the limit and concatenate to the segment |
| `ParserMachine.FeedWellFormed` | src/output_stream/line/parser.rs:30-42 | a buffered partial line never exceeds the limit, and is empty while discarding or waiting for a delimiter, which is what the unchecked subtraction in `next_line` relies on |
| `ParserMachine.NewlineResynchronises` | src/output_stream/line/parser.rs:85-103 | a newline brings every reachable parser state back to the fresh one |
| `ParserMachine.ParserRefinesClosedForm` | src/output_stream/line/parser.rs:74-169 | feeding any bytes to a fresh parser and flushing it yields exactly the closed form: every newline segment truncated, chopped or whole, without a synthetic empty line, omitting only an empty last segment |
| `ParserMachine.ResyncClosedForm` | src/output_stream/line/parser.rs:85-96 | after a gap nothing is emitted up to the first newline, and then the parser acts as if fresh |
| `ParserMachine.FeedAppend` | src/output_stream/line/parser.rs:74-155 | parsing two byte strings in turn is parsing their concatenation |
| `GapParsing.RechunkingInvariance` | src/output_stream/line/parser.rs:74-169 | for every division of the bytes into chunks, the lines are those of the bytes alone |
| `GapParsing.GapClosedForm` | src/output_stream/line/parser.rs:58-169 | with any number of gaps, the lines are those of the separate runs between gaps, each run after a gap starting behind its first newline; so no line has bytes from both sides of a gap |
| `GapParsing.GapsNeverInventLines` | src/output_stream/line/parser.rs:58-61 | if any bytes are lost at gaps, and only there, the lines seen are a subsequence of the lines of the full byte string |
| `GapParsing.UnfinishedNeverInventsLines` | src/output_stream/line/parser.rs:58-155 | the same for the lines offered so far while the stream goes on or after it failed: they are among the lines of every continuation |
| `GapParsing.GapsOnlyRemoveLines` | src/output_stream/line/parser.rs:58-169 | inserting gaps anywhere into a chunk sequence leaves a subsequence of its lines |
| `CutOffLines.ClosedLinesAreGenuine` | src/output_stream/consumer/driver.rs:37-40 | if the subscription ends without a terminal event, and the partial line is flushed, the lines seen are a subsequence of the lines of exactly the bytes up to there |
| `CutOffLines.ClosedLinesIff` | src/output_stream/line/parser.rs:163-169 | they are a subsequence of the lines of every continuation exactly if no partial line is pending, or it has reached the limit, or the complete lines alone account for them |
| `CutOffLines.ClosedWithoutGapsIff` | src/output_stream/line/parser.rs:163-169 | without gaps, exactly if no partial line is pending or it has reached the limit |
| `LineParsing.LineParser.constructor` | src/output_stream/line/parser.rs:47-53 | a new parser is fresh |
| `LineParsing.LineParser.OnGap` | src/output_stream/line/parser.rs:58-61 | the partial line is dropped and the parser waits for a newline |
| `LineParsing.LineParser.NextLine` | src/output_stream/line/parser.rs:74-155 | the returned line followed by what the byte machine yields for the unconsumed rest is what it yields for the chunk; no line means the chunk is used up and yields none; a call that consumes nothing empties a full buffer; compaction and allocation sizes have no influence |
| `LineParsing.LineParser.LeaveMode` | src/output_stream/line/parser.rs:85-103 | the same for the part of the loop body that discards input up to a newline or skips a delimiter; afterwards the parser is fresh or the chunk used up |
| `LineParsing.LineParser.ScanLine` | src/output_stream/line/parser.rs:105-155 | the same for the part of the loop body that reads line content, with the one emission that consumes no input |
| `LineParsing.LineParser.ScanContent` | src/output_stream/line/parser.rs:119-155 | the same for a buffer below the limit, including the path that returns a slice of the chunk without buffering |
| `LineParsing.LineParser.Finish` | src/output_stream/line/parser.rs:163-169 | returns exactly the flushed line of the byte machine, if there is one |
| `LineParsing.LineParser.CompactIfNeeded` | src/output_stream/line/parser.rs:188-199 | compaction is invisible in the parser state; afterwards an idle buffer is within the threshold; without a threshold nothing changes |
| `LineParsing.LineParser.EmitBufferedLine` | src/output_stream/line/parser.rs:212-216 | returns the buffered line and swaps the two allocations |
| `Consuming.ParseLines.OnChunk` | src/output_stream/line/adapter.rs:202-215 | the visitor is offered exactly the lines the chunk completes, up to its first break; the loop terminates although one emission consumes no input |
| `Consuming.ParseLines.OnGap` | src/output_stream/line/adapter.rs:217-220 | the adapter resynchronises its parser and calls the visitor's gap hook |
| `Consuming.ParseLines.OnEof` | src/output_stream/line/adapter.rs:222-227 | the visitor is offered the flushed line, its verdict is ignored, and its end hook is called |
| `Consuming.ParseLines.constructor` | src/output_stream/line/adapter.rs:121-128 | options and visitor are fixed for the life of the adapter and its parser is fresh |
| `Consuming.ConsumeSync` | src/output_stream/consumer/driver.rs:18-48 | the loop yields what handling the events one by one yields, for every visitor with hooks, every end of the stream, and cancellation after any number of events |
| `Consuming.OutcomeIsVisit` | src/output_stream/consumer/driver.rs:18-48 | for visitors without hooks that is the visitor's state after the parsed lines of the whole stream, or the lines offered until cancellation, or the read error if the stream fails before the visitor breaks |
| `Consuming.ObservedBeforeEnd` | src/output_stream/consumer/driver.rs:27-47 | what a byte consumer observes are the bytes of all chunks before the end, gaps or not, and it fails exactly if a read error ends the stream |
| `Consuming.LineWaiting` | src/output_stream/visitors/wait.rs:41-52 | waiting reports a match exactly if some parsed line is accepted, asks about the lines up to the first match and no further, and fails exactly if the stream fails before any match |
| `Consuming.WaitOver` | src/output_stream/visitors/wait.rs:41-52 | the consumer loop run with the line waiter yields exactly that, for every sequence of events |
| `Collecting.CollectedBytes.PushChunk` | src/output_stream/visitors/collect.rs:96-132 | in every state and under any options, keeps the first or the last bytes of what it holds followed by the chunk |
| `Collecting.OneMoreChunk` | src/output_stream/visitors/collect.rs:96-132 | so the collection stays the first or the last `maxBytes` bytes of everything observed, truncated exactly if there were more, whatever the chunking |
| `Collecting.RetainedIsMaximal` | src/output_stream/visitors/collect.rs:96-132 | the closed form is the beginning or the end of everything observed, of the maximal length allowed, and truncated exactly if something is missing |
| `Collecting.CollectedLines.PushLine` | src/output_stream/visitors/collect.rs:212-257 | in every state and under any options, keeps, rejects or makes room for the line as `WithLine` says |
| `Collecting.OneMoreLine` | src/output_stream/visitors/collect.rs:212-257 | so the collection stays the closed form of all lines observed, and truncated exactly if some observed line is absent |
| `Collecting.CollectedLines.MakeRoom` | src/output_stream/visitors/collect.rs:236-255 | evicting terminates, always finds a line to evict, and stops at the first suffix behind which the line fits |
| `Collecting.RoomForLongestFit` | src/output_stream/visitors/collect.rs:236-255 | of a collection within its byte limit, eviction keeps the longest suffix the limits allow |
| `Collecting.CollectedLines.PushBack` | src/output_stream/visitors/collect.rs:259-262 | appends and keeps the byte count equal to the sum of the lengths |
| `Collecting.CollectedLines.PopFront` | src/output_stream/visitors/collect.rs:264-268 | removes the oldest line, if any, and keeps the byte count |
| `Collecting.LongestFitIsLongest` | src/output_stream/visitors/collect.rs:231-255 | what is kept under the newest-output policy is a suffix within both limits and no longer suffix is |
| `Collecting.NewestOneMore` | src/output_stream/visitors/collect.rs:231-255 | the closed form of the newest-output policy after one more line: an oversized line is skipped, any other one costs only as many old lines as needed |
| `Collecting.GreedyNeverEvicts` | src/output_stream/visitors/collect.rs:222-229 | under the first-output policy a kept line is never given up |
| `Collecting.GreedyIsSubsequence` | src/output_stream/visitors/collect.rs:222-229 | under the first-output policy the kept lines are a subsequence of the observed ones |
| `CollectorTheorems.CollectVisit` | src/output_stream/visitors/collect.rs:212-257 | collecting line by line arrives at the closed form of all decoded lines, for every decoder |
| `CollectorTheorems.CollectOver` | src/output_stream/consumer/driver.rs:18-48 | the consumer loop run with the collecting visitor yields the closed form of all decoded lines of the stream, or the read error |
| `CollectorTheorems.CollectBytes` | src/output_stream/consumer/driver.rs:18-48 | driving a byte collector over any events yields the closed form of the bytes before the end, or the read error |
| `CollectorTheorems.BroadcastCollectors` | src/output_stream/backend/broadcast/fanout.rs:83-108 | collecting lines or bytes from the start of a reliable broadcast subscription to its end gives a result that depends only on the child's bytes and the options, for all read sizes, chunk sizes, capacities and interleavings |
| `CollectorTheorems.SingleSubscriberCollectors` | src/output_stream/backend/single_subscriber/reader.rs:349-432 | the same for the single-subscriber backend |
| `Replay.WindowStep` | src/output_stream/backend/broadcast/state.rs:241-281 | trimming after each push keeps exactly the window of everything recorded |
| `Replay.WindowIsSuffix` | src/output_stream/backend/broadcast/state.rs:241-281 | every retention keeps a suffix of what was recorded |
| `Replay.WindowKeeps` | src/output_stream/policy.rs:132-155 | how much each retention keeps: nothing, the last `n` chunks or all if there are fewer, the shortest suffix with enough bytes, everything |
| `Replay.CoverIsTight` | src/output_stream/policy.rs:138-150 | a byte-limited window reaches the limit if enough was recorded, and exceeds it by less than its oldest chunk |
| `ReplayAgreement.HistoriesAgree` | src/output_stream/backend/single_subscriber/state.rs:42-130 | after any pushes and seals both backends hold the same events: the window of all pushed chunks, or nothing from the first seal on, and the same terminal event |
| `LossyQueue.PushKeepsShape` | src/output_stream/backend/broadcast/state.rs:41-71 | gaps only at the head, length within capacity plus one for the terminal event, nothing after the terminal event |
| `LossyQueue.PushCovers` | src/output_stream/backend/broadcast/state.rs:41-71 | if what was received and is queued accounts for the log so far, it also does after the next push, overflow included |
| `WideGaps.PushLosesOnlyWhenFull` | src/output_stream/backend/broadcast/state.rs:48-61 | a push onto a queue with room, or of a terminal event, keeps everything unread; an overflow keeps the new event if there is room for it beside the gap |
| `WideGaps.PushCoversWidely` | src/output_stream/backend/broadcast/state.rs:41-71 | every gap of a queue stands for at least as many events as the queue can hold |
| `LossyQueue.BestEffortLiveQueue.Push` | src/output_stream/backend/broadcast/state.rs:41-71 | a closed queue rejects, otherwise the queue becomes the specified one |
| `LossyQueue.BestEffortLiveQueue.Recv` | src/output_stream/backend/broadcast/state.rs:73-91 | one poll takes the head, reports the end, or leaves an open empty queue pending |
| `LossyQueue.BestEffortLiveQueue.Close` | src/output_stream/backend/broadcast/state.rs:93-98 | closing keeps the queued events |
| `BroadcastShared.BroadcastState.constructor` | src/output_stream/backend/broadcast/state.rs:131-144 | the initial state |
| `BroadcastShared.BroadcastState.PushEvent` | src/output_stream/backend/broadcast/state.rs:146-177 | numbers the event, keeps the window of the history or stores the terminal event, and keeps counters and start position in step with the history |
| `BroadcastShared.BroadcastState.RetainChunk` | src/output_stream/backend/broadcast/state.rs:162-167 | appends a chunk to the history and keeps the counters in step |
| `BroadcastShared.BroadcastState.ReplaySnapshot` | src/output_stream/backend/broadcast/state.rs:179-198 | the retained history unless sealed, then the terminal event; live events start at the next number |
| `BroadcastShared.BroadcastState.AddSubscriber` | src/output_stream/backend/broadcast/state.rs:200-205 | registers under a fresh id |
| `BroadcastShared.BroadcastState.RemoveSubscriber` | src/output_stream/backend/broadcast/state.rs:207-209 | unregisters that id and no other |
| `BroadcastShared.BroadcastState.SealReplay` | src/output_stream/backend/broadcast/state.rs:211-215 | the history is empty and stays sealed; the terminal event is kept |
| `BroadcastShared.BroadcastState.CloseForDrop` | src/output_stream/backend/broadcast/state.rs:217-223 | closes exactly the registered lossy queues, keeping what is queued, and empties the registry |
| `BroadcastShared.BroadcastState.PopReplayFront` | src/output_stream/backend/broadcast/state.rs:231-239 | removes the oldest event, if any, and keeps the counters in step |
| `BroadcastShared.BroadcastState.TrimReplayWindow` | src/output_stream/backend/broadcast/state.rs:241-281 | leaves exactly the window, or nothing once sealed |
| `BroadcastSubscription.SharedSubscription.Recv` | src/output_stream/backend/broadcast/subscription.rs:88-106 | replay first, then the next live event; exactly a terminal event detaches and unregisters |
| `BroadcastSubscription.SharedSubscription.RecvLive` | src/output_stream/backend/broadcast/subscription.rs:96-105 | for reliable, lossy and closed receivers, the loop returns the first unread event that is not older than the live start, or reports the end, or is pending |
| `BroadcastSubscription.SharedSubscription.Detach` | src/output_stream/backend/broadcast/subscription.rs:108-114 | unregisters at most once |
| `BroadcastSubscription.SharedSubscription.Drop` | src/output_stream/backend/broadcast/subscription.rs:73-80 | unregisters exactly a subscription that is registered and not done |
| `BroadcastSubscription.ReceiveTakesNext` | src/output_stream/backend/broadcast/subscription.rs:88-106 | the receive loop of the object is a sequence of receive steps of the transition system, returning at most one event |
| `FanoutInvariant.StepKeepsInv` | src/output_stream/backend/broadcast/state.rs:313-378 | every step of reader, subscribers and owner keeps the invariant: history, terminal event and numbering are functions of the log, every subscription accounts for its part of it, those waiting for the event in hand lack exactly that event, and no byte read is lost |
| `FanoutInvariant.ReachableInv` | src/output_stream/backend/broadcast/fanout.rs:83-108 | the invariant holds in every reachable state |
| `FanoutTheorems.ReliableDelivery` | src/output_stream/backend/broadcast/state.rs:313-358 | in every interleaving, what a reliable subscription returned, its unread replay and its channel form exactly one contiguous slice of the log; an open one that the event in hand is not still to be sent to has everything; no channel exceeds its capacity |
| `FanoutTheorems.LossyDelivery` | src/output_stream/backend/broadcast/state.rs:359-377 | in every interleaving, what a lossy subscription returned and holds accounts for its slice of the log with gaps in place of losses; an open one that the event in hand is not still to be sent to has an account of everything |
| `FanoutTheorems.OpenStaysRegistered` | src/output_stream/backend/broadcast/state.rs:200-209 | while the stream goes on, every open subscription is registered, whatever happens to the others |
| `FanoutService.StepKeepsService` | src/output_stream/backend/broadcast/state.rs:313-378 | every step keeps open subscriptions registered under distinct ids, caught up or pending, with queues closed only by the end, and gaps as wide as a queue |
| `FanoutService.StaleAreGone` | src/output_stream/backend/broadcast/state.rs:352-357 | whoever refused an event is not registered any more, so that removing it once more changes nothing |
| `FanoutTheorems.LossOnlyWhenFull` | src/output_stream/backend/broadcast/state.rs:48-61 | every step leaves what a subscription returned and holds as it is or adds the event in hand, except a send of a chunk to a full lossy queue |
| `FanoutTheorems.NeverFullNoGap` | src/output_stream/backend/broadcast/state.rs:48-61 | over whole runs, a subscription whose queue was never full has received no gap |
| `FanoutTheorems.TerminalReachesEveryone` | src/output_stream/backend/broadcast/state.rs:326-338 | once an event is dealt with, the terminal one included, every open subscription has been sent it |
| `FanoutTheorems.DropEndsSubscriptions` | src/output_stream/backend/broadcast/state.rs:217-223 | dropping a lossy stream closes the queue of every open subscription and keeps what is unread |
| `FanoutTheorems.LossyQueueIsExact` | src/output_stream/backend/broadcast/state.rs:41-98 | between two consecutively returned events that are not gaps, a gap was returned exactly if the reader produced something in between, and then at least as many events as a queue can hold; the numbers increase |
| `FanoutTheorems.NoLiveEventIsSkipped` | src/output_stream/backend/broadcast/subscription.rs:97-101 | the check for events older than the live start never fires in a reachable state |
| `FanoutTheorems.TerminalOnceAndLast` | src/output_stream/backend/broadcast/subscription.rs:88-106 | a subscription returns at most one terminal event, it is that of the log, and nothing is left after it |
| `FanoutTheorems.SubscribeReplaysWindow` | src/output_stream/backend/broadcast/mod.rs:274-321 | a new subscription starts with the retained window and the terminal event, which together are the end of the log, and live delivery continues exactly there |
| `FanoutTheorems.SubscribeReplaysRetained` | src/output_stream/backend/broadcast/mod.rs:274-321 | in every reachable state, how many chunks a new subscription replays under each retention, none once sealed, then the terminal event; before the end of the stream it is open for live events |
| `FanoutTheorems.LossyLinesAreGenuine` | src/output_stream/line/adapter.rs:202-227 | end to end, in every reachable state, and also if the stream failed: the lines offered to a consumer are a subsequence of the lines of what the child wrote since its first event, and of everything the child wrote if that is its first chunk; if the stream is dropped now, the lines including the flushed one are among those of what it received an account of, and among those of everything the child wrote if no line is cut off |
| `FanoutTheorems.DroppedLinesIff` | src/output_stream/consumer/driver.rs:37-40 | with reliable delivery, in every reachable state, the lines of a consumer whose stream is dropped now are among those of every continuation exactly if no line is cut off |
| `DroppedStream.BroadcastCutsLineOff` | src/output_stream/backend/broadcast/mod.rs:80-97 | a reachable state of a dropped stream in which a consumer sees the beginning of a line as a whole one |
| `FanoutTheorems.ReliableLinesAreExact` | src/output_stream/consumer/driver.rs:18-48 | end to end, a consumer of a reliable subscription that reached the end saw exactly the lines of those bytes, and any visitor's result depends on them alone |
| `FanoutTheorems.ReaderIsNeverStuck` | src/output_stream/backend/broadcast/state.rs:340-350 | no deadlock: the reader can take a step, or waits for a channel that is full and whose subscription can receive or finish being dropped |
| `SingleReplay.WindowUnlabelled` | src/output_stream/backend/single_subscriber/state.rs:91-130 | retention looks only at the events, so numbered and plain histories keep the same window |
| `SingleReplay.ReplayState.PushReplayEvent` | src/output_stream/backend/single_subscriber/state.rs:42-61 | keeps the window, stores a terminal event, and reports truthfully whether a later subscriber receives the event |
| `SingleReplay.ReplayState.PushRetainedEvent` | src/output_stream/backend/single_subscriber/state.rs:63-69 | appends and keeps the counters in step |
| `SingleReplay.ReplayState.PopReplayFront` | src/output_stream/backend/single_subscriber/state.rs:71-78 | removes the oldest event, if any, and keeps the counters in step |
| `SingleReplay.ReplayState.AttachSubscriber` | src/output_stream/backend/single_subscriber/state.rs:84-89 | claims the stream under a fresh id |
| `SingleReplay.ReplayState.TrimReplayWindow` | src/output_stream/backend/single_subscriber/state.rs:91-130 | leaves exactly the window, or nothing once sealed |
| `SingleReplay.ConfiguredShared.RecordEvent` | src/output_stream/backend/single_subscriber/reader.rs:15-35 | recording and refreshing the cache are one step of the transition system, with the same verdict on whether the event was recorded |
| `SingleReplay.ConfiguredShared.ClearActiveIfCurrent` | src/output_stream/backend/single_subscriber/state.rs:176-183 | claim and watch are cleared together, and only if that id holds the claim |
| `SingleReplay.ConfiguredShared.ClearActive` | src/output_stream/backend/single_subscriber/state.rs:185-190 | claim and watch are cleared together |
| `SingleReplay.ConfiguredShared.SealReplay` | src/output_stream/backend/single_subscriber/mod.rs:181-189 | the history is empty and sealed, the rest unchanged |
| `SingleReplay.ConfiguredShared.TrySubscribe` | src/output_stream/backend/single_subscriber/mod.rs:214-249 | refused exactly while the claim is held; otherwise claim, watch, replay snapshot and terminal event are taken in one step |
| `SingleReplay.SingleSubscription.NextEvent` | src/output_stream/backend/single_subscriber/subscription.rs:26-40 | returns what the transition system's receive returns: replay, then the stored terminal event, which closes the receiver, then live events |
| `SingleReplay.SingleSubscription.Drop` | src/output_stream/backend/single_subscriber/subscription.rs:44-47 | closes the receiver and gives up the claim only if it is its own |
| `SingleInvariant.SplitBufferOk` | src/output_stream/backend/single_subscriber/reader.rs:288-299 | splitting a buffer into chunks loses no byte and yields chunks only |
| `SingleInvariant.FirstEventFits` | src/output_stream/backend/single_subscriber/reader.rs:10-14 | an event sent to a subscriber without live events directly continues its replay: it attached just before the event, or after it with nothing to replay |
| `SingleInvariant.RefreshedToNewcomer` | src/output_stream/backend/single_subscriber/reader.rs:72-84 | after a failed send the refreshed cache is empty or names a newer subscriber that has been sent nothing |
| `SingleInvariant.ActionKeepsInv` | src/output_stream/backend/single_subscriber/reader.rs:214-432 | every action of reader, subscribers and owner, in both delivery modes, keeps the invariant on claim, cache, lag, history and subscribers |
| `SingleInvariant.CanReachInv` | src/output_stream/backend/single_subscriber/reader.rs:214-432 | the invariant holds in every reachable state |
| `SingleTheorems.ExclusiveClaim` | src/output_stream/backend/single_subscriber/state.rs:84-89 | in every reachable state claim and watch agree and name the newest subscription, ids count up, and at most one subscription has an open receiver, the one with the claim |
| `SingleTheorems.ClaimIsKept` | src/output_stream/backend/single_subscriber/state.rs:176-190 | no failed send, stale drop or further attempt to subscribe takes the claim from a subscription with an open receiver |
| `SingleTheorems.ReliableIsContiguous` | src/output_stream/backend/single_subscriber/reader.rs:57-86 | with reliable delivery, in every interleaving, what a subscription returned and holds is one contiguous slice of the log without duplicates; one that attached after the end finishes with the terminal event |
| `SingleTheorems.ReliableIsUpToDate` | src/output_stream/backend/single_subscriber/reader.rs:349-432 | the active subscription lacks nothing while the reader holds no event |
| `SingleTheorems.InHandContinuesRun` | src/output_stream/backend/single_subscriber/reader.rs:10-14 | the event in the reader's hand is the next one of the run of the subscription it is sent to: replay or live, never neither nor both |
| `SingleService.EventIsNotForgotten` | src/output_stream/backend/single_subscriber/reader.rs:57-86 | in both delivery modes, whenever the reader is done with an event, the open subscriber that is active then has it live or is owed a gap if it was there before the event; if it attached since, it has it to replay if it was recorded and replay not sealed, and otherwise got it by the retry, unless nobody was there or the one retry was used up |
| `SingleService.OnlyFullGivesUp` | src/output_stream/backend/single_subscriber/reader.rs:117-122 | a gap becomes pending, or the buffer is discarded, only because the channel of the cached subscriber holds as many events as it can |
| `SingleService.SubscribeReplaysRecorded` | src/output_stream/backend/single_subscriber/mod.rs:214-249 | in every reachable state, subscribing is refused exactly while the claim is held; otherwise the new subscriber has the claim, an open channel, exactly what the retention keeps of everything recorded, and the terminal event if there is one |
| `SingleService.SealIsForGood` | src/output_stream/backend/single_subscriber/mod.rs:181-189 | once sealed, replay stays sealed and empty |
| `SingleTheorems.LossyLiveCovers` | src/output_stream/backend/single_subscriber/reader.rs:214-343 | live events account for a slice of the reader's output, discarded chunks included, and never begin with a gap; replay is recorded output in order; no channel exceeds its capacity |
| `SingleTheorems.LiveGapIffLoss` | src/output_stream/backend/single_subscriber/reader.rs:272-325 | between two consecutive live events that are not gaps, the second possibly terminal, a gap was received exactly if the reader produced something in between |
| `SingleTheorems.GapGoesToTheLaggard` | src/output_stream/backend/single_subscriber/reader.rs:95-153 | no gap is pending at a chunk send, a first send is never full, and a full send makes exactly that subscriber the one owed a gap |
| `SingleTheorems.GapOnlyForTheLaggard` | src/output_stream/backend/single_subscriber/reader.rs:166-192 | a gap is sent only to the subscriber whose lag is tracked, which has received something live and lacks some of what followed |
| `SingleTheorems.SingleTerminalOnceAndLast` | src/output_stream/backend/single_subscriber/reader.rs:196-208 | a subscription returns at most one terminal event, it is that of the log, and nothing is left after it |
| `SingleSources.CanReachSourced` | src/output_stream/backend/single_subscriber/mod.rs:214-249 | in every reachable state, what a subscriber replays is the last part of what was recorded before it attached, and nothing recorded afterwards precedes its live events |
| `ReplayTheorems.ReplayIsGenuineIff` | src/output_stream/backend/single_subscriber/reader.rs:280-299 | what a subscriber returned and holds accounts for a run of the reader's output, with a gap for every loss, exactly if no buffer was discarded between its first replayed chunk and its first live event |
| `ReplayTheorems.ReliableDiscardsNothing` | src/output_stream/backend/single_subscriber/reader.rs:349-432 | with reliable delivery that condition always holds |
| `ReplayTheorems.SingleLinesAreGenuine` | src/output_stream/backend/single_subscriber/reader.rs:272-325 | end to end, under that condition, in every reachable state, and also if the stream failed: the lines offered to a consumer are a subsequence of the lines of what the child wrote since its first event; if the stream is dropped now, the lines including the flushed one are among those of what it received an account of, and among those of everything the child wrote if no line is cut off |
| `ReplayTheorems.SingleDroppedLinesIff` | src/output_stream/consumer/driver.rs:37-40 | with reliable delivery, in every reachable state, the lines of a consumer whose stream is dropped now are among those of every continuation exactly if no line is cut off |
| `DroppedStream.SingleCutsLineOff` | src/output_stream/backend/single_subscriber/mod.rs:73-76 | a reachable state of a dropped reliable stream in which a consumer sees the beginning of a line as a whole one |
| `DiscardedReplay.ReplayCanInventLine` | src/output_stream/backend/single_subscriber/reader.rs:280-299 | a reachable state without that condition in which a consumer has seen a line the child never wrote |
| `SingleTheorems.SingleLinesAreExact` | src/output_stream/consumer/driver.rs:18-48 | end to end with reliable delivery, the consumer saw exactly the lines of the bytes since its first event, all bytes of the child if it returned the whole log |
| `SingleTheorems.ReaderNeverWaitsInVain` | src/output_stream/backend/single_subscriber/reader.rs:57-208 | no deadlock: the reader can act, or waits for the channel of a subscription that is full and can be received from |
| `Termination.SignalsAreInOrder` | src/process_handle/termination/mod.rs:344-404 | the signals attempted are a prefix of the phases followed by the kill; the kill is attempted exactly if no poll and no phase saw an exit |
| `TerminationReports.StatusIsObserved` | src/process_handle/termination/mod.rs:363-404 | the reported status is the one the poll observed, and then nothing is attempted, or the one the last attempt observed; without a status no attempt observed an exit |
| `TerminationReports.ErrorsAreAccurate` | src/process_handle/termination/mod.rs:428-576 | every error tells what went wrong in the poll or in one attempt, with the right action and code; everything that went wrong is reported; all in the order of the attempts, a failed poll first |
| `Termination.FailureTriedEverything` | src/process_handle/termination/mod.rs:428-576 | a failure has tried every phase and the kill, and reports between n+1 and 2n+3 errors for n phases |
| `Termination.ErrorBoundsAreTight` | src/process_handle/termination/mod.rs:428-576 | both bounds on the number of errors are attained for every phase list |
| `Termination.TerminationTimeBound` | src/process_handle/termination/mod.rs:24-30 | if every wait returns within its bound, termination takes at most the phases' timeouts, each at least 100 ms, plus 3 s; and the plain timeouts plus 3 s if every graceful send succeeds |
| `Termination.ShortPhaseOverruns` | src/process_handle/termination/shutdown.rs:435-440 | an input for which the graceful phases outlast the total timeout |
| `Termination.TotalTimeoutIffNoShortPhase` | src/process_handle/termination/shutdown.rs:435-440 | the total timeout bounds the graceful phases in every environment exactly if no phase's timeout is below 100 ms |
| `ProcessHandles.ProcessHandle.constructor` | src/process_handle/drop_guard.rs:55-59 | a handle starts armed with its input open |
| `ProcessHandles.ProcessHandle.MustBeTerminated` | src/process_handle/drop_guard.rs:77-88 | arms both guards from any state without setting off a panic |
| `ProcessHandles.ProcessHandle.MustNotBeTerminated` | src/process_handle/drop_guard.rs:102-109 | disarms both guards from any state without setting off a panic |
| `ProcessHandles.ProcessHandle.Drop` | src/process_handle/drop_guard.rs:29-48 | an armed handle attempts exactly one kill and panics, a disarmed one does neither |
| `ProcessHandles.ProcessHandle.WaitForExit` | src/process_handle/wait.rs:20-65 | input is closed, and the guards are disarmed exactly if the exit was observed |
| `ProcessHandles.ProcessHandle.AttemptGracefulPhase` | src/process_handle/termination/mod.rs:428-495 | one phase attempts its signal once, waits once, and records exactly the errors of that phase |
| `ProcessHandles.ProcessHandle.AttemptForcefulKill` | src/process_handle/termination/mod.rs:497-576 | the kill is attempted once, and a failure always has an error to report |
| `ProcessHandles.ProcessHandle.RunPhases` | src/process_handle/termination/mod.rs:379-400 | the loop stops at the first phase that sees an exit, with all errors, signals and waiting time up to there |
| `ProcessHandles.ProcessHandle.RunTerminationLoop` | src/process_handle/termination/mod.rs:344-419 | the whole escalation does what its closed form says; success disarms the guards, failure leaves them as at entry, and no panic is set off |
| `ProcessHandles.ProcessHandle.Kill` | src/process_handle/termination/mod.rs:74-94 | succeeds and disarms exactly if signal and wait succeed; otherwise reports the one error and leaves the guards |
| `ProcessHandles.ProcessHandle.StartKill` | src/process_handle/termination/mod.rs:125-151 | succeeds and disarms exactly if the signal was sent or the child had exited; otherwise reports the send error and a failed poll, and leaves the guards |
| `ProcessHandles.ProcessHandle.WaitForCompletionOrTerminate` | src/process_handle/wait.rs:74-133 | a completed wait attempts no signal; a timeout or a failed wait leads to the full escalation, each outcome is reported as such, and only a failed escalation leaves the guards as they were |

## Left out

- The read loops of `fanout.rs` and of the single-subscriber `reader.rs` appear as transition systems and not as methods, because other tasks run at every await; the queue's wake-up notifications are not modelled, a receive step is possible when there is something to receive.
- Aborting the reader may happen at any time in both transition systems, which includes the abort just before the stream is closed and any delay until it takes effect.
- `RefreshCache` in the single-subscriber system may happen at any time while the cache is empty and the reader is between reads, which includes every point at which the source refreshes.
- Identifiers and counters are unbounded; wrap-around of 64-bit sequence numbers and subscriber ids is not modelled.
- The lag counter, which only feeds log messages, and the watches for ingested bytes and for the terminal event.
- `broadcast/fast.rs` and its subscription: their behaviour is that of Tokio's own broadcast channel.
- Spawning, process groups and job objects: sending a signal, polling and waiting are outcomes chosen by the environment. Labels are those of Unix; Windows uses a single graceful phase.
- Joining and aborting consumer tasks, drain timeouts, asynchronous drop and the terminate-on-drop wrapper, whose behaviour is mostly that of the Tokio scheduler.
- The asynchronous visitors, `inspect.rs` and `write.rs`: the same control flow as the synchronous path, or output to a writer.
- Lossy UTF-8 decoding: a parameter of the consumers, about which nothing is assumed.
- Builders, naming, error formatting and `num_bytes.rs`: they hold no state and hardly any branching.
