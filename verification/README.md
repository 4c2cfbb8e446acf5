# huginn: a verified model of the monitor's delivery path

huginn probes hosts, publishes each result on an in-process event hub, groups the
results into batches of InfluxDB line protocol, and writes the batches from a
bounded queue that drops its oldest content when the server is away. A debug page
and a Prometheus endpoint show the latest result per probe.

This project models that path in Dafny and proves what the program is for. Every
published result can be accounted for at any moment of any run: it is unread, lagged
past (which is only logged), buffered, queued, or in a batch that was accepted,
rejected or evicted (each of which has a counter). The newest data survives an
outage, no wake-up is lost, shutdown closes the pipeline in stages, and what is
printed on either wire can be read back. One promise turns out not to hold: the
drain at shutdown does not retry (see below).

## How the model is built

Code that changes state in place is imperative here as well: `RetryQueue` and
`WriteStats` are classes, and so are `Page`, `WebState`, `AppConfig` and the join
handles. `RunBatcher`, `Enqueue`, `RunWriter`, `ToLineProtocol`, `Render`,
`ReadGreetingLine`, `Load` and `StopProbes` are methods with loops. Each is proved
against a function, and the theorems are about that function.

Concurrency is modelled by step machines. A run is any sequence of enabled steps,
so a theorem over `Legal` runs covers every interleaving, any number of probes and
any answers of the server.

- `Wakeup` makes every lock, atomic access and notification a step of its own.
- `Lifecycle` covers the stop signal, the wiring, the scheduler, the probe loops
  and the stages of `run()`.
- `Delivery` covers hub, batcher, queue and writer; its steps are the stretches
  between two awaits, and the queue operations are the functions that the class
  methods are proved against; its batcher does what the batcher's loop does
  (`Pipeline.BatcherIsTheLoop`).
- `Pipeline` is the product of the last two; `Shutdown` says how its runs can end,
  and `Monitor` runs it on a loaded configuration.
- `Reconcile` covers server map, stream and debug page; `Scrape` covers the counters
  as the metrics page loads them.

Rules of the runtime that are taken as given:

- Broadcast: a receiver sees what was sent after it subscribed. When more than the
  ring size is unread the next receive skips to the oldest retained message and
  reports how many were skipped. Closed is reported only after everything retained
  was read and the last sender is gone.
- `Notify`: `notify_one` wakes the waiter or stores one permit; `notify_waiters`
  stores none and wakes every waiter that registered before it.
- `select!`: a sleep of positive length is not over when it begins, so a select
  whose shutdown arm is ready from the start takes that arm. When both arms become
  ready later, or the sleep has length zero, either may win.
- A batch's identity is its address; in the machines that is its push index.
- Steps are sequentially consistent.
- A string's length in the queue is that of its UTF-8 bytes (`Unicode`).

Inputs that the program gets from elsewhere are parameters: server answers and the
outcome of the race between backoff and stop signal, write times (`World`), reads from a
connection (`Source`), address parsing (`Parsers`), number formatting and help
wording (`Printer`), clock values and timer firings.

## Where code and comments differ

- `wait_for_batch` is documented to return none only when closed and empty. With
  every lock and atomic a step of its own, a push and the close can both land
  between the look and the flag load, and a batch is then left behind
  (`Wakeup.NoneCanStrandABatch`). `Wakeup.NoneMeansDrainedUnlessOvertaken` says
  exactly when. With the code between awaits as one step the comment holds, and
  `Delivery.DrainedIsComplete` uses that.
- `backoff_delay` is documented as `min(max, initial * 2^attempt)`. The shift
  stops at 31, so for small delays under a very large cap it differs;
  `Backoff.DocumentedBackoff` gives the exact condition and `Backoff.ShiftRunsOut` a
  case.
- Shutdown is documented to give the writer `shutdown_drain_timeout_ms` to flush
  what is queued, with retries. From the moment the stop signal is pending at the
  writer, before the close or after, the first transient answer makes it take the
  shutdown arm, return with the queue non-empty, and be reported as "drained
  cleanly"; and at the close the signal is always pending
  (`Pipeline.ClosedMeansStopping`). `Shutdown.OneRetryableAnswerKeepsTheQueue` is a
  run of the whole program with default settings in which one 503 does this;
  `Shutdown.DrainsExactlyWithoutRetry` and `Writer.DrainAfterStop` give the exact
  condition: the queue ends empty when the first answer to each remaining batch
  settles it, and otherwise only if the server sent `Retry-After: 0`.
- The counters are documented to be updated under the queue's lock so that a scrape
  never sees a depth and an eviction count of different moments. The scrape does not
  take the lock: `Scrape.TornScrape` is a run in which one sees them, and
  `Scrape.ScrapeAddsUpUnlessOvertaken` gives the condition.
- The metrics page promises each family once, and that sanitising metric names
  keeps the output parseable no matter what. A reading named like a built-in family
  repeats that family (`MetricsPage.EachFamilyOnce`), and two readings of one probe
  that sanitise alike repeat a series (`MetricsPage.EachSeriesOnce`);
  `MetricsPage.ReadingCalledSuccess` and `MetricsPage.ReadingsThatCollide` are such
  readings.
- A metric keyed like a built-in field hides from a reader of the line:
  `LineProtocol.LineRoundTrip` gives the condition, and
  `LineProtocol.ReadingCalledUpIsLost` a case.
- The page opens its stream before asking for the snapshot, but these are two
  requests and the server may answer them in either order. `Reconcile.Convergence`
  covers both orders and says when a late subscription matters;
  `Reconcile.LateSubscriptionMisses` is a run in which it does.

All of these can happen with a configuration that loads (for the backoff:
`ConfigGate.ShiftRunsOutAfterLoading`), except the two about readings: no probe
produces such a reading today (`ConfigGate.LoadedLinesReadBack`,
`ConfigGate.LoadedPageIsWellFormed`).

## Model

| member | source | states |
|---|---|---|
| Results.EscapeControlChars | crates/huginn-core/src/types.rs:125-141 | the early return and the rebuilding loop compute one per-character code; the output has no control character and is the input exactly when the input had none |
| Results.EscapedIsControlFree | crates/huginn-core/src/types.rs:125-141 | escaped text is free of control characters; only clean text is left alone |
| Results.EscapingIsIdempotent | crates/huginn-core/src/types.rs:125-141 | escaping twice is escaping once |
| Results.EscapingCollides | crates/huginn-core/src/config.rs:551-555 | two different names can have one escaped form, so uniqueness must be checked on the escaped names |
| Results.ControlCodeSpells | crates/huginn-core/src/types.rs:125-141 | newline, return and tab are spelled by name, any other control character as `\x` and two lower-case hexadecimal digits that read back as its code, and nothing else is touched |
| Results.Failure | crates/huginn-core/src/types.rs:65-83 | a failed probe's result carries what it was given, no status and no reading; no control character is left in its error, which is unchanged exactly when it was clean |
| LineProtocol.EscapeTagIsOnePass | crates/huginn-influx/src/writer.rs:364-369 | the four replace passes, backslash first, equal one per-character map |
| LineProtocol.EscapeFieldStrIsOnePass | crates/huginn-influx/src/writer.rs:379-384 | the same for quoted field strings |
| LineProtocol.BackslashLastBreaks | crates/huginn-influx/src/writer.rs:360-363 | with the backslash pass last, the escape of a comma is itself escaped and a reader stops at the comma; with it first the comma reads back |
| LineProtocol.ToLineProtocol | crates/huginn-influx/src/writer.rs:331-358 | the appending code produces the printed record of the result's tags and fields |
| LineProtocol.LineIsTheFormat | crates/huginn-influx/src/writer.rs:331-358 | that record, name by name: measurement, three escaped tags, `up` and `response_ms`, status and error when present, every reading, the timestamp |
| LineProtocol.LineRoundTrip | crates/huginn-influx/src/writer.rs:331-384 | a parser splitting on unescaped delimiters recovers the whole result from its line exactly when no metric key is a built-in field's |
| LineProtocol.ReadingCalledUpIsLost | crates/huginn-influx/src/writer.rs:352-354 | a reading called `up` is not read back |
| LineProtocol.LineFraming | crates/huginn-influx/src/writer.rs:364-384 | a line is free of newlines exactly when name, type, target and metric keys are; the error never breaks it |
| LineProtocol.BatchFraming | crates/huginn-influx/src/writer.rs:208-224 | splitting a batch on newlines gives back its lines exactly when every result is framable |
| LineProtocol.NormalisedIsFramable | crates/huginn-core/src/config.rs:562-605 | names and targets that were normalised at load make framable results |
| Text.SplitJoin | crates/huginn-influx/src/writer.rs:212-216 | splitting undoes the newline join exactly when no line holds a newline |
| Unicode.DecodeInverts | crates/huginn-influx/src/queue.rs:65-94 | what the queue counts are UTF-8 bytes (`len` of a Rust string): a decoder reads every string back from them |
| Unicode.CharWidths | crates/huginn-influx/src/queue.rs:65-94 | one byte below U+0080, two below U+0800, three below U+10000, four above |
| RetryQueues.PushKeepsLongestSuffix | crates/huginn-influx/src/queue.rs:57-94 | the evictions leave the longest suffix of the queue that fits with the new batch, or just the new batch if none does: the newest data survives |
| RetryQueues.EvictionsAreMinimal | crates/huginn-influx/src/queue.rs:80-85 | every eviction was forced: with one fewer the capacity would be exceeded |
| RetryQueues.PushBounded | crates/huginn-influx/src/queue.rs:65-94 | after any push the UTF-8 bytes of what is queued fit the capacity or exactly one batch is held |
| RetryQueues.PopBounded | crates/huginn-influx/src/queue.rs:116-133 | the identity-checked pop keeps that bound |
| RetryQueues.PushBytes | crates/huginn-influx/src/queue.rs:80-88 | bytes are conserved: before plus new equals kept plus evicted |
| RetryQueues.RetryQueue.constructor | crates/huginn-influx/src/queue.rs:44-55 | an empty, open, valid queue |
| RetryQueues.RetryQueue.Push | crates/huginn-influx/src/queue.rs:65-94 | the loop leaves the specified queue; the byte field and the published depth are the length of its UTF-8 payload, the drop counters grow by the evicted batches and their payload, with no underflow; and the waiter is notified |
| RetryQueues.RetryQueue.PopIfFront | crates/huginn-influx/src/queue.rs:116-133 | removes the front exactly when it is the given batch by identity, says whether it did, and republishes the depth |
| RetryQueues.RetryQueue.Close | crates/huginn-influx/src/queue.rs:161-164 | sets the flag and notifies every waiter |
| Backoff.CheckedMulExact | crates/huginn-influx/src/writer.rs:323-328 | duration multiplication is exact when it answers, and when it does not the exact product exceeds every representable duration's seconds |
| Backoff.BackoffIsCappedDoubling | crates/huginn-influx/src/writer.rs:323-328 | for all 64-bit millisecond settings and all attempts the delay is min(max, initial * 2^min(attempt, 31)) over unbounded integers, overflow included |
| Backoff.BackoffMonotone | crates/huginn-influx/src/writer.rs:323-328 | delays never shrink as attempts grow |
| Backoff.DocumentedBackoff | crates/huginn-influx/src/writer.rs:318-328 | the documented formula is computed exactly when the shift has not run out below the cap |
| Backoff.ShiftRunsOut | crates/huginn-influx/src/writer.rs:318-328 | 1 ms doubling under a cap of 0xFFFF_FFFF_FFFF ms at attempt 32: half of what the formula says |
| Backoff.RetryDelayIsCapped | crates/huginn-influx/src/writer.rs:266-271 | a server hint replaces the backoff but never exceeds the ceiling; without a hint the second cap changes nothing |
| Backoff.PausesIsPositiveWait | crates/huginn-influx/src/writer.rs:267-271 | whether a transient answer is followed by a pause of positive length depends on the settings and the hint only, not on the attempt |
| Backoff.VerdictsPartition | crates/huginn-influx/src/writer.rs:117-147 | every answer is exactly one of accepted, worth retrying, permanently rejected, with 408 and 429 worth retrying |
| Batcher.RunBatcher | crates/huginn-influx/src/writer.rs:165-205 | the loop over any events pushes exactly the specified batches in order, evicting as specified, keeps the specified buffer and deadline, and closes the queue exactly when the hub closed; the rows below say what is specified |
| Batcher.Enqueue | crates/huginn-influx/src/writer.rs:208-224 | an empty buffer is a no-op; otherwise one batch with the joined lines is pushed and the buffer cleared |
| Batcher.BatchingIsAPartition | crates/huginn-influx/src/writer.rs:171-224 | batches and buffer, concatenated, are the received results in order; each batch holds 1 to batch-size results, the buffer stays shorter and is empty once the hub has closed |
| Batcher.ShortBatchesAreTimed | crates/huginn-influx/src/writer.rs:179-202 | an unfilled batch goes out only when the timer fired or the hub closed: there are no more of them than such occasions |
| Batcher.DeadlineBound | crates/huginn-influx/src/writer.rs:173-202 | with a non-empty buffer the timer is due at most the timeout after the first buffered arrival |
| Batcher.TimerRestarts | crates/huginn-influx/src/writer.rs:173-202 | up to the close the timer is due exactly one timeout after the last event at which it fired or a result completed a batch, or after the start if there was none |
| Batcher.WaitIsBounded | crates/huginn-influx/src/writer.rs:173-202 | if no event is handled after a due timer, nothing buffered when an event is handled, a flush included, arrived more than the timeout before |
| Batcher.AfterClosed | crates/huginn-influx/src/writer.rs:189-196 | once the hub has closed nothing changes any more |
| Writer.TryBatch | crates/huginn-influx/src/writer.rs:250-292 | the retry loop sends the specified tries, the wait after try i being the one for attempt i, whatever is pushed and evicted meanwhile; it records the verdict and the time of a write, and pops its batch if it is still at the front, or keeps it when shutdown wins |
| Writer.PopFindsOwnOrNothing | crates/huginn-influx/src/queue.rs:105-133 | after any pushes during the tries the pop takes the writer's own batch, or nothing exactly when that batch was evicted |
| Writer.RunWriter | crates/huginn-influx/src/writer.rs:238-304 | from any queue, with any pushes at its suspension points until the close, the outer loop sends, settles and leaves what is specified; every wait in its log is the one for that answer and that attempt; verdicts, evictions, pops and what is left add up, and the time of the last write is kept |
| Writer.ServeClosedIsDrain | crates/huginn-influx/src/writer.rs:249-293 | on a closed queue that specification is the drain of the rows below |
| Writer.DrainStopsAtFirstStop | crates/huginn-influx/src/writer.rs:249-293 | batches are settled in order up to the first one on which the stop signal wins a backoff; that one and all behind it stay queued |
| Writer.DrainTerminates | crates/huginn-influx/src/writer.rs:226-238 | about `run_writer` by itself: if no stop signal is pending and each batch is settled after finitely many transient answers, the drain empties the queue and records every verdict |
| Writer.DrainAfterStop | crates/huginn-influx/src/writer.rs:279-290 | with the stop signal pending, as after every close, the queue is emptied exactly when the first answer to each batch is not transient; otherwise the first batch that needs a retry stays with all behind it |
| Writer.OneUnavailableAnswer | crates/huginn-influx/src/writer.rs:283-289 | one 503 with the signal pending leaves the queue as it is, though the retry would have been accepted |
| Writer.TriesEnd | crates/huginn-influx/src/writer.rs:252-292 | tries are numbered without gaps; all but the last met a transient answer and no stop signal in the pause after it |
| Writer.TriesAre | crates/huginn-influx/src/writer.rs:250-292 | try i carries the server's answer to it and, exactly when that is transient, a wait: the server's hint or the first delay times 2^min(i, 31), at most the ceiling |
| Writer.ServeIsPaced | crates/huginn-influx/src/writer.rs:238-304 | the same for every entry of the loop's whole log, counted anew for each batch |
| Writer.TryOnce | crates/huginn-influx/src/writer.rs:252-290 | one POST and the pause after a transient answer, with the attempt number the loop keeps |
| Writer.RefusedOnce | crates/huginn-influx/src/writer.rs:259-265 | a permanently rejected head is tried once and the drain goes on with those behind it as if it had not been there |
| Writer.WaitsAreCapped | crates/huginn-influx/src/writer.rs:267-271 | no wait exceeds the ceiling |
| Writer.SaturationIsInvisible | crates/huginn-influx/src/writer.rs:279 | the saturating 32-bit attempt counter never changes a delay |
| Wakeup.NoLostWakeup | crates/huginn-influx/src/queue.rs:87-164 | over every interleaving of locks, atomics and notifications, a writer asleep un-notified has nothing to wake for, except what a push or close is about to announce |
| Wakeup.AnnouncedBatchIsTaken | crates/huginn-influx/src/queue.rs:93-158 | the owed notification then reaches it and it takes the oldest batch |
| Wakeup.AnnouncedCloseEndsTheWait | crates/huginn-influx/src/queue.rs:139-164 | a waiter asleep on a closed, empty queue leaves once the owed broadcast has run |
| Wakeup.StepsAreTheMethods | crates/huginn-influx/src/queue.rs:65-94 | run without interruption, the atomic steps of a push and of a close do what the queue's methods do |
| Wakeup.NoneMeansDrainedUnlessOvertaken | crates/huginn-influx/src/queue.rs:135-158 | none is returned only when closed, and the queue is then empty exactly when no push took the lock after the last look |
| Wakeup.NoneCanStrandABatch | crates/huginn-influx/src/queue.rs:141-146 | a run in which a push with its notification, and then the close, fall between look and flag load and leave a batch behind |
| Lifecycle.SignalNeverMissed | huginn/src/main.rs:124-130 | wherever the signal lands between the subscriptions, once its sender has finished and the scheduler has returned every unused receiver is ready |
| Lifecycle.NoShutdownWithoutSignal | huginn/src/main.rs:375-381 | before the signal no receiver is ready, no loop ends and the hub is open |
| Lifecycle.ProbeReadyExactly | huginn/src/scheduler.rs:27-51 | a probe loop hears a stop signal sent after it subscribed and otherwise learns of it only when the last sender is gone; in every run, both at once and for nothing else |
| Lifecycle.WriterReadyExactly | huginn/src/main.rs:306-313 | the same for the writer until it acts on it |
| Lifecycle.OncePerTick | huginn/src/scheduler.rs:61-97 | in every run a probe publishes once for each tick, and the next tick waits for that; only the run in progress, or the one cut short, has published nothing |
| Lifecycle.StagedShutdown | huginn/src/main.rs:383-396 | after joining every loop the dropped clone closes the hub; after an expired grace period every live loop has been told to abort; the hub is never closed earlier |
| Lifecycle.HubStaysClosed | huginn/src/scheduler.rs:36-97 | a closed hub stays closed and no probe publishes to it |
| Lifecycle.ClosedHubMeansStopReady | huginn/src/main.rs:306-396 | once the hub is closed the writer's shutdown receiver is ready, or was used up |
| Lifecycle.CanSendSignal | huginn/src/main.rs:124-130 | from any point start-up can finish and the signal be sent |
| Lifecycle.ShutdownCanFinish | huginn/src/main.rs:375-396 | from every reachable state whatever a run exists that closes the hub, without an abort unless the grace period had already expired |
| Lifecycle.StopProbes | huginn/src/main.rs:443-475 | true exactly when every loop returns by the one common deadline, and then none is aborted; otherwise all are |
| Delivery.StepKeepsInv | crates/huginn-influx/src/writer.rs:165-304 | every step of hub, batcher, queue and writer keeps: the queue is a suffix of the push history within its bound, what left it was evicted or popped, the writer's order, and the counters |
| Delivery.FreeRemovesHeldOrNothing | crates/huginn-influx/src/queue.rs:105-133 | the pop after a verdict removes the held batch or, if it was evicted meanwhile, nothing; never another batch with the same text |
| Delivery.AnswerDecides | crates/huginn-influx/src/writer.rs:254-278 | a 2xx answer enters the batch in flight as accepted, an answer that is neither 2xx nor 408, 429 or at least 500 as rejected, any other not at all; each is counted once |
| Delivery.OnlyAnswersDecide | crates/huginn-influx/src/writer.rs:249-293 | no other step gives a verdict |
| Delivery.LagSkipsTheOverrun | crates/huginn-influx/src/writer.rs:186-188 | after a lag exactly the ring is left to read |
| Delivery.FinishedIsFinal | crates/huginn-influx/src/writer.rs:189-196 | after the batcher has exited nothing is pushed or evicted |
| Delivery.CutIsFinal | crates/huginn-influx/src/writer.rs:283-289 | a writer that took the shutdown arm of a backoff, or is bound to, sends and settles nothing more |
| Delivery.HeldLeavesData | crates/huginn-influx/src/writer.rs:249-290 | a writer without a verdict on its batch has a non-empty queue: that batch, or the newer ones it was evicted for |
| Delivery.EveryBatchIsSomewhere | crates/huginn-influx/src/queue.rs:65-133 | in every state each pushed batch is accepted, rejected, evicted or queued, and the accepted ones are the pushed ones without the rest, in order and once each |
| Delivery.DrainedIsComplete | crates/huginn-influx/src/writer.rs:249-304 | a writer that leaves through none leaves an empty closed queue, and the accepted batches are the pushed ones without the lost ones, in order and once each |
| Delivery.AcceptedIsReceivedMinusLost | crates/huginn-influx/src/writer.rs:165-304 | split back into lines, the accepted bodies are the lines of the received results without those of the lost batches |
| Pipeline.StepKeepsInv | huginn/src/main.rs:280-396 | lifecycle and delivery together: every step of every part keeps the combined invariant |
| Pipeline.ClosedMeansEverythingRead | huginn/src/main.rs:391-396 | in every run the queue is closed only after the signal, once no hub sender is left and every published result was received or lagged past, and once only |
| Pipeline.ClosedMeansStopping | huginn/src/main.rs:306-396 | in every run, once the queue is closed the stop signal is pending at the writer or has ended it |
| Pipeline.NoPushAfterClose | crates/huginn-influx/src/writer.rs:189-196 | in every continuation of a run after the close, no push, no eviction and no publication |
| Pipeline.VerdictsAreAnswers | crates/huginn-influx/src/writer.rs:249-293 | over every run, a batch is accepted exactly when the server answered a POST of that very batch with 2xx, and rejected exactly when it answered one with a status that is neither 2xx nor 408, 429 or at least 500 |
| Pipeline.BatcherIsTheLoop | crates/huginn-influx/src/writer.rs:165-205 | over every run and interleaving with the writer, buffer and batches are those of the batcher's loop on the same events; so an unfilled batch was due or the last |
| Pipeline.Ledger | crates/huginn-core/src/stats.rs:42-69 | in every reachable state pushed = queued + evicted + popped; attempted, accepted and rejected batches are each in strictly increasing push order; written + rejected = popped + held-but-evicted outside the record-then-pop window; the newest batch is never evicted; accepted and rejected are what the server's answers to POSTs of those batches say |
| Pipeline.PopRemovesHeldOrNothing | crates/huginn-influx/src/queue.rs:105-133 | over every run, the pop leaves the queue alone exactly when the held batch was evicted |
| Pipeline.EveryResultIsSomewhere | crates/huginn-influx/src/writer.rs:165-304 | at every moment of every run, abandoned and ended ones included: each published result is unread, lagged past, buffered or in one batch; each batch is accepted, rejected, evicted or queued, the verdicts being the server's answers; with the queue closed nothing is unread or buffered |
| Pipeline.WhenTheProcessEnds | huginn/src/main.rs:398-424 | when the process ends, in time or by the drain timeout, nothing runs after it; nothing is unread, buffered or queued if the writer drained; and when it ends in time, which is reported as a clean drain, the queue is empty exactly if the writer drained |
| Pipeline.EndToEnd | crates/huginn-influx/src/writer.rs:165-304 | in every run where the writer drains, every published result was lagged past or is in one batch that the server accepted, that it rejected or that was counted as evicted, and the accepted bodies split into exactly the remaining lines |
| Shutdown.BufferCanGo | crates/huginn-influx/src/writer.rs:198-202 | at any moment of any run while the process lives, what is buffered can be handed over as a batch in one step, whatever the writer is doing |
| Shutdown.CanReadAll | crates/huginn-influx/src/writer.rs:175-205 | once the hub is closed the batcher can read or lag past all that is left and exit |
| Shutdown.CanDrain | crates/huginn-influx/src/writer.rs:249-304 | once the queue is closed, and between pauses, the writer can reach an empty queue, if the server accepts what is left |
| Shutdown.CutStays | crates/huginn-influx/src/writer.rs:283-289 | over every continuation of a run, a writer cut short stays so and the queue stays non-empty |
| Shutdown.RetriesUntilTheSignal | crates/huginn-influx/src/writer.rs:279-290 | over every run, a pause is cut short only by a pending stop signal: without one it ends with the next try of the same batch |
| Shutdown.CanDrainUnlessCut | huginn/src/main.rs:381-421 | from any point of any run, signal sent or not, a continuation to a drained writer exists exactly when it has drained already, or the process is still there and the writer has not taken, and is not bound to take, the shutdown arm of a backoff |
| Shutdown.DrainsExactlyWithoutRetry | crates/huginn-influx/src/writer.rs:249-293 | over every run, from any point at which the stop signal is pending at the writer, before the close or after: one transient answer with a pause behind it leaves the queue non-empty for good; a writer that returned left it empty exactly if it drained; from outside a backoff it drains when no answer is transient and, unless a `Retry-After: 0` removes the pause, only then |
| Shutdown.DrainsExactlyAfterClose | crates/huginn-influx/src/writer.rs:249-293 | the same from any point after the close, where the signal is always pending |
| Shutdown.OneRetryableAnswerKeepsTheQueue | huginn/src/main.rs:403-421 | a run of the whole program with default settings: one result, a shutdown, one 503, and the process ends in time with the batch in the queue |
| Monitor.NothingLostUncounted | crates/huginn-influx/src/writer.rs:165-358 | for every loaded configuration and every drained run of it, parsing each line of the bodies the server accepted gives back the received results, in order and once each, minus those in batches counted as evicted or refused by the server; with none lost, all of them |
| Monitor.NothingDisappears | crates/huginn-influx/src/writer.rs:165-358 | for every loaded configuration and every run of it, at any moment and however it ends: the lines of the bodies the server accepted parse to the results of those batches in order and once each, and any other batch is refused by the server, evicted or queued |
| Monitor.LogIsPublished | huginn/src/scheduler.rs:83-86 | over every run, what the hub carries was published by a configured probe |
| Monitor.LimitsHold | huginn/src/main.rs:290-312 | the configured limits hold in every run: the queued UTF-8 bytes stay within the buffer limit or are one batch, batches hold at most the configured number of results, and the buffer fewer |
| Greeting.ReadGreetingLine | crates/huginn-probes/src/lib.rs:58-80 | the reading loop ends on every connection, even an endless one, returns the specified bytes, at most 512, and never buffers a whole chunk beyond that |
| Greeting.FailsExactly | crates/huginn-probes/src/lib.rs:66-76 | the reader fails exactly when some read fails while every read before it brought bytes and these, put together, were not yet enough |
| Greeting.SucceedsExactly | crates/huginn-probes/src/lib.rs:66-79 | and returns the first 512 bytes of everything read exactly when the peer closes, or there is enough, first |
| Greeting.CollectedIsPrefix | crates/huginn-probes/src/lib.rs:65-76 | what is collected is a prefix of the stream, and all of it unless there was enough |
| Greeting.FirstLineIsSegmentationIndependent | crates/huginn-probes/src/lib.rs:44-56 | however the stream is cut into reads, the first line is the same |
| Greeting.VerdictIsSegmentationIndependent | crates/huginn-probes/src/smtp.rs:44-51 | for every cut the greeting starts with a newline-free text of up to 512 bytes exactly when the stream does |
| Greeting.BeyondTheLineItDepends | crates/huginn-probes/src/lib.rs:72-74 | bytes after the first line do depend on the cut |
| Reconcile.ReplayOverSnapshot | crates/huginn-web/assets/app.js:62-91 | replaying the stream over the snapshot gives the server's map exactly when nothing was missed between an early snapshot and a late subscription; overlap never hurts |
| Reconcile.RowConverges | crates/huginn-web/assets/app.js:62-108 | in every run, wherever the seed falls among the deliveries: once the page has caught up, the row of a name whose last streamed result was not skipped agrees with the server exactly when the page needed nothing from before its stream |
| Reconcile.Convergence | crates/huginn-web/assets/app.js:62-108 | and if no name's last streamed result was skipped, the whole page shows the server's map exactly when nothing was missed between an early snapshot and a late subscription, failed snapshots included |
| Reconcile.StreamFirstConverges | crates/huginn-web/assets/app.js:62-71 | with the stream connected before the snapshot is taken, every row not stale by a skip is the server's, and without such rows the page converges |
| Reconcile.LateSubscriptionMisses | crates/huginn-web/assets/app.js:70-108 | a run in which the snapshot is answered before the stream is connected and a result never reaches the page |
| Reconcile.SkippedResultIsMissed | crates/huginn-web/src/sse.rs:16-30 | a run in which a result skipped for a slow client never reaches the page |
| Reconcile.RowsMayStepBack | crates/huginn-web/assets/app.js:80-98 | a run in which a row steps back to an older result on the way |
| Reconcile.WebState.OnCompleted | crates/huginn-web/src/state.rs:45-56 | insert, then send: the map stays the latest result per name of everything sent |
| Reconcile.Page.OnMessage | crates/huginn-web/assets/app.js:72-85 | buffered before the seed, applied after it |
| Reconcile.Page.Seed | crates/huginn-web/assets/app.js:91-99 | the snapshot if any, then what was held back, in arrival order |
| ConfigGate.ContendMeansOverlap | crates/huginn-core/src/config.rs:385-389 | two addresses contend exactly when the sets of addresses they cover intersect |
| ConfigGate.PortSuffixIsHostAndPort | crates/huginn-core/src/config.rs:1013-1023 | splitting at the last colon accepts exactly the targets that read as host, colon, port at some colon |
| ConfigGate.AcceptedExactly | crates/huginn-core/src/config.rs:705-1010 | a configuration has no fault exactly when a flat condition on its fields holds: settings in range, listeners that never meet, names distinct, and each target of the shape its probe kind needs |
| ConfigGate.WarningsAreClean | crates/huginn-core/src/config.rs:562-605 | no warning repeats the control character it reports; no warning means clean names and targets |
| ConfigGate.AppConfig.EscapeNames | crates/huginn-core/src/config.rs:586-605 | rewrites every name and target in place to its normal form and warns once per string that changed |
| ConfigGate.AppConfig.Validate | crates/huginn-core/src/config.rs:702-943 | accepts exactly the configurations without any fault; a reported fault is real, and nothing that is looked for before it is wrong |
| ConfigGate.AppConfig.Load | crates/huginn-core/src/config.rs:541-557 | normalises first, then accepts exactly when the normalised configuration is valid, and otherwise reports its first fault |
| ConfigGate.LoadedListenersBindTogether | crates/huginn-core/src/config.rs:820-868 | in a loaded configuration no two enabled listeners of page, metrics and health share a port at any address |
| ConfigGate.LoadedNamesAreKeys | crates/huginn-core/src/config.rs:870-884 | loaded probe names are non-empty, pairwise distinct and free of control characters |
| ConfigGate.OrderMatters | crates/huginn-core/src/config.rs:551-555 | validating before normalising would let two names through that are one afterwards |
| ConfigGate.LoadedBatchesFrame | crates/huginn-core/src/config.rs:562-605 | batches built from a loaded configuration split into one line per result, although tag escaping leaves newlines alone |
| ConfigGate.LoadedLinesReadBack | crates/huginn-influx/src/writer.rs:331-358 | every line of a configured probe's result parses back to that result |
| ConfigGate.LoadedPageIsWellFormed | crates/huginn-web/src/prometheus.rs:145-209 | the metrics page of configured probes reads back, with every family and every series once |
| ConfigGate.LoadedBackoffStartsRight | crates/huginn-core/src/config.rs:748-773 | accepted settings give delays that start at the first delay, stay at or above it and under the ceiling |
| ConfigGate.ShiftRunsOutAfterLoading | crates/huginn-core/src/config.rs:748-773 | any loadable configuration still loads with the settings at which the documented backoff fails |
| Exposition.SanitisedIsName | crates/huginn-web/src/prometheus.rs:325-338 | a sanitised key is made of name characters, keeps its length, and is unchanged exactly when it was one |
| Exposition.EscapeLabel | crates/huginn-web/src/prometheus.rs:312-323 | the escaped value reads back from between its quotes and breaks no line |
| Exposition.ReadQuotedInverts | crates/huginn-web/src/prometheus.rs:310-323 | reading up to the unescaped quote recovers any label value, whatever follows |
| Exposition.PrintRoundTrip | crates/huginn-web/src/prometheus.rs:282-308 | a reader of the text format recovers the families, headers, labels and values from the text |
| MetricsPage.LessIsLexicographic | crates/huginn-web/src/prometheus.rs:158 | the sort order is that of the first characters that differ, a prefix coming first |
| MetricsPage.SortIsCanonical | crates/huginn-web/src/prometheus.rs:157-158 | every listing of a map keyed by name sorts to the same list |
| MetricsPage.GroupingPartitions | crates/huginn-web/src/prometheus.rs:187-197 | under each sanitised key stand exactly the samples read for it, in order; keys are strictly increasing and no group is empty |
| MetricsPage.GroupReadings | crates/huginn-web/src/prometheus.rs:189-197 | the nested loops build that grouping |
| MetricsPage.RenderFamily | crates/huginn-web/src/prometheus.rs:287-308 | header once, a line per sample, nothing at all without samples |
| MetricsPage.RenderWritePath | crates/huginn-web/src/prometheus.rs:217-285 | the eight write-path families, from the eight values loaded, follow what is already printed |
| Scrape.ScrapeAddsUpUnlessOvertaken | crates/huginn-web/src/prometheus.rs:217-274 | over every interleaving of a scrape's loads with the counters' updates: queued and dropped as read make up, with the pops, the pushes of the moment the depth describes exactly when no eviction was counted between the store of that depth and the load of the counter; otherwise batches are counted twice |
| Scrape.GaugesAgreeUnlessOvertaken | crates/huginn-core/src/stats.rs:39-45 | the two depth gauges as read each describe a stored depth, and the same one when no store fell between |
| Scrape.TornScrape | crates/huginn-influx/src/queue.rs:36-40 | a scrape that shows one batch queued and one dropped when only one was pushed |
| MetricsPage.Render | crates/huginn-web/src/prometheus.rs:156-209 | the text is the printed document of the sorted results and the counters |
| MetricsPage.PageIsDeterministic | crates/huginn-web/src/prometheus.rs:148-158 | the same map gives the same text in whatever order it is iterated |
| MetricsPage.PageReadsBack | crates/huginn-web/src/prometheus.rs:156-323 | whatever the probes are called and read, the page reads back as its document |
| MetricsPage.PageSaysExactly | crates/huginn-web/src/prometheus.rs:156-204 | a sample stands in the family of a name if and only if some probe's latest result put it there: status, duration, code, time, or a reading of that sanitised name |
| MetricsPage.PageShowsCounters | crates/huginn-web/src/prometheus.rs:206-274 | the page ends with the eight write-path families, each counter under its own name and type; every family before them is a gauge about a probe |
| MetricsPage.EachFamilyOnce | crates/huginn-web/src/prometheus.rs:148-152 | every family is one group with one header exactly when no sanitised reading takes the name of a built-in family on the page |
| MetricsPage.EachSeriesOnce | crates/huginn-web/src/prometheus.rs:187-209 | every series is listed once exactly when no probe has two readings that sanitise alike |
| MetricsPage.ReadingCalledSuccess | crates/huginn-web/src/prometheus.rs:198-202 | a reading called `success` opens a second family of that name |
| MetricsPage.ReadingsThatCollide | crates/huginn-web/src/prometheus.rs:189-197 | readings `a.b` and `a_b` of one probe come out as one series twice |

## Left out

- RunWriter: the pushes during its suspensions are finitely many, and each batch is settled after finitely many transient answers, or the loop need not end; Delivery and Pipeline assume neither.
- DrainTerminates: supposes that no stop signal is pending, which is not so in a shutdown; DrainAfterStop and DrainsExactlyWithoutRetry are about that case.
- CanDrainUnlessCut: says that a continuation exists, not that the scheduler takes it; the drain timeout is a step that may end the process at any time after the hub was dropped, its length is not modelled.
- EndToEnd: speaks of runs in which the writer leaves through none; for the others EveryResultIsSomewhere and NothingDisappears say where each batch is.
- WaitIsBounded: supposes that a due timer is handled before any later event; the select may let events overtake it.
- NothingLostUncounted: a server that stores a batch whose answer is then lost counts as not having accepted it, so InfluxDB may hold a batch twice.
- Convergence: says nothing about the row of a name whose last streamed result was skipped (SkippedResultIsMissed shows it can be wrong); reconnects of the stream are not steps of the machine.
- Render: takes the values the scrape loaded; which moments they belong to is the subject of Scrape. Numbers and the wording of the fixed help lines are opaque text without line breaks.
- VerdictIsSegmentationIndependent: about the bytes read; the lossy UTF-8 decoding and the trimming of the reported banner are not modelled.
- Load: decoding of YAML, environment overrides and reading of secret files come before the model's input.
- EventHub has no class of its own: its publish and subscribe are one-line wrappers around the broadcast channel, which Delivery models by the steps Publish, Receive, Lag and HubCloses.
- The HTTP POST, its headers and percent-encoding of the URL: a write is an answer.
- Probe network I/O: a probe is a step that may publish any result of its own configuration entry.
- Floating-point formatting: printed numbers are opaque tokens without delimiters.
- 64-bit wrap-around of the counters, and of the byte count of a queue.
- Authorisation of the metrics endpoint, HTTP routing, headers, SSE framing, connection limits and the health listener.
- DOM rendering and HTML escaping in the debug page.
- Mutex poisoning and memory orders weaker than sequential consistency.
- Logging and console output.
