# Ferrometer in Dafny

Ferrometer is a telemetry agent whose substance is three stateful protocols and a few text transformations. This
project models them and proves what they keep over whole runs.

* **Log shipping** (`LogSource`, `Journald`, `Shipper`, `ShipperSpec`, `ShipperRuns`, `ShipperDelivery`,
  `ShipperOrder`, `ShipperProgress`). A reader follows an append-only journal with a persisted cursor, an in-flight
  batch that may be topped up between retries, and one parked entry that did not fit. The shipper sends the batch in
  chunks, halves them when the sink calls a request too large, drops an entry refused on its own, takes a permanent
  rejection as delivered, and backs off on anything else. The classes `JournaldSource` and `Shipper` are proved to
  follow a state machine over journal, cursor, process and crashes; the theorems are about every run of that machine.
* **The forwarder** (`Forwarder`, `ForwarderRuns`, `ForwarderResets`, `ForwarderProgress`). A capped ring buffer whose
  prefix may be out on the wire while batches arrive, driven by a loop that parks on a notification and sleeps in a
  backoff. The class operations are proved against functions of the buffer; a machine interleaves submitters, the
  loop, its timers and shutdown at every lock, await and notification.
* **The metric scheduler** (`SchedulerSpec`, `Scheduler`, `SchedulerRuns`, `SchedulerCadence`). Collectors run on a
  grid, one run each at a time; their lists are joined until a soft deadline and handed to every forwarder.
* **Text and grouping** (`LabelString`, `Placeholders`, `Grouping`, `OtlpRequest`, `LokiBody`), and the delay the two
  send loops share (`Backoff`).

A `char` stands for one byte of UTF-8 text, so lengths, searches and orderings are byte-wise as in the original. A
cursor is the place of its entry in the journal. What the environment decides (arrivals, verdicts, times, interleaving)
is an arbitrary script or event sequence. A read error, a failed cursor write or a shutdown ends the shipper's process
and is a crash in the model; only the journal and the persisted cursor survive one.

## Where the code and its promises part

* The repository's README says that restarts neither lose nor duplicate entries. Both halves fail.
  * A process that dies before its first ack leaves no cursor, and the next one starts at the tail
    (`src/log/source/journald.rs:129-139`), as does one that does not find its cursor. `ShipperOrder.CursorlessRestartSkips`
    gives a run that loses an entry, and `ShipperDelivery.NothingSkippedIff` says exactly when a run loses none.
  * A process that dies between a verdict and the ack leaves the old cursor, and the next one sends the batch again.
    `ShipperOrder.CrashBeforeAckRepeats` gives a run that resolves an entry twice, `ShipperDelivery.ExactlyOnceIff` says
    exactly when none is, and `ShipperDelivery.AtLeastOnce` bounds the repetitions by one batch a crash. This counts
    verdicts the shipper has seen: a request the sink took without its verdict arriving is sent again, crash or not.
* A failed send does not always leave the buffer it would have been without the send: while a prefix is out, a middle
  batch can be evicted and the older prefix can still fit when it returns. Nothing is lost by that, and
  `Forwarder.FailedSendNeverCostsData` says exactly when the two buffers agree.
* The backoff of the forwarder is reset not only by a success but also by a pop that finds the buffer emptied by
  overflow (`src/forwarder/otlphttp.rs:153-155`, `298-302`). `ForwarderResets.EmptyPopResets` gives such a run,
  `ForwarderResets.EmptyPopsIff` says exactly when it happens, and otherwise only a success resets it
  (`ForwarderResets.OnlySuccessResets`).
* The grid of the collectors starts when the pipeline is set up, the scheduler's loop later (`src/pipeline.rs:48`, `104`).
  The first run starts when the loop does and need not be on the grid; `SchedulerCadence` covers any such delay.
* Label names are not validated. The printed set can be read back exactly when no name contains `="`
  (`LabelString.LabelStringRoundTrip`); one that does can print like two labels (`LabelString.UncheckedNamesCollide`).

## Model

| member | source | states |
|---|---|---|
| LogSource.Batch.Push | src/log/source.rs:61-65 | the batch grows by one entry at the end, its cursor is that entry's, its size stays the sum of the entry sizes |
| LogSource.ApproxSizeAddsUp | src/log/source.rs:36-45 | an empty entry counts 16 bytes, each byte of the message one more, each label or metadata field its two lengths plus 4 |
| LogSource.FillIsLongest | src/log/source/journald.rs:168-217 | filling stops at the longest run of entries within the count and byte caps (a single entry may exceed the byte cap) |
| LogSource.TopUpForgetsHistory | src/log/source/journald.rs:320-353 | filling, letting the journal grow and filling again gives the batch one fill of the grown journal gives |
| LogSource.FreshFillProgress | src/log/source/journald.rs:184-217 | a fresh fill takes something exactly when an entry is available and `batch_size` is not zero |
| Journald.JournaldSource.PositionToStart | src/log/source/journald.rs:112-143 | reading starts right after the saved cursor, or at the tail if there is none or it is not found |
| Journald.JournaldSource.AdmitNext | src/log/source/journald.rs:184-217 | one round of filling admits the next entry, or stops where filling stops and parks an entry that is there but does not fit |
| Journald.JournaldSource.DrainAvailable | src/log/source/journald.rs:184-217 | the batch is extended by consecutive journal entries to where filling stops; an entry is parked exactly when the batch was still open but that entry did not fit |
| Journald.JournaldSource.BuildBatch | src/log/source/journald.rs:252-293 | catch-up, blocking and coalescing together give the batch one fill of the final journal gives |
| Journald.JournaldSource.PeekBatch | src/log/source/journald.rs:319-361 | a peek hands out the in-flight batch, only ever extended at its end, with the cursor of its last entry; the parked entry stays next |
| Journald.JournaldSource.Ack | src/log/source/journald.rs:363-368 | the cursor is persisted, nothing is in flight, the parked entry and the read position stay |
| Journald.PeekHandsOutLongestRun | src/log/source/journald.rs:168-217 | every batch handed out is within the caps and cannot be longer; it is empty only if nothing is unread; a parked entry leads the next batch |
| Journald.PeekForgetsHistory | src/log/source/journald.rs:319-361 | several peeks assemble the batch that one peek would |
| Journald.SourcePartitionsJournal | src/log/source/journald.rs:184-217 | acked or skipped entries, the in-flight batch, the parked entry and the unread entries always make up the journal |
| Backoff.FailedOnSchedule | src/log/shipper.rs:172-178 | one more failure keeps the delay at min(initial * 2^(k-1), max) |
| Backoff.ClosedFormIffValidated | src/config.rs:789-793 | that closed form holds for every k exactly when initial does not exceed max, which the validation demands |
| Shipper.Shipper.FinishBatch | src/log/shipper.rs:203-220 | the in-flight batch is acked by its end cursor and the progress starts over |
| Shipper.Shipper.TakeVerdict | src/log/shipper.rs:105-188 | a verdict moves the progress and the backoff as the machine says |
| Shipper.Shipper.Ship | src/log/shipper.rs:96-189 | one request carries the next chunk; its verdict moves the progress, the backoff and possibly the cursor as the machine says |
| Shipper.Shipper.Pass | src/log/shipper.rs:67-190 | one pass waits out the backoff, peeks, sends at most one request and acks once everything is resolved |
| Shipper.Shipper.Run | src/log/shipper.rs:55-198 | a process follows the machine from start to shutdown, and every request body is the journal slice the log names |
| ShipperRuns.SplittingIsLogarithmic | src/log/shipper.rs:88-188 | once split, chunk * 2^splits stays within the batch; a batch of n entries takes at most n + floor(log2 n) requests besides its transient failures, topped up or not; the summary counters agree with the requests made |
| ShipperRuns.RequestsAddUp | src/log/shipper.rs:105-188 | every request resolves at least one entry, splits, or fails transiently |
| ShipperRuns.RequestsCarryHalf | src/log/shipper.rs:96-141 | a pass makes a request exactly when something of its batch is pending; it starts there and carries everything pending until a request of the batch was split, from then on min(pending, L / 2), L being the length of the latest split request |
| ShipperRuns.BackoffOverRuns | src/log/shipper.rs:68-76 | in every process the delay follows the closed form of the failures since the last success or rejection and no request starts before it ends; too-large answers neither lengthen nor reset it |
| ShipperRuns.RequestsStartWhenDue | src/log/shipper.rs:68-76 | a request starts as soon as the delay after the latest transient failure is over, but for the time the source takes |
| ShipperDelivery.AtLeastOnce | src/log/shipper.rs:55-220 | over every run with crashes anywhere, along the line of reading followed now, each entry from its start through what is acked and resolved was delivered, dropped alone, or rejected as invalid, and the place acked is the persisted cursor's unless a start at the tail came after it; resolutions exceed the entries acked and in progress by at most one batch a crash |
| ShipperDelivery.AckedAreCovered | src/log/source/journald.rs:112-143 | if every cursor looked for is found, the entries acked are exactly those from the latest cursorless start on |
| ShipperDelivery.NothingSkippedIff | src/log/source/journald.rs:112-143 | everything from the first start through the persisted cursor is resolved exactly when nothing was acked by a process that had started at the tail past an entry neither acked nor resolved before a crash; the place acked so far needs in addition that no such process is followed now; finding the cursor again in time undoes the jump |
| ShipperDelivery.ExactlyOnceIff | src/log/shipper.rs:96-220 | no entry is resolved twice exactly when no request with an entry whose resolution a crash undid gets a resolving verdict |
| ShipperDelivery.CleanCrashesRepeatNothing | src/log/shipper.rs:105-220 | a run in which no process ends between a verdict and its ack resolves nothing twice |
| ShipperOrder.ExactlyOnceInOrder | src/log/shipper.rs:88-121 | without a crash the resolved places are the journal from the start through acked + sent, in order and once each |
| ShipperOrder.SplittingLosesNothing | src/log/shipper.rs:96-153 | against a sink that refuses for good only by size, and then whatever contains a refused slice, the successful requests concatenated are the entries it accepts on their own |
| ShipperProgress.BatchIsAcked | src/log/shipper.rs:88-189 | a batch in flight is acked, its cursor persisted, after at most batch_size + floor(log2 batch_size) requests and as many passes besides its transient failures, whatever is split, dropped, rejected or topped up |
| ShipperOrder.CursorlessRestartSkips | src/log/source/journald.rs:129-139 | a concrete run in which a crash before the first ack loses an entry |
| ShipperOrder.CrashBeforeAckRepeats | src/log/shipper.rs:105-220 | a concrete run in which a crash between a delivery and its ack delivers an entry twice |
| Forwarder.OtlphttpForwarder.Submit | src/forwarder/otlphttp.rs:247-263 | an empty list changes nothing; any other is appended and the oldest batches are dropped until the cap holds |
| Forwarder.OtlphttpForwarder.PopForSend | src/forwarder/otlphttp.rs:115-133 | the popped prefix and what stays are the old buffer, and the count stays exact |
| Forwarder.OtlphttpForwarder.Requeue | src/forwarder/otlphttp.rs:137-149 | the popped batches return to the front in order, then the cap is enforced from the front |
| Forwarder.EvictKeepsLongestSuffix | src/forwarder/otlphttp.rs:255-260 | overflow keeps the longest suffix that fits |
| Forwarder.EvictedIsLongestFit | src/forwarder/otlphttp.rs:143-148 | the same for the batches themselves, after a submission or a requeue |
| Forwarder.PopTakesLongestPrefix | src/forwarder/otlphttp.rs:112-133 | a request takes the longest prefix within its limit, and always the first batch |
| Forwarder.SubmitsKeepSuffix | src/forwarder/otlphttp.rs:247-263 | any number of submissions leave the longest suffix of everything submitted that fits: it is a suffix, it fits, and one batch more would not |
| Forwarder.RequeueUndoesPop | src/forwarder/otlphttp.rs:135-149 | with nothing submitted in between, requeue undoes pop |
| Forwarder.FailedSendNeverCostsData | src/forwarder/otlphttp.rs:115-149 | after pop, any submissions and requeue the buffer ends with all it would hold had no send been tried, and with exactly that unless the submissions overflowed the shortened buffer and the newest popped batch fits before what they left |
| Forwarder.FailedSendMayKeepMore | src/forwarder/otlphttp.rs:137-149 | a concrete case in which an older batch returns although a newer one was evicted |
| ForwarderRuns.LedgerFollowsSubmit | src/forwarder/otlphttp.rs:247-263 | what Submit does to the batches is what the ledger of names records |
| ForwarderRuns.LedgerFollowsPop | src/forwarder/otlphttp.rs:115-133 | the same for PopForSend |
| ForwarderRuns.LedgerFollowsRequeue | src/forwarder/otlphttp.rs:137-149 | the same for Requeue |
| ForwarderRuns.BufferOverRuns | src/forwarder/otlphttp.rs:115-263 | over every interleaving delivered, in-flight and buffered batches are in submission order, each submitted batch is in exactly one of delivered, in flight, buffered, evicted, and a batch is evicted only if the metrics submitted from it on exceed the cap |
| ForwarderRuns.MemoryBound | src/forwarder/otlphttp.rs:31-34 | in-flight plus buffered metrics never exceed twice the cap |
| ForwarderRuns.DeliveredAreSent | src/forwarder/otlphttp.rs:151-245 | what was delivered is what the successful attempts carried, in order; every attempt but an empty one carried something |
| ForwarderRuns.WakeupsAreNotLost | src/forwarder/otlphttp.rs:269-284 | whenever the loop is parked with data buffered or shutdown set, a permit is stored or some caller is yet to notify |
| ForwarderProgress.PermitWakes | src/forwarder/otlphttp.rs:281-296 | a stored permit brings a parked or sleeping loop back to its head and is used up |
| ForwarderProgress.PermitOnlyWakes | src/forwarder/otlphttp.rs:281-296 | nothing else uses a permit up |
| ForwarderProgress.SleepsIff | src/forwarder/otlphttp.rs:286-296 | with data in sight the loop sleeps exactly when its latest attempt was refused and the delay after that is not yet past |
| ForwarderProgress.AnswerEndsAttempt | src/forwarder/otlphttp.rs:270-316 | an answer delivers the request's batches or takes them off the wire, and the loop is at its head, or done after the flush |
| ForwarderProgress.DueIsServed | src/forwarder/otlphttp.rs:269-298 | from every reachable state with data buffered or shutdown stored, at most eight steps (the loop's own, notifications owed, the end of the backoff) put the longest front of the buffer that fits on the wire, or end the loop |
| ForwarderProgress.ShutdownReturns | src/forwarder/otlphttp.rs:269-274 | once shutdown is stored, at most two answers end the loop, whatever they are |
| ForwarderRuns.BackoffOverRuns | src/forwarder/otlphttp.rs:286-316 | however often submitters notify, no attempt but the shutdown flush starts before the delay of the failures since the last reset is over, and that delay follows the closed form |
| ForwarderRuns.FlushIsLast | src/forwarder/otlphttp.rs:270-273 | the loop returns only after shutdown and exactly one flush attempt, the last of all, as `src/forwarder/mod.rs:17-22` promises |
| ForwarderRuns.ShutdownEndsSoon | src/forwarder/otlphttp.rs:269-316 | after shutdown is stored the log grows by at most the flush and one ordinary attempt, the latter only if the loop had passed its check of the flag and is not parked |
| ForwarderResets.OrdinaryMayFollowIff | src/forwarder/otlphttp.rs:269-316 | some continuation answers an ordinary attempt after the store exactly when the loop is past its check of the flag and not parked |
| ForwarderRuns.DoneIsFinal | src/forwarder/otlphttp.rs:270-273 | after the loop has returned nothing more is attempted or delivered, whatever is submitted |
| ForwarderResets.OrdinaryAttemptAfterShutdown | src/forwarder/otlphttp.rs:269-316 | a concrete run in which an ordinary attempt and then the flush follow the store |
| ForwarderResets.EmptyIffOverwhelmed | src/forwarder/otlphttp.rs:255-298 | once the loop goes on to pop, the buffer is empty exactly when the newest submission since it looked is larger than the cap |
| ForwarderResets.EmptyPopsIff | src/forwarder/otlphttp.rs:153-155 | no ordinary attempt finds nothing to send exactly when no pop comes after such a submission |
| ForwarderResets.OnlySuccessResets | src/forwarder/otlphttp.rs:286-316 | in a run without such a pop the delay follows the closed form of the refusals since the last success |
| ForwarderResets.FittingNeverDrains | src/forwarder/otlphttp.rs:255-260 | there is no such pop if every submission fits the buffer |
| ForwarderResets.EmptyPopResets | src/forwarder/otlphttp.rs:298-302 | a concrete run in which the backoff is reset with no success |
| Scheduler.Scheduler.StartDueCollectors | src/pipeline.rs:106-150 | every idle due collector, and no other, starts now and moves to the first grid point after now |
| Scheduler.Scheduler.HandleResult | src/pipeline.rs:206-222 | the named collector is idle again and a non-empty list is queued with its soft deadline |
| Scheduler.Scheduler.SubmitBatch | src/pipeline.rs:224-233 | everything queued goes out as one concatenated batch, the same to every forwarder |
| Scheduler.Scheduler.SchedulerLoop | src/pipeline.rs:95-204 | the loop follows the machine until shutdown, and every forwarder is given the machine's submissions |
| SchedulerRuns.NothingLostOrReordered | src/pipeline.rs:161-233 | submissions concatenated with what is queued are the received lists in arrival order; shutdown leaves nothing queued |
| SchedulerRuns.SubmittedWithinSoftDeadline | src/pipeline.rs:156-202 | with timers on time, every list is submitted by the later of its receipt and one second after its start; at a wait nothing queued is due, and some collector is active while anything is queued |
| SchedulerRuns.ListsJoinUntilDue | src/pipeline.rs:152-164 | a wake-up makes at most one submission, and only on shutdown, with no collector active, or with a covered list at its soft deadline |
| SchedulerRuns.OverIff | src/pipeline.rs:166-200 | the loop is over exactly after a shutdown, or if there is no collector |
| SchedulerCadence.CatchUpClosedForm | src/pipeline.rs:109-111 | the catch-up loop lands on the first grid point after now, as division gives it |
| SchedulerCadence.NoBursts | src/pipeline.rs:48-150 | on a grid that begins at or before the loop's first pass, a collector's next run is due at origin + k * interval, its runs never overlap or share a grid cell, and at most one more start than cell boundaries have passed since that pass |
| SchedulerCadence.StartsOnGrid | src/pipeline.rs:48-150 | with timers on time, the first run starts with the loop's first pass, every later one on a grid point or at the instant the late run before it is over, and at a wait no idle collector is past its due time |
| SchedulerCadence.ReportFrees | src/pipeline.rs:206-213 | a report makes the first collector of that name idle, and changes no other and no schedule |
| SchedulerCadence.EveryTickServed | src/pipeline.rs:106-150 | with timers on time, every grid point since the loop began finds a run of the collector in flight, or one starts or ends then; the next run is due at the first grid point after the latest start |
| LabelString.FormatLabelString | src/log/sink/loki.rs:139-160 | the printed set is the comma-separated pairs in braces with backslash, quote and newline escaped |
| LabelString.PrintedIsOneLine | src/log/sink/loki.rs:149-155 | the printed set contains no raw newline if no name does |
| LabelString.LabelStringRoundTrip | src/log/sink/loki.rs:137-160 | parsing the printed set gives it back, whatever the values contain, exactly when no name contains `="` |
| LabelString.LabelStringInjective | src/log/sink/loki.rs:137-160 | different label sets print differently |
| LabelString.UncheckedNamesCollide | src/log/sink/loki.rs:146-147 | two different sets with the same string, one using a name with `="` in it |
| Placeholders.ExpandPlaceholders | src/config.rs:807-826 | the loop computes the recursive expansion of the value |
| Placeholders.PlaceholdersStandFor | src/config.rs:828-840 | a placeholder stands for the instance's name, the version, or a set environment variable, and for nothing else |
| Placeholders.ExpansionIsSubstitution | src/config.rs:807-840 | expanding a printed template substitutes token by token, never re-expands a value, and fails exactly at the first unresolvable placeholder or else at an unterminated one |
| Placeholders.EveryValueIsTemplate | src/config.rs:807-826 | every value is such a template, possibly with one dangling placeholder, so the statement above covers all inputs |
| Grouping.GroupingIsExact | src/log/sink/loki.rs:87-124 | keys strictly increase, each group is the input filtered by its key in order, and no key is missing |
| Grouping.KeyOrders | src/log/sink/loki.rs:89-89 | the orders of metric names and of label sets are strict total orders |
| OtlpRequest.BuildSliceRequest | src/forwarder/otlphttp.rs:327-365 | metric names strictly increase, each carries one data point per metric of that name in order, with its labels, value and timestamp (0 before the epoch, modulo 2^64), none is missing, the first metric of a name decides the kind, and every metric of a name keeps its kind in the export exactly when the name has one kind in the batch |
| OtlpRequest.KindKeptIffUniform | src/forwarder/otlphttp.rs:339-358 | the exported group of a name has the kind of every metric of that name exactly when they all have one kind |
| LokiBody.BuildStreams | src/log/sink/loki.rs:87-124 | one stream per label set in order, holding its entries in arrival order, each with seconds and nanoseconds that make up its timestamp (0 before the epoch), its message and its metadata; no two have the same label string if their names are free of `="` |
| LokiBody.StreamsStayApart | src/log/sink/loki.rs:117-124 | the label strings of strictly increasing label sets are pairwise different |

## Left out

- PositionToStart: takes both starts at the tail to be after the last entry, though the original steps back one entry when it has no cursor (`src/log/source/journald.rs:133-137`) and does not when the cursor is not found (`118-121`).
- NothingSkippedIff: an entry counts as resolved when the shipper has seen the verdict; a request the sink took without the verdict arriving is sent again.
- JournaldSource.constructor: assumes `batch_size >= 1`, which the configuration does not check; `FreshFillProgress` says what happens otherwise.
- PeekBatch: does not model a caller that still holds the batch, where the original returns it unchanged; nor a source that is exhausted.
- SubmittedWithinSoftDeadline: assumes timers that fire on time, time that only moves forward, and reports only from collectors in flight.
- EveryTickServed: makes the same assumptions about time as SubmittedWithinSoftDeadline.
- StartsOnGrid: makes the same assumptions about time as SubmittedWithinSoftDeadline.
- NoBursts: assumes intervals greater than zero; with a zero interval the catch-up loop does not end.
- BufferOverRuns: a panic while a request is out, which would lose the popped batches, is not modelled.
- RequestsCarryHalf: takes `batch_size` to fit the 64 bits of the original's `usize`.
- SplittingIsLogarithmic: the counters are unbounded here; the original's `u32` counters only feed a log line.
- LabelStringInjective: one way only; a set with a name that contains `="` need not collide with another.
- HTTP, TLS, authentication, compression and protobuf encoding: a send is one verdict.
- libsystemd, epoll and inotify: the journal is a sequence with a read position; writing and renaming the cursor file is one step. A cursor file of white space only is read as no cursor in the original.
- Mapping journal fields to labels and metadata, the Unix and Prometheus collectors, name interning, byte-size and duration parsing, the command line, log formatting and error-body summaries: shallow branching over finite tables, no state that lasts between calls.
- Floating-point sample values: kept as uninterpreted bits.
- Task panics, mutex poisoning and channel capacity: a report is received when the scheduler takes it from the channel.
