# Eden logger: verification of the exporter, the sink registry and the printers

This project models the parts of the Eden logger where correctness depends on the order of
steps, on exact sizes, or on a printer and a reader agreeing, and proves properties of them.

**One exporter generation** (`Exporter.dfy` and the `Exporter*` modules) is a step machine.
Any number of logging threads, the worker, any number of `force_flush` callers and the handle
that stops the generation take turns in any order. A step is one atomic operation, one critical
section, or a stretch of one actor's private computation. `ProducerStep` follows
`collector.rs:181-254` and `lib.rs:646-668`: the `accepting` test, lane look-up and
registration, the four optimistic claims with their rollbacks, the ticket, the push, the
wake-up, the return. `WorkerStep` follows `worker.rs:98-248` and `291-392`: refresh (retire,
swap lane by lane, interleave), `receive` and `try_receive`, batch assembly, the segment stack
with the collector's answer as an oracle, completion ticket by ticket, the clean exit and the
terminal branch. `FlushStep` follows `lib.rs:458-497`; `HandleStep` follows `stop_acceptance`,
`replace`, `disable`, the producer fence and the timed-out branch of `drain_generation`, whose abort,
four stores of zero, status and wake-up are steps of their own
(`lib.rs:365-373`, `504-545`, `672-737`). `ExporterRuns.dfy` holds the main results, each for
every schedule. Its invariant is proved in the modules it imports: shape of lanes and fence,
the account of records, flush progress, budgets, wake-ups, conservation, shutdown, order, limits.
`ExporterStop.dfy` and `ExporterProgress.dfy` prove that a shutdown completes, over infinite runs.
`ExporterQuiescence.dfy` proves that the fence falls under fair threads, so that nothing about it
need be assumed, and `ExporterFlushing.dfy` that a flush returns. `ExporterReset.dfy` and `ExporterUnderflow.dfy` say exactly when a timed-out
shutdown, store by store, can take a counter below zero.
`ExporterRaces.dfy` holds concrete runs in which an expected promise fails.
The state carries a history that no step reads: records in ticket, completion and sending order, and
the collector's answers. `ExporterAnswers.dfy` proves over it that only answers complete and count
records. `ExporterAdmission.dfy`, `ExporterReports.dfy` and `ExporterChoices.dfy` say of single
steps what the code decides there: by the configured limits, by what a flush caller reads, by the
worker's inbox, batch, permits and fence.

**Sequential kernels**: the completion watermark (`Watermark`), lane draining and its
interleaving (`Drain`, `Lanes`), the request size predictor against a modelled protobuf encoder
(`Sizing`, `Protobuf`), greedy batching (`Batching`), and delivery by bisection (`Bisection`).
The machine and the kernels share their specification functions: `AfterOne`, `Interleave`,
`Rotated`, `Split`, `TopDown`, `RecordsLen`, and the account of answers in `Replies`.

**The sink registry** (`SinkRegistry`) and **the printers and their inverses**: JSON log lines
(`JsonText`, `JsonLine`, `LineHead`), RFC 3339 timestamps and their cache (`Timestamp`, `Digits`),
hexadecimal ids (`HexIds`) and the mapping to exported attributes (`Mapper`).

## Assumptions about the environment

- Atomics are sequentially consistent.
- A Tokio `Notify` keeps at most one permit for `notify_one`; `notify_waiters` reaches exactly
  the waiters that are enabled. Where a biased `select!` would prefer one branch, the model
  allows every ready branch, so its runs include all real ones. Only `ShutdownCompletes` relies
  on the bias, and on a scheduler that keeps polling the worker.
- An `arc_swap` guard keeps a callback alive until the dispatch that loaded it returns; hence
  the fence falls with the last of: registry slot, registration, running dispatches.
- The handle is one actor: `shutdown` and `reconfigure` own it, so stopping acceptance, letting go
  of the sink and aborting the worker happen in program order. Flush callers may overlap with
  all of it, which the borrow rules of the handle would exclude; nothing proved relies on that.
- The OTLP client answers anything, as long as accepted and rejected add up to the request.
- Fewer than 2^64 tickets are drawn. Counters are integers; that they stay within 64 bits is
  proved, under the stated bound on threads and capacity.

## Where the code does less than one would expect

Each of these is kept as coded, with a concrete run or value, and with the exact condition.

- `worker.rs:135-139` looks for records before it reads `producers_closed`. A record pushed
  between the two is left behind while the report says 0 (`CleanExitLosesLatecomer`). The report
  is right if and only if both depth counters are zero at the exit (`CleanExitCount`). In the
  other order nothing is ever left: that is the `seenClosed` clause of `CleanExit`.
- `worker.rs:224-230` does not count the record parked in `pending`
  (`TerminalExitMissesParked`). The report is right if and only if none is parked
  (`TerminalExitCount`).
- `worker.rs:386-392` sets `TerminalFailure` without waking flush callers
  (`FailureWakesNobody`). A sleeping, un-notified caller that could return is about to be woken
  if and only if the status is not `TerminalFailure`, or the handle has aborted the worker and
  is going to wake everybody (`FlushCallerIsWoken`).
- `lib.rs:731-737` zeroes the four counters one after the other and without waiting for the fence.
  A rollback after that takes one below zero (`ResetUnderflows`), even of a claim made after the
  first of the stores (`StoresAreInterrupted`). The exact condition (`ResetUnderflowsIff`) is about
  the moment of the abort: a thread is rolling something back; or what a counter shows and what
  the threads still on their way to it will claim is together more than the capacity. A record
  too large for the normal queue, if of priority, is on its way to the reserved one. The
  condition is necessary whatever the capacities. It is sufficient for capacities that
  `ExporterConfig::validate` accepts, unless a budget of 2^63 or more is exceeded: there claims
  are not optimistic. With no thread on its way to a claim, between claims or rolling one back,
  the reset is harmless (`ResetIsHarmless`).
- `schema.rs:708` writes each byte of a non-ASCII character as a character of its own once
  anything in the text needs escaping (`NonAsciiIsWidened`). Text comes back unchanged if and
  only if it is ASCII or has no control character, quote or backslash (`RoundTripIffAscii`, `LineKeepsMeaningIffSafe`).

## Model

| member | source | states |
|---|---|---|
| ExporterRuns.StepKeepsInv | crates/eden_logger_export/src/worker.rs:98-248 | every enabled step of every actor keeps the whole invariant: lanes, fence, account of records, flush progress, budgets, wake-ups, order |
| ExporterRuns.EachRecordOnce | crates/eden_logger_export/src/collector.rs:249-252 | in every reachable state in which the worker has not been aborted, each accepted record is in exactly one of: a thread's hands, a lane, the worker's hands, completed, cleared; no other record is anywhere |
| ExporterRuns.ExactFlush | crates/eden_logger_export/src/lib.rs:456-473 | whatever happens between a flush call and its `Flushed` report, every record accepted before the call is completed by then |
| ExporterAnswers.FlushedMeansAnswered | crates/eden_logger_export/src/lib.rs:456-473 | when it reports `Flushed`, the collector has accepted a request with each of those records, or refused that record alone, or no request can carry it |
| ExporterAnswers.CompletedWasAnswered | crates/eden_logger_export/src/worker.rs:323-373 | no record is completed in any reachable state but by such an answer |
| ExporterAnswers.CountersAreAnswers | crates/eden_logger_export/src/worker.rs:328-349 | `exported` is what the answers accepted and did not reject, `rejected` what they rejected, plus single refusals and oversize records |
| ExporterAnswers.SettledInSendingOrder | crates/eden_logger_export/src/worker.rs:321-378 | requests are settled in the order of first transmission, through bisection and retries; what is not settled is what is still to be sent |
| ExporterAnswers.NextRequestFollows | crates/eden_logger_export/src/worker.rs:345-373 | in every run, a retry is followed by a request with the same records, a refused payload of several by one with its first half, a permanent error by none |
| ExporterAnswers.RetrySendsAgain | crates/eden_logger_export/src/worker.rs:354-369 | a retryable answer counts and completes nothing, shows `BackingOff`, and the worker then stands before sending the same request |
| ExporterAnswers.OnlyAnswersAreNoted | crates/eden_logger_export/src/worker.rs:327-373 | the history of answers grows exactly by what the collector says to the request that was sent |
| ExporterRuns.FlushCallerIsWoken | crates/eden_logger_export/src/lib.rs:461-487 | an un-notified sleeping caller that could return (target completed, `Stopped`, or `TerminalFailure`) is about to be woken iff the status is not `TerminalFailure`, or the handle has aborted the worker and will wake everybody |
| ExporterRuns.NoLostWakeup | crates/eden_logger_export/src/worker.rs:291-302 | while the worker sleeps on `records`, a non-empty lane means a stored permit or a producer about to notify; a signalled fence means a stored permit |
| ExporterChoices.FreshGeneration | crates/eden_logger_export/src/lib.rs:605-632 | a fresh generation accepts records, with nothing queued, claimed, counted or stored |
| ExporterChoices.ReservedFirst | crates/eden_logger_export/src/worker.rs:78-80 | the next record is the oldest reserved one, and a normal one only without |
| ExporterChoices.RefreshIff | crates/eden_logger_export/src/worker.rs:115-118 | the lanes are looked into at every batch boundary, and otherwise iff the inbox is used up |
| ExporterChoices.ParkedFirst | crates/eden_logger_export/src/worker.rs:119-131 | a parked record starts the next batch, and only without one does the worker receive |
| ExporterChoices.ReceivedGoesOn | crates/eden_logger_export/src/worker.rs:133-138 | what is received joins the batch under assembly or starts one, except that the last look of a shutdown parks it |
| ExporterChoices.EmptyHanded | crates/eden_logger_export/src/worker.rs:165-189 | a receive that finds nothing makes the worker wait, unless it is shutting down or looking for the last time |
| ExporterChoices.FillsFrom | crates/eden_logger_export/src/worker.rs:165-172 | a batch that is not full is filled from the parked record first, then from the inbox |
| ExporterChoices.ClosedIff | crates/eden_logger_export/src/worker.rs:165-203 | a batch is closed iff it is full, the next record does not fit beside it, nothing more is found in a shutdown or after a wake-up, or timer, flush or shutdown end the wait; it is exported as it stands |
| ExporterChoices.JoinsIff | crates/eden_logger_export/src/worker.rs:190-202 | a record joins the batch iff it fits alone and beside it, is parked iff it fits only alone, and is rejected iff it fits no request |
| ExporterChoices.WakesByPermit | crates/eden_logger_export/src/worker.rs:173-184 | a waiting worker goes on by using up exactly the permit that woke it, which decides what it does next |
| ExporterChoices.WaitEndsBy | crates/eden_logger_export/src/worker.rs:173-184 | each wait can be ended in these ways and no other |
| ExporterChoices.ShowsStatus | crates/eden_logger_export/src/worker.rs:207-214 | which step shows which status; no other step changes it |
| ExporterChoices.PublishesIff | crates/eden_logger_export/src/worker.rs:49-59 | a completion publishes the watermark and then wakes all enabled callers iff its ticket lies above it |
| ExporterChoices.FenceDecides | crates/eden_logger_export/src/worker.rs:139-150 | the worker leaves cleanly iff it reads the fence as closed, and a failed one discards nothing before |
| ExporterChoices.FailureWaits | crates/eden_logger_export/src/worker.rs:218-223 | a failed worker waits for shutdown unless acceptance is stopped, using up the permit it waited for |
| ExporterChoices.StopStores | crates/eden_logger_export/src/lib.rs:672-682 | the operations of `stop_acceptance`, one by one, and that the status is overwritten unless read as `Stopped` |
| ExporterChoices.HandleMovesIff | crates/eden_logger_export/src/lib.rs:672-712 | when the handle can take which of its steps |
| ExporterChoices.ReleaseKeepsRunning | crates/eden_logger_export/src/lib.rs:504-522 | emptying the slot, letting go of the registration and the stores of the fence change nothing else: `replace` does not stop acceptance |
| ExporterChoices.ResetStores | crates/eden_logger_export/src/lib.rs:714-737 | the reset after an abort, store by store: the four zeros, `Stopped`, the wake-up of every enabled caller |
| ExporterChoices.ClearDiscards | crates/eden_logger_export/src/worker.rs:228-240 | the terminal branch leaves every lane, the registry, the inbox and the counters empty, and the parked record alone |
| ExporterRuns.AdmissionIsBounded | crates/eden_logger_export/src/collector.rs:358-394 | up to a reset, what is granted on each budget fits its capacity, the counter is granted plus awaiting rollback, and it stays within 64 bits |
| ExporterAdmission.GrantedWithinLimits | crates/eden_logger_export/src/collector.rs:220-236 | up to a reset, each of the four amounts granted is within the limit configured under its own name |
| ExporterAdmission.NormalSlotIff | crates/eden_logger_export/src/collector.rs:220-228 | a slot of the normal queue is granted iff the normal depth plus one is within the normal capacity; only that counter moves |
| ExporterAdmission.ReservedSlotIff | crates/eden_logger_export/src/collector.rs:232-238 | the same for the reserved queue |
| ExporterAdmission.NormalBytesIff | crates/eden_logger_export/src/collector.rs:222-228 | bytes of the normal queue are granted iff they fit beside the normal bytes within the normal byte capacity |
| ExporterAdmission.ReservedBytesIff | crates/eden_logger_export/src/collector.rs:232-238 | the same for the reserved queue |
| ExporterAdmission.ReservedIsForPriority | crates/eden_logger_export/src/collector.rs:231-242 | in every reachable state only priority records are trying, or holding, a claim on the reserved queue |
| ExporterAdmission.RefusedTriesReserved | crates/eden_logger_export/src/collector.rs:229-247 | a submission moves from the normal to the reserved queue only if of priority, and gives up only after the reserved queue or without priority |
| ExporterAdmission.SubmissionStarts | crates/eden_logger_export/src/lib.rs:646-659 | a submission starts only while records are accepted, and with the normal queue |
| ExporterAdmission.LaneIsRegistered | crates/eden_logger_export/src/collector.rs:183-218 | the first record of a thread registers an open, empty lane of its own behind all others, and later ones use it |
| ExporterAdmission.AcceptedIsPushed | crates/eden_logger_export/src/collector.rs:249-253 | an accepted record carries the drafted sizes and the next ticket to the end of its own queue, and wakes the worker iff the lane was empty |
| ExporterAdmission.ExitClosesLane | crates/eden_logger_export/src/collector.rs:133-142 | a thread that exits closes its lane, keeps what is in it, and wakes the worker |
| ExporterAdmission.ThreadMovesIff | crates/eden_logger_export/src/collector.rs:181-218 | a thread waits for nothing but the registry lock, and that only to register its lane |
| ExporterRuns.ReleaseNeverUnderflows | crates/eden_logger_export/src/collector.rs:293-305 | the counters cover what `release` is about to subtract |
| ExporterRuns.FenceMeansQuiescence | crates/eden_logger_export/src/lib.rs:361-373 | once `producers_closed` is set no callback runs or can start, and over any continuation nothing is accepted and no lane gains a record |
| ExporterRuns.SubmittedLaneIsRegistered | crates/eden_logger_export/src/collector.rs:206-209 | the lane pointer that a submission uses belongs to an open lane still in the registry |
| ExporterRuns.ClearIsQuiescent | crates/eden_logger_export/src/worker.rs:221-239 | `clear` and both exits happen with the fence closed and no thread inside the callback |
| ExporterRuns.CleanExit | crates/eden_logger_export/src/worker.rs:133-150 | at a clean exit a record is completed or in a lane; the completed ones are exactly those pushed before the last refresh began; if the fence was closed before it, all |
| ExporterRuns.CleanExitCount | crates/eden_logger_export/src/worker.rs:139-149 | the records left behind are exactly what the depth counters show, so `remaining_records: 0` is true iff both are zero |
| ExporterRuns.TerminalExitCount | crates/eden_logger_export/src/worker.rs:215-245 | the terminal report is short by exactly the parked record, of which there is at most one |
| ExporterRuns.LoopHeadConservation | crates/eden_logger_export/src/worker.rs:115-213 | accepted plus claimed slots equals exported plus rejected plus both depths plus parked, at every start of the loop; oversize is within rejected |
| ExporterRuns.ResetBehindFence | crates/eden_logger_export/src/lib.rs:714-737 | if the fence was closed at the abort, all counters are zero for good once the four stores are done |
| ExporterRuns.SentOrder | crates/eden_logger_export/src/worker.rs:165-203 | records of one thread and one queue kind are first sent in increasing ticket order |
| ExporterRuns.EveryRequestFits | crates/eden_logger_export/src/worker.rs:188-202 | every request ever sent, bisected or not, encodes to at most the configured bytes and stays within the record limit |
| ExporterProgress.ShutdownCompletes | crates/eden_logger_export/src/lib.rs:672-712 | in any infinite run with a fair scheduler: once `stop_acceptance` has returned, the fence has signalled and the collector stops asking for retries, the worker returns; if cleanly, and its last look began later, with every record completed |
| ExporterQuiescence.ShutdownCompletesUnaided | crates/eden_logger_export/src/lib.rs:524-530 | from the return of `stop_acceptance` and the release of the sink alone, if threads, destructor and worker are scheduled fairly and retries end, the worker returns; from some step on, after the fence's signal, a clean return whose last look had not begun by then has every record completed |
| ExporterFlushing.FlushReturns | crates/eden_logger_export/src/lib.rs:458-497 | once submissions and retries have ended, a flush caller whose deadline does not pass is answered, unless the worker fails or finishes first |
| ExporterReports.ReportIsJustified | crates/eden_logger_export/src/lib.rs:466-496 | each report names what was read in its step: a completed target, `TerminalFailure` or `Stopped` with an open one, or a passed deadline; the completed ticket is the one read, the target that of the call |
| ExporterReports.ReadingDecides | crates/eden_logger_export/src/lib.rs:466-487 | conversely a caller that reads a completed target or a final status gets exactly that report at once, and sleeps only otherwise |
| ExporterReports.CallWakesThenWaits | crates/eden_logger_export/src/lib.rs:459-465 | the flush permit is stored before the caller registers, and it registers before it looks |
| ExporterReports.CallerMovesIff | crates/eden_logger_export/src/lib.rs:461-487 | a caller waits for nothing but a notification or its deadline |
| ExporterFlushing.WorkerCatchesUp | crates/eden_logger_export/src/worker.rs:115-213 | by then the worker has completed and published every accepted record, permits and lanes notwithstanding |
| ExporterQuiescence.FenceSignals | crates/eden_logger_export/src/lib.rs:361-373 | once slot and registration are let go, under fair threads the fence closes and notifies the worker |
| ExporterQuiescence.StepAdvances | crates/eden_logger_export/src/collector.rs:181-254 | every step of a thread inside the callback brings it closer to the way out, and nothing takes it further from it |
| ExporterProgress.ShutdownNeverStuck | crates/eden_logger_export/src/worker.rs:133-139 | after `stop_acceptance` and the fence's signal, the worker cannot move iff it has returned or was aborted |
| ExporterProgress.WorkerAdvances | crates/eden_logger_export/src/worker.rs:115-248 | behind the fence each worker step other than a retry lowers a six-part rank |
| ExporterProgress.OthersKeepRank | crates/eden_logger_export/src/lib.rs:365-373 | behind the fence no other actor raises that rank |
| ExporterStop.StepKeepsStop | crates/eden_logger_export/src/lib.rs:672-682 | no step of any actor loses the shutdown request: it is a stored permit until the worker knows |
| ExporterStop.BlockedIffFinishedOrAsleep | crates/eden_logger_export/src/worker.rs:296-299 | the worker cannot move iff it has finished or sleeps without a permit |
| ExporterRaces.CleanExitLosesLatecomer | crates/eden_logger_export/src/worker.rs:135-149 | a run that exits cleanly with an accepted, uncompleted record |
| ExporterRaces.TerminalExitMissesParked | crates/eden_logger_export/src/worker.rs:197-230 | a run with two records accepted, none completed, and one reported |
| ExporterRaces.FailureWakesNobody | crates/eden_logger_export/src/worker.rs:386-392 | a run to `TerminalFailure` in which the flush caller sleeps un-notified and the worker cannot move: the failing side of `FlushCallerIsWoken` occurs |
| ExporterRaces.ResetUnderflows | crates/eden_logger_export/src/lib.rs:524-530 | a whole `shutdown` whose deadline passes while a thread is about to roll back: a byte counter ends at -1 |
| ExporterRaces.StoresAreInterrupted | crates/eden_logger_export/src/lib.rs:731-737 | no thread has anything to roll back at the abort; one over-claims after the first store of zero, and its rollback leaves -1 |
| ExporterUnderflow.ResetUnderflowsIff | crates/eden_logger_export/src/lib.rs:714-737 | however abort, stores and threads interleave, some run takes a counter below zero iff at the abort a thread is rolling back, or counter plus what is on its way exceeds a capacity; for validated capacities, and none of 2^63 or more exceeded |
| ExporterUnderflow.UnderflowNeedsDanger | crates/eden_logger_export/src/collector.rs:220-247 | that condition is necessary in every continuation of every abort, for all capacities |
| ExporterUnderflow.DangerGoesBelow | crates/eden_logger_export/src/collector.rs:358-394 | it is sufficient: a run to below zero is built from it |
| ExporterUnderflow.NormalUnderflowsIff | crates/eden_logger_export/src/lib.rs:731-737 | the exact condition for the counters of the normal queue alone |
| ExporterUnderflow.ResetIsHarmless | crates/eden_logger_export/src/lib.rs:731-737 | fence closed or not, no counter goes below zero if no thread is on its way to a claim, between claims or rolling back |
| ExporterReset.StepKeepsSafe | crates/eden_logger_export/src/collector.rs:358-394 | after the abort no step of a thread and no store of zero endangers a counter that is not endangered |
| ExporterShape.RetireCheckKeepsRegistry | crates/eden_logger_export/src/collector.rs:89-91 | retiring a lane found closed and then empty never drops a lane that holds or can receive a record |
| ExporterChoices.RetiredIff | crates/eden_logger_export/src/collector.rs:265 | a lane leaves the registry iff it was read as closed and then found empty; the others keep their order |
| ExporterChoices.VisitsFromCursor | crates/eden_logger_export/src/collector.rs:274-278 | all registered lanes are visited from the cursor on and around, and the cursor moves by one |
| ExporterChoices.TakesWholeLanes | crates/eden_logger_export/src/collector.rs:284-286 | a visited lane is swapped out whole; what was taken goes, interleaved, behind what the inbox holds |
| ExporterRaces.SwappedCheckDropsRecord | crates/eden_logger_export/src/collector.rs:89-91 | with the two reads of the retirement check swapped, a run in which a lane that holds an accepted record passes the check |
| ExporterTickets.StepKeepsAccount | crates/eden_logger_export/src/collector.rs:249-252 | every step moves records between places without losing or duplicating one |
| ExporterTickets.DiscardKeepsAccount | crates/eden_logger_export/src/collector.rs:313-333 | `clear` discards lanes and inbox and nothing else |
| ExporterFlush.StepKeepsFlush | crates/eden_logger_export/src/lib.rs:458-487 | the published watermark follows the completed tickets and every caller's knowledge of it is sound |
| ExporterBudgets.ClaimVerdict | crates/eden_logger_export/src/collector.rs:369-389 | a claim is granted iff it fits what is unused; of the others, those that fit the capacity are over-claims iff the capacity is below 2^63, and refused at once otherwise |
| ExporterBudgets.StepKeepsBudgets | crates/eden_logger_export/src/collector.rs:220-254 | no step breaks any of the four budgets |
| ExporterWake.PushIsAttended | crates/eden_logger_export/src/collector.rs:79-87 | notifying only on the push that finds both queues empty suffices |
| ExporterConservation.TicketsAddUp | crates/eden_logger_export/src/worker.rs:154-230 | the last ticket is the number of records over all places |
| ExporterShutdown.CleanExitLeavesOnlyLatecomers | crates/eden_logger_export/src/worker.rs:133-142 | the last refresh finds every record that was in a lane when it began |
| ExporterLimits.SentRequestFits | crates/eden_logger_export/src/worker.rs:271-275 | the size test on a batch bounds the bytes of the real encoding |
| Watermark.CompletionTracker.Complete | crates/eden_logger_export/src/worker.rs:49-59 | one completion adds exactly that ticket; progress is published and waiters woken exactly when it was not below the watermark |
| Watermark.CompletionTracker.CompleteAll | crates/eden_logger_export/src/worker.rs:61-65 | all tickets of a segment are completed and the published value never decreases |
| Watermark.WatermarkIsGreatest | crates/eden_logger_export/src/worker.rs:49-59 | for any completions in any order, the watermark is the greatest contiguous ticket and the parked set is exactly what lies above it |
| Watermark.OrderIsIrrelevant | crates/eden_logger_export/src/worker.rs:49-59 | the tracker depends only on which tickets were completed |
| Drain.DrainBatches | crates/eden_logger_export/src/collector.rs:396-412 | the nested loop appends exactly the pass-by-pass interleaving and empties every queue of the kind |
| Drain.InterleaveIsPermutation | crates/eden_logger_export/src/collector.rs:396-412 | nothing is lost or added |
| Drain.InterleaveAt | crates/eden_logger_export/src/collector.rs:396-412 | each record comes out at its computed position |
| Drain.NoLaneStarves | crates/eden_logger_export/src/collector.rs:256-259 | fewer than 64n(k/64 + 1) records precede record k of any of n lanes |
| Drain.FirstTurn | crates/eden_logger_export/src/collector.rs:396-412 | the first lane contributes 64 records before the second gets its turn, and no more |
| Drain.RotatedAt | crates/eden_logger_export/src/collector.rs:275-278 | the k-th lane visited is the one k places after the cursor, around the end |
| Drain.LaneIsFifo | crates/eden_logger_export/src/collector.rs:396-412 | each lane leaves in its own order |
| Drain.VisitOrder | crates/eden_logger_export/src/collector.rs:275-278 | the index arithmetic visits the lanes from the cursor on and around |
| Drain.RotationIsPermutation | crates/eden_logger_export/src/collector.rs:275-278 | each lane is visited exactly once in a drain |
| Drain.EachLaneLeadsOnce | crates/eden_logger_export/src/collector.rs:275-277 | in any n drains over n lanes each lane goes first exactly once |
| Lanes.ProducerLane.Push | crates/eden_logger_export/src/collector.rs:79-87 | appends to the record's queue and reports whether both queues were empty |
| Lanes.ProducerLane.Take | crates/eden_logger_export/src/collector.rs:93-97 | hands over both queues and leaves the lane empty |
| Lanes.ProducerLane.Recycle | crates/eden_logger_export/src/collector.rs:103-109 | keeps one spare, which is empty |
| Lanes.LaneRegistry.DrainInto | crates/eden_logger_export/src/collector.rs:260-291 | drops closed empty lanes, rotates the rest, appends their interleaving, leaves them empty |
| Lanes.RetainedInOrder | crates/eden_logger_export/src/collector.rs:265 | the lanes that a drain keeps stay in their order |
| Lanes.WorkerInput.TryReceive | crates/eden_logger_export/src/worker.rs:304-311 | takes the oldest inbox record, reserved first; with an empty inbox, the first of the interleaving of the lanes in visiting order, of which the rest stays pending; answers nothing only if every lane was empty |
| Protobuf.VarintRoundTrip | crates/eden_logger_export/src/worker.rs:282-289 | Base 128 varints decode to what was encoded |
| Protobuf.RequestRoundTrip | crates/eden_logger_export/src/worker.rs:327 | the three-level request encoding is decodable |
| Protobuf.WireNumbers | crates/eden_logger_export/src/worker.rs:327 | the messages at the three levels carry their fields, in order, under field numbers 1, 1 and 2, 1 and 2, as length-delimited records |
| Sizing.VarintLen | crates/eden_logger_export/src/worker.rs:282-289 | the length of the encoding: the least k >= 1 with value < 128^k |
| Sizing.PredictionIsExact | crates/eden_logger_export/src/worker.rs:257-280 | the predicted size is the length of the real encoding, capped at the machine word |
| Sizing.EncodedLenMonotone | crates/eden_logger_export/src/worker.rs:271-275 | less payload never predicts more, across nested length prefixes |
| Sizing.PieceFits | crates/eden_logger_export/src/worker.rs:380-384 | a contiguous piece of a request that fits, fits |
| Batching.Assemble | crates/eden_logger_export/src/worker.rs:154-203 | a batch is the longest whose predicted size is within the limit: order kept, records too large on their own refused, at most one parked, and with that one the prediction would exceed the limit |
| Batching.Fill | crates/eden_logger_export/src/worker.rs:161-203 | the running byte total equals the recomputed one |
| Bisection.Deliver | crates/eden_logger_export/src/worker.rs:325-373 | repeats a request exactly as long as it is told to |
| Bisection.SplitRecords | crates/eden_logger_export/src/worker.rs:380-384 | splitting keeps the order in which records leave the stack |
| Bisection.ExportBatch | crates/eden_logger_export/src/worker.rs:313-378 | every answer in the report is what the collector said to that request; exported and rejected are their sums, for any collector; completed records plus the retained stack are the batch, in order, with at most 2n-1 requests besides retries; if the verdicts refuse exactly the requests with a poison record, exactly the poison records among the completed are rejected, within 1 + 2p ceil(log2 n) requests besides retries |
| Bisection.HeardAt | crates/eden_logger_export/src/worker.rs:325-370 | the i-th answer in a report is what the collector said at the last attempt at that request, after nothing but retries |
| Bisection.RequestBound | crates/eden_logger_export/src/worker.rs:345-352 | the request bound for any set of poison records |
| SinkRegistry.Registry.Register | crates/eden_logger/src/sink.rs:114-139 | succeeds exactly when the type has no active callback, and then becomes it; other types unaffected |
| SinkRegistry.Registry.Install | crates/eden_logger/src/sink.rs:147-155 | succeeds exactly when the type has no active callback; the new one is then permanent, its registration being the one forgotten |
| SinkRegistry.Registry.PermanentIsOutOfReach | crates/eden_logger/src/sink.rs:142-155 | every registration of a permanent callback's type that anybody still holds is inactive |
| SinkRegistry.Registry.Replace | crates/eden_logger/src/sink.rs:65-79 | an active registration always succeeds: the stale answer cannot occur |
| SinkRegistry.Registry.Disable | crates/eden_logger/src/sink.rs:85-101 | true exactly for an active registration, whose type then has no callback |
| SinkRegistry.Registry.CachedSink | crates/eden_logger/src/sink.rs:183-201 | the cached pointer always agrees with the registry |
| SinkRegistry.Registry.Dispatch | crates/eden_logger/src/sink.rs:165-180 | calls the current callback of the type or nothing, fast path and cache included |
| SinkRegistry.Registry.CountIsOccupied | crates/eden_logger/src/sink.rs:31-32 | the active count is the number of occupied slots, so zero means no sink |
| JsonText.EscapedReadsBack | crates/eden_logger/src/schema.rs:684-711 | whatever is written for a text is a piece of a JSON string, fast and slow path alike |
| JsonText.NeedsEscapeIffNotPlain | crates/eden_logger/src/schema.rs:687-692 | the test on bytes is a test on characters: a control character, a quote or a backslash |
| JsonText.Utf8IsInvertible | crates/eden_logger/src/schema.rs:687 | the modelled bytes of a text are its UTF-8 encoding, from which each character can be read back |
| JsonText.EscapesAreShort | crates/eden_logger/src/schema.rs:694-710 | exactly the special bytes are escaped, with two characters where JSON has such an escape, and in lower case |
| JsonText.RoundTripIffAscii | crates/eden_logger/src/schema.rs:684-711 | a text comes back unchanged iff it is ASCII or contains no control character, quote or backslash |
| JsonText.NonAsciiIsWidened | crates/eden_logger/src/schema.rs:708 | a text that comes back as another one |
| JsonText.EscapeDistributes | crates/eden_logger/src/schema.rs:713-726 | escaping in pieces equals escaping the whole iff no non-ASCII piece without such characters stands beside one with them |
| JsonLine.WriteEscaped | crates/eden_logger/src/schema.rs:684-711 | the loop appends the specified escaping |
| JsonLine.JsonFieldWriter.WriteStr | crates/eden_logger/src/schema.rs:514-520 | appends one member with a string value |
| JsonLine.JsonFieldWriter.WriteNumber | crates/eden_logger/src/schema.rs:523-538 | appends one member with an integer value |
| JsonLine.JsonFieldWriter.WriteBool | crates/eden_logger/src/schema.rs:541-546 | appends one member with a truth value |
| JsonLine.JsonFieldWriter.WriteDisplay | crates/eden_logger/src/schema.rs:549-557 | appends one member, escaping chunk by chunk |
| JsonLine.WriteJsonDirect | crates/eden_logger/src/schema.rs:761-841 | appends the line of all members in the documented order |
| JsonLine.LineReadsBack | crates/eden_logger/src/schema.rs:761-841 | every line is one JSON object whose members are those written, in order |
| JsonLine.LineIsOneLine | crates/eden_logger/src/schema.rs:761-841 | whatever is logged, the line contains no line break or other control character |
| JsonLine.FieldsUnderTheirKeys | crates/eden_logger/src/schema.rs:773-838 | a reader finds every field of the record under its own key |
| JsonLine.LineKeepsMeaningIffSafe | crates/eden_logger/src/schema.rs:761-841 | it carries exactly the logged keys and values iff every text and chunk is ASCII or free of control characters, quotes and backslashes |
| LineHead.HeadIsPlain | crates/eden_logger/src/schema.rs:773-779 | timestamp, level and audience names need no escaping, so every line written has the plain head that the line laws ask for |
| LineHead.HeadIsRead | crates/eden_logger/src/schema.rs:32-40 | a reader can tell level and audience from the line, by their names |
| JsonLine.ChunkingIsInvisible | crates/eden_logger/src/schema.rs:717-735 | however ASCII output is cut into chunks, it is written the same |
| Timestamp.WriteTimestamp | crates/eden_logger/src/schema.rs:566-630 | the field-by-field padding appends the specified text, for any year and leap seconds too |
| Timestamp.ReadsBackIffExpressible | crates/eden_logger/src/schema.rs:566-630 | parsing gives the instant back iff its year is 0 to 9999 and millis are below 1000; the text then has 24 characters |
| Timestamp.SortsChronologically | crates/eden_logger/src/schema.rs:560-565 | such texts sort as their instants |
| Timestamp.DigitCountIsWidth | crates/eden_logger/src/schema.rs:670-677 | the digit count is the width of the numeral, for years of up to four digits |
| Timestamp.TimestampCache.WriteNowCached | crates/eden_logger/src/schema.rs:650-667 | one call updates the cache and appends as specified |
| Timestamp.CacheIsTransparent | crates/eden_logger/src/schema.rs:632-667 | over any history of calls the cached writer appends what the uncached one would iff calls in one millisecond have one text and the first is not at the sentinel |
| Timestamp.CacheIsTransparentForClock | crates/eden_logger/src/schema.rs:650-667 | for what the system clock returns (no leap second, text following the millisecond, later than the sentinel) the cache is never observable |
| Timestamp.LeapSecondShows | crates/eden_logger/src/schema.rs:632-667 | the condition is not idle: for two representable instants of one millisecond count, one within a leap second, the second is written as the first |
| HexIds.HexEncode | crates/eden_logger/src/trace.rs:55-73 | fills the buffer with two lower-case digits for each byte |
| HexIds.DecodeHexId | crates/eden_logger_export/src/mapper.rs:94-107 | accepts exactly texts of the right length, digits throughout, not all zero |
| HexIds.DecodesIff | crates/eden_logger_export/src/mapper.rs:94-116 | an id is decoded iff the text has the right length, consists of hexadecimal digits of either case, and is not all zeros |
| HexIds.DecodeOfEncode | crates/eden_logger_export/src/mapper.rs:94-107 | decoding an encoded id gives it back iff it is not all zero |
| HexIds.EncodeOfDecode | crates/eden_logger_export/src/mapper.rs:109-116 | what is decoded stands for the same text, in lower case |
| Mapper.MapWithAttributes | crates/eden_logger_export/src/mapper.rs:21-77 | each attribute is what the highest layer that mentions its key says last |
| Mapper.FieldsUnderTheirKeys | crates/eden_logger_export/src/mapper.rs:41-49 | each field of the record is exported under its own key, whatever the other layers say |
| Mapper.RequestFieldIsCarried | crates/eden_logger_export/src/mapper.rs:146-163 | a request field that nothing overrides keeps its value; an unsigned number beyond a signed 64-bit integer becomes its numeral |
| Mapper.TraceIdIsCarried | crates/eden_logger_export/src/mapper.rs:51-59 | a trace id is exported natively or as `eden.trace_id` with its text unchanged |
| Mapper.SpanIdIsCarried | crates/eden_logger_export/src/mapper.rs:52-62 | the same for a span id, which is native only beside a native trace id |
| Mapper.EncodedIdsAreNative | crates/eden_logger_export/src/mapper.rs:51-56 | ids written by the logger arrive as the same bytes iff they are not all zero |

## Left out

- HTTP, TLS, gzip, Tokio itself and `prost`: replaced by the answer oracle, permits, and a small encoder for the fields a request uses.
- Time: `max_batch_delay`, retry delays with jitter, flush and shutdown deadlines are choices the model may make at any point; how long anything takes is not modelled.
- Weaker memory orderings, lock poisoning, and logging from within a sink.
- The collector is modelled as steps on values, not as a class, because its operations interleave; the classes in `Lanes` cover its queues between those steps.
- `reconfigure` with two generations: each generation is a machine of its own, and `replace` appears in it as the loss of its slot.
- Discarding in the terminal branch is one step; it happens behind the fence, where no other step touches the same state.
- A handle dropped without shutdown aborts the worker and reports without zeroing the counters; only the shutdown paths are modelled.
- Diagnostics and metrics other than exported, rejected, oversize and the four budgets, among them `inflight` and the drop counters.
- Level and audience filters, configuration validation, context builders, the display writer, macros and severity numbers: one-branch facts.
- `estimated_size_bytes` and the encoded size of a record are given numbers of the record.
- Civil dates from the clock: an instant comes with its milliseconds since the epoch and its civil fields.
- Severity, body and time of the exported record, which the mapper copies; `write_display` of request fields reaches it as a string.
- ExporterFlushing.FlushReturns: needs an end of submissions, since reserved records may overtake normal ones for as long as they come; and says nothing of a caller that sleeps through a failure of the worker.
- Protobuf.RequestRoundTrip: covers length-delimited fields with numbers below 16, which is what an export request uses at its three levels.
- ExporterProgress.ShutdownCompletes: needs an end to retries, since the code retries without limit; an abort at the shutdown deadline counts as an end too.
- ExporterUnderflow.DangerGoesBelow: excepts a budget of 2^63 or more that is exceeded; only the necessary half is proved there.
