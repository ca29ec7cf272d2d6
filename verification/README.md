# Verified model of the benchmark's accounting

The benchmark offers records to a collector at a fixed rate, counts what the collector acknowledges,
and afterwards reconciles a manifest with the rows that landed in the lake. Its claim is that a PASS
means no record was lost and none was duplicated. This project models the code that makes that claim,
from the clock of the pacer to the verdict of the validator, and proves what the claim holds for.

`dafny verify dfyconfig.toml` checks everything.

## How the modules fit

| file | what it models |
|---|---|
| `Payload.dfy` | request templates stamped in place, and the worker-private slices of the pool (both payloads) |
| `Metrics.dfy` | totals, windows, latency percentiles; each method of the class is one critical section of the lock |
| `Loadgen.dfy` | the load engine as a state machine: one pacer, a bounded queue, N workers, one atomic step at a time |
| `LoadgenInvariant.dfy`, `LoadgenWorkers.dfy` | one invariant, kept by every step of the pacer and of every worker; runs and reachable states |
| `LoadgenPaths.dfy`, `LoadgenRuns.dfy`, `LoadgenSteps.dfy` | schedules, and what holds in every reachable state: conservation, sequence allocation, wire safety, step counters |
| `LoadgenCredit.dfy`, `LoadgenDrain.dfy` | which step an ack is counted in, and when a step's accepted count is real |
| `LoadgenShutdown.dfy`, `LoadgenStop.dfy` | the drain's barrier, the stop flag, the sentinels, and the exit of the workers |
| `Engine.dfy`, `EnginePaths.dfy` | `_send`, `_record_failure` and `stop` as methods on the objects they mutate, each shown to be a path of the state machine |
| `LoadgenVariants.dfy` | which template variants a step uses |
| `LoadgenWitness.dfy`, `FalseVerdicts.dfy` | runs that every engine with a worker has, in which the accounting or the verdict goes wrong |
| `PacerSchedule.dfy`, `PacerTurns.dfy` | the timeline of a step, the turns of the pacer's loop, and how far it can run ahead or fall behind |
| `Pacer.dfy` | `run_step` with its clock, as a class whose environment decides how long everything takes |
| `PacerEvents.dfy`, `PacerPaths.dfy` | what the main thread does, event by event; each step of the clocked pacer is a schedule of the state machine |
| `Validator.dfy`, `Reconciliation.dfy`, `Contiguity.dfy`, `MergeStability.dfy` | the validator's queries as folds over rows, what a PASS means, and what it depends on |
| `Runner.dfy` | the manifest a run writes, and the verdict on it: engine and validator together |
| `RateCheck.dfy` | which rates `config.load` calls unreachable, and what its advice is worth |
| `Splitter.dfy` | the quote-aware SQL splitter |
| `Slope.dfy` | the least-squares trend of the backlog and the scan for the maximum sustainable rate |
| `Sums.dfy`, `Basics.dfy` | sums over sequences and maps, shared definitions |

## Modelling choices

The interleavings of the engine are the schedules of `Loadgen.Step`: a run is any sequence of actions
of the pacer and the workers, with any outcome for each RPC. The atomic steps are the critical
sections and the single calls between them: reading the stop flag at each of the pacer's two loop
guards, allocating a range, putting, rolling back, each of the two recordings of an offer, taking an item, stamping one record, starting and ending the RPC, recording in
the totals, recording in the step. `queue.put` comes before `record_offered`, so a worker can finish
an item before it was counted as offered, and the conservation law says so. An exception that leaves
`_send` is an action of its own. History that no action reads (what was enqueued, the fate of each
item, what each acknowledged request carried, which acks the open step has counted) is part of the
state.

In `Loadgen` an action the code times with the clock may happen whenever the program counter is there;
`Pacer` has the clock and nothing but the pacer. `PacerPaths` joins the two: whatever the workers do in
between, a step of the clocked pacer is a path of the state machine, so its rate bound holds for the
step that the end-to-end theorems are about. In `Pacer`, in `RateCheck` and in `Slope` floats are
reals. A table is the sequence of its rows; DuckDB's `hash` is an arbitrary function for each column
type. Locks, `queue.Queue` and `Event` are taken to do what they promise, and the updates of
`_consecutive_failures` are atomic.

## What the proofs found

Places where the code does something else than its documentation or its users would expect. The code
is modelled as it is; each entry names the run or input that shows it and the exact condition.

- A step that offers nothing still declares one sequence number, because `seq_end` is
  `max(seq_start, next_seq - 1)` (generator/src/loadgen.py:220). When it is the last step, a run
  without any loss gets FAIL (`FalseVerdicts.EmptyLastStepFails`). `Runner.CleanRunVerdict` gives the
  verdict of a clean run exactly. An abort sets the stop flag, and the step loop does not look at it
  (generator/src/main.py:243-255), so, unless its `stop_when` rules end it, a staircase that aborts
  before its last step ends with steps that offer nothing and fails the same way (`LoadgenStop.StoppedStepsAreEmpty`,
  `Runner.StoppedRunFails`).
- `_drain_inflight` promises that a step's accepted count is real. It looks at the queue and at the
  RPCs in flight, so it can return while a worker that took the last item has not yet called
  `record_inflight(1)`; the step is closed with a batch offered and none accepted, and the batch is
  acknowledged afterwards (`LoadgenWitness.DrainTooEarlyHappens`). After a drain that timed out, the
  next step can count the late ack although its own drain is complete
  (`LoadgenWitness.TailCountsInNextStep`). `LoadgenDrain.DrainExact` says exactly when the count is
  real at the moment the step is closed, and `LoadgenDrain.RealForGood` that it then stays so.
- An exception between an OK and `record_success` drops an acknowledged batch from the totals, and a
  clean lake gets FAIL (`FalseVerdicts.LostAckFails`).
- A PASS does not exclude loss. Lost rows can be made up for in three ways: by rows of a request that
  timed out and landed all the same (`Reconciliation.UnackedRowsCanHideLoss`), by rows without a
  sequence number, which are counted and reported but fail nothing
  (`Reconciliation.UnidentifiedRowsCanHideLoss`), and by an acknowledged batch that an exception kept
  out of the totals (`FalseVerdicts.LostAckHidesLoss`). `Reconciliation.PassIsExactIff` shows that
  there are no others. For the manifest of one generator the second cannot happen, and
  `Runner.PassMeansExactlyOnce` gives the exact meaning of a PASS for any lake.
- The windows written by the sampler carry neither the failure classes other than RESOURCE_EXHAUSTED
  nor the counts by code, so histories with the same windows can have different totals
  (`Metrics.WindowsForgetTheCode`); `Metrics.Flow` lists what the windows do add up to.
- When the checksum query failed, a comparison with a baseline that has no checksums either reports
  every column as unchanged (`MergeStability.NothingComparedIsStable`).
- The number of workers suggested by a rate warning clears it, except below the 1e-9 clamp on the
  flush time (`RateCheck.NeedClears`, `RateCheck.AdviceCanFail`). A batch size between 0 and 1 passes
  `_positive`, is truncated to 0 and ends in a division by zero (`RateCheck.CheckRates`).
- `percentile` is the nearest rank except when q * n is an odd integer below n, where Python's
  rounding makes it one rank more (`Metrics.RankExact`).
- The report calls the rate its scan finds the highest that passes. The scan stops at the first level
  that fails, so a staircase that recovers gets a lower rate (`Slope.ScanMissesRecovery`); and it never
  compares rates, while steps may come in any order, so a staircase that falls from 200 to 100 records/s
  and passes at both gets 100 (`Slope.ScanIgnoresRates`). `Slope.ScanIsHighest` says for any steps when
  the rate is the highest: no earlier level has a higher one, and no level with a higher one passes
  later. For rates that rise that is so if and only if no level passes after one that fails
  (`Slope.ScanIsHighestIff`). The flat backlog that the report also asks for is not part of the scan.

## Model

| member | source | states |
|---|---|---|
| `LoadgenWorkers.StepKeepsInv` | generator/src/loadgen.py:153-304 | every atomic step of the pacer and of any worker keeps the invariant: allocation, queue order, custody of every item, the ledgers, templates and step books |
| `LoadgenWorkers.ReachableInv` | generator/src/loadgen.py:98-304 | it holds in every state of every run, for any number of workers, any schedule and any outcome of each RPC |
| `LoadgenWorkers.InitialReachable` | generator/src/loadgen.py:67-95 | every engine that can be constructed has runs, so the theorems about reachable states are not empty |
| `LoadgenWorkers.StampKeepsWire` | generator/src/loadgen.py:256-263 | stamping one record lands in a template no other worker reaches: what every other worker has stamped or has in an RPC is untouched |
| `LoadgenInvariant.PacerKeepsTiling` | generator/src/loadgen.py:166-197 | allocating, putting and rolling back keep the enqueued ranges consecutive from 0 |
| `LoadgenRuns.Conservation` | generator/src/loadgen.py:176-201 | in every reachable state offered = queued + in workers' hands + accepted + failed + crashed, up to the one batch between put and `record_offered`; `inflight()` is the number of workers inside `export`; requests sent are those recorded |
| `LoadgenRuns.SequenceTiling` | generator/src/loadgen.py:166-197 | the ranges of enqueued items are disjoint and, with at most the one the pacer holds, tile [0, next_seq) |
| `LoadgenRuns.QueueIsBounded` | generator/src/loadgen.py:75-76 | in every reachable state at most max(1, max_inflight) entries wait |
| `LoadgenRuns.PutIff` | generator/src/loadgen.py:178-184 | a put adds the item exactly when fewer than max(1, max_inflight) entries wait; otherwise the queue is as before and the pacer is back at its guard |
| `LoadgenRuns.ExactlyOnce` | generator/src/loadgen.py:243-304 | at every moment an enqueued item is in exactly one place: the queue, one worker, accepted, failed or crashed |
| `LoadgenRuns.WireSafety` | generator/src/loadgen.py:256-265 | while an RPC is out its template holds start .. start + batch - 1 in order, on both handles for ai_txn, and nobody has written to it since the request was handed over |
| `LoadgenRuns.AcksDistinct` | generator/src/loadgen.py:166-168 | no two acknowledged requests carried the same range |
| `LoadgenRuns.AckedSeqsCount` | generator/src/payload.py:80-95 | what a set of acknowledged requests carried, number by number |
| `LoadgenRuns.AckedRecords` | generator/src/loadgen.py:267-274 | no number is acknowledged twice, none beyond what was enqueued, and the totals count all acknowledged records except those whose worker died or stopped between the OK and `record_success` |
| `LoadgenRuns.TotalsAreBatches` | generator/src/metrics.py:125-168 | in every reachable state the totals are whole batches: records and bytes offered, records accepted for each success, records rejected for each RESOURCE_EXHAUSTED failure |
| `LoadgenSteps.StepCounters` | generator/src/loadgen.py:267-287 | in every reachable state, for each step: accepted is (requests - failures) whole batches, errors_by_code sums to failures, and rejected is one whole batch for each RESOURCE_EXHAUSTED error |
| `LoadgenVariants.VariantsGoRound` | generator/src/loadgen.py:148-174 | every step starts with variant 0 and goes round the variants batch by batch, on every schedule |
| `LoadgenShutdown.DrainReturns` | generator/src/loadgen.py:233-235 | when the drain returns early the queue is empty and what has no outcome is exactly what workers hold outside `export` |
| `LoadgenShutdown.DrainedStaysEmpty` | generator/src/loadgen.py:215-222 | the queue stays empty until the step is closed |
| `LoadgenShutdown.DrainBalance` | generator/src/loadgen.py:224-235 | when the drain returns early, the run as a whole is accounted for (nothing outstanding, every counted ack in a step or late) if and only if every worker is between items |
| `LoadgenCredit.ReachableCredit` | generator/src/loadgen.py:267-274 | every ack in the totals was posted to the open step, was posted before, or is about to be; the open step's accepted count is the batches posted to it; acks posted before are of items before its range |
| `LoadgenDrain.DrainExact` | generator/src/loadgen.py:215-239 | when a step is closed, however the drain ended, its accepted count is real (every own item has its outcome, each own ack in the totals is counted in it, no other is) if and only if none of its items is in the queue or with a worker and no earlier item's ack was posted into it |
| `LoadgenDrain.RealCount` | generator/src/loadgen.py:217-222 | a real count is the batch size times the accepted items of the step's own range |
| `LoadgenDrain.RealForGood` | generator/src/loadgen.py:215-222 | and it stays so: in every later state of the run the closed step counts exactly the accepted items of its own range |
| `LoadgenDrain.CountRightIff` | generator/src/loadgen.py:267-274 | the bare number is right if and only if as many earlier acks were posted into the step as own acks are still to be posted |
| `LoadgenDrain.CleanStart` | generator/src/loadgen.py:131-139 | a step that begins with an empty queue and nobody busy counts no earlier ack; its accepted count is then real if and only if its own items are settled when it is closed |
| `LoadgenDrain.CleanLook` | generator/src/loadgen.py:224-235 | after such a start, if nobody is busy when the drain has found the queue empty, the accepted count is real whenever the step is closed, on every schedule |
| `LoadgenShutdown.StepsWithinTotals` | generator/src/loadgen.py:267-287 | the accepted counts of the steps never exceed the totals; the gap is late acks plus acks not yet posted to the step |
| `LoadgenShutdown.WorkerStepDecreases` | generator/src/loadgen.py:243-276 | every step a worker takes lowers a measure on queue length and phases |
| `LoadgenShutdown.WorkersComeToRest` | generator/src/loadgen.py:243-276 | no schedule of the workers alone is longer than the measure |
| `LoadgenShutdown.StuckIsAtRest` | generator/src/loadgen.py:243-254 | workers that cannot move have exited or wait at an empty queue: there is no deadlock with work left |
| `LoadgenShutdown.ShutdownOutcome` | generator/src/loadgen.py:107-115 | after `stop`, at rest: the queue is empty, everything enqueued was taken, nothing is outstanding, and as many workers have exited as sentinels went in; all of them if and only if none met a full queue |
| `LoadgenShutdown.SentinelFits` | generator/src/loadgen.py:109-113 | one sentinel: with everything enqueued taken, the queue has room, since workers <= max_inflight |
| `LoadgenStop.AllSentinelsFit` | generator/src/loadgen.py:107-115 | from a full drain, along every schedule without another step, no sentinel meets a full queue |
| `LoadgenStop.EveryWorkerExits` | generator/src/loadgen.py:107-115 | so after a full drain and `stop`, whatever the schedule, once the workers are at rest every one of them has exited and nothing is outstanding |
| `LoadgenStop.AtMostOneMore` | generator/src/loadgen.py:153-184 | once the stop flag is set at most one more batch is enqueued, and only if the pacer was already inside `put` |
| `LoadgenStop.StoppedStepsAreEmpty` | generator/src/loadgen.py:153-222 | a step that begins with the flag set offers nothing, and so do all after it |
| `LoadgenWitness.DrainCanReturnTooEarly` | generator/src/loadgen.py:215-239 | from any calm state there is a schedule in which the drain returns early, the step is closed with a batch offered and none accepted, and the batch is acknowledged afterwards |
| `LoadgenWitness.DrainTooEarlyHappens` | generator/src/loadgen.py:215-239 | the same from the start of the program, for every configuration with a worker |
| `LoadgenWitness.TailCountsInNextStep` | generator/src/loadgen.py:237-239 | after a timed-out drain, the next step can be closed, fully drained, with nothing offered and a batch accepted |
| `LoadgenPaths.PathReachable` | generator/src/loadgen.py:98-304 | schedules lead from reachable states to reachable states |
| `Engine.LoadGenerator.constructor` | generator/src/loadgen.py:67-95 | a fresh engine; the pool-size check cannot fail for a factory built for the same workers |
| `Engine.LoadGenerator.CallExport` | generator/src/loadgen.py:256-265 | the worker's own template is stamped with the item's range, everything else in the pool is as before, the request is that template, and the in-flight count is balanced |
| `Engine.LoadGenerator.RecordSuccess` | generator/src/loadgen.py:267-274 | the whole shared state after an OK |
| `Engine.LoadGenerator.RecordFailure` | generator/src/loadgen.py:278-304 | the whole shared state after a failure: rejections do not count towards the abort, other failures trip it at the limit and once |
| `Engine.AbortsAtLimit` | generator/src/loadgen.py:267-304 | over any sequence of outcomes the abort and the stop flag are set exactly when as many failures in a row were recorded as the limit says; an OK starts the count again, a rejection neither counts nor does |
| `Engine.LoadGenerator.Send` | generator/src/loadgen.py:256-276 | the whole shared state after `_send`, for an OK, a failure and an export that raises |
| `Engine.LoadGenerator.Stop` | generator/src/loadgen.py:107-113 | leaves the smaller of workers and the room up to max(1, max_inflight) as sentinels behind what waits, and the stop flag set |
| `EnginePaths.StartsFresh` | generator/src/loadgen.py:67-88 | every run of the state machine starts with what the constructor leaves |
| `EnginePaths.SendIsAPath` | generator/src/loadgen.py:256-304 | `Send` is a path of the state machine from holding the item back to idle, for every outcome; an OK adds exactly the request's content to what was acknowledged |
| `EnginePaths.StopIsAPath` | generator/src/loadgen.py:107-113 | `Stop` is a path of the state machine, and the sentinels that did not fit are the dropped ones |
| `Payload.TemplateIndexInPool` | generator/src/payload.py:121-123 | a template index lies in the pool |
| `Payload.TemplateIndexIs` | generator/src/payload.py:121-123 | a worker's templates are one block of the pool, and the variant counts round inside it |
| `Payload.TemplateIndexInjective` | generator/src/payload.py:121-123 | two workers never reach the same template; one worker reaches it again only with the same variant |
| `Payload.StampedCarries` | generator/src/payload_ai_txn.py:102-122 | a stamped template carries first, first + 1, ... on every handle of the payload, and handles it does not have are left alone |
| `Payload.RequestTemplate.Stamp` | generator/src/payload.py:80-95 | stamping in place gives every record its number, returns the next free one and changes nothing else |
| `Payload.PayloadFactory.constructor` | generator/src/payload.py:108-117 | the pool has workers x variants templates (both at least 1), all of them separate |
| `Payload.PayloadFactory.BuildPool` | generator/src/payload_ai_txn.py:208-213 | no two templates of the pool share a record |
| `Payload.PayloadFactory.StampFor` | generator/src/payload.py:98-123 | stamping through one worker's handle leaves every other worker's templates and its own other variants alone |
| `Metrics.Metrics.RecordOffered` | generator/src/metrics.py:104-109 | totals and window advance together, and the sample balance is kept |
| `Metrics.Metrics.RecordStall` | generator/src/metrics.py:124-128 | stalled milliseconds in totals and window |
| `Metrics.Metrics.RecordSuccess` | generator/src/metrics.py:132-142 | counters and latencies of a success, with the identities between the counters kept |
| `Metrics.Metrics.RecordFailure` | generator/src/metrics.py:148-170 | counters of a failure by class and code; the window keeps only the RESOURCE_EXHAUSTED class |
| `Metrics.Metrics.FlushSample` | generator/src/metrics.py:199-230 | the window is swapped out whole, its percentiles are those of its latencies in order, and the cumulative columns are the sums of all windows written |
| `Metrics.Metrics.StopSampler` | generator/src/metrics.py:182-188 | after the final flush the windows account for the whole run |
| `Metrics.AddFailureConsistent` | generator/src/metrics.py:148-168 | requests_failed = sum of errors_by_code = sum of the five class counters, after every failure |
| `Metrics.FlushKeepsBalance` | generator/src/metrics.py:199-204 | flushed windows plus the current one equal the totals, before and after a flush |
| `Metrics.WindowsForgetTheCode` | generator/src/metrics.py:148-168 | two failures with different codes other than RESOURCE_EXHAUSTED change the window alike and the totals differently |
| `Metrics.RankExact` | generator/src/metrics.py:34-41 | the rank is in [1, n] and is ceil(q * n), except one more when q * n is an odd integer below n |
| `Metrics.PercentileSplits` | generator/src/metrics.py:34-41 | the percentile is one of the values, and at least ceil(q * n) values are at or below it |
| `Metrics.PercentilesOrdered` | generator/src/metrics.py:223-226 | p50 <= p95 <= p99 <= max |
| `Metrics.SortedSame` | generator/src/metrics.py:201 | sorting keeps the latencies as a multiset and puts a greatest one last |
| `Pacer.StepPacer.TryPut` | generator/src/loadgen.py:178-184 | the batch is put if and only if some try finds room and the guard before it reads a time before the deadline, whatever the tries take; giving up means the deadline passed or every try found the queue full |
| `Pacer.StepPacer.PutBatch` | generator/src/loadgen.py:176-189 | a stall is recorded exactly when it is more than a millisecond, and whole; the put starts before the deadline |
| `Pacer.StepPacer.SendBatch` | generator/src/loadgen.py:166-213 | from the allocation on: if there is room in time the batch keeps its numbers, is offered, and the next one is due an interval later or is re-anchored; otherwise only time passes and the numbers are given back; what the main thread did is the log of events |
| `Pacer.StepPacer.OneTurn` | generator/src/loadgen.py:153-213 | a batch that is due at the first look at the clock is sent, unless the deadline or the stop flag comes before there is room; a turn waits without sending exactly for a batch more than a quarter of a second away; and the whole state after the turn |
| `Pacer.StepPacer.Loop` | generator/src/loadgen.py:153-213 | whatever the turns take, the loop keeps the schedule and the books, the time that passed is covered by the batches sent and what the turns cost, and it ends before the deadline only for a stop, an abort or a full queue |
| `Pacer.StepPacer.RunStep` | generator/src/loadgen.py:123-213 | for any clock and any stalls: next_submit = started + n * interval + what re-anchoring wrote off, every put is at or after its ideal time, and offered is n whole batches; n is at most the batches that hold the records of the duration, and at least those that hold the records of the time that passed less what the turns cost; at every sleep n is exactly floor((now - started - written off) / interval) + 1; a rate that yields no work is the only error |
| `PacerTurns.TurnKeepsSchedule` | generator/src/loadgen.py:153-213 | every turn, however it ends, keeps the schedule, the exactness of past sleeps and the books |
| `PacerTurns.TurnLags` | generator/src/loadgen.py:153-213 | a turn that stays in the loop adds to the lag (lateness plus what was written off) at most the work that does not fit into one interval |
| `PacerTurns.TurnCovers` | generator/src/loadgen.py:153-213 | however a turn ends, the time up to its end is covered by the batches sent, the lag before it and its own work |
| `PacerTurns.NoExcess` | generator/src/loadgen.py:203-210 | turns that take at most an interval each cost nothing but the last of them: a lost interval is caught up |
| `PacerTurns.FillingHolds` | generator/src/loadgen.py:126-129 | the bound in terms of the rate: n batches fill x seconds if and only if they hold the records of x seconds |
| `PacerTurns.DueHolds` | generator/src/loadgen.py:126-129 | the exact count in terms of the rate: it is the least number of batches that hold more records than x seconds do |
| `PacerSchedule.NeverAheadOfSchedule` | generator/src/loadgen.py:142-147 | at most floor((t - started) / interval) + 1 batches are attempted by any time t |
| `PacerSchedule.StepHoldsAtMost` | generator/src/loadgen.py:154-156 | a step attempts at most ceil(duration / interval) batches |
| `PacerSchedule.SleepIsExact` | generator/src/loadgen.py:158-163 | between two batches, the attempts by time z are exactly floor((z - started - written off by z) / interval) + 1; without a re-anchoring by then, floor((z - started) / interval) + 1 |
| `PacerSchedule.Advance` | generator/src/loadgen.py:203-210 | the schedule invariant survives a batch, with and without re-anchoring |
| `PacerPaths.FollowsIsPath` | generator/src/loadgen.py:153-213 | a schedule on which the main thread does what the log says, with any actions of the workers and the operator in between, is a path of the state machine; at its end the next number, the step's offered count and the batches enqueued are those of the log |
| `PacerPaths.RunStepIsASchedule` | generator/src/loadgen.py:123-213 | so a step of the clocked pacer is a path of the state machine from the step's begin to its drain, with the same offered count, next number and enqueued batches |
| `PacerPaths.SmoothRun` | generator/src/loadgen.py:153-213 | there is such a schedule, of the main thread alone, whenever the queue has room for what the pacer puts and nothing was stopped |
| `Validator.CheckGenerators` | bench/validate_correctness.py:169-203 | the per-generator entries, each with its expected and observed range, and whether all are contiguous |
| `Validator.MinSeq` | bench/validate_correctness.py:173-198 | the least sequence number that landed for a generator, NULL exactly when none did; `MaxSeq` is the greatest |
| `Validator.WindowKeeps` | bench/validate_correctness.py:78-86 | the window keeps each row of the table stamped from its start to its end, as often as it occurs, and no other |
| `Validator.ScopeKeeps` | bench/validate_correctness.py:78-99 | the scope keeps those of a declared generator; with none declared it is the whole window |
| `Validator.Validate` | bench/validate_correctness.py:107-261 | landed and foreign count the positions of the table whose rows are in the window and of a declared generator, or in the window and not; every other finding is the stated fold over those rows; each failed check is listed if and only if it fails, PASS if and only if the three hard checks hold |
| `Validator.FailedChecks` | bench/validate_correctness.py:257-260 | the hard failures in order, none exactly for a PASS |
| `Validator.CompareBaseline` | bench/validate_correctness.py:306-320 | a column is reported exactly when its stored checksums differ (missing equals missing), and PASS stays if and only if none does, also when a query or a baseline left no checksums |
| `Validator.DifferingInOrder` | bench/validate_correctness.py:309-310 | each column is named once, in the order of comparison |
| `Reconciliation.LandedSplits` | bench/validate_correctness.py:122-166 | landed rows = distinct keys + excess rows + rows without identity, and the duplicate check passes exactly when no key repeats |
| `Reconciliation.KeyIsCounted` | bench/validate_correctness.py:151-156 | a key counts once for each row with its generator and number |
| `Reconciliation.DuplicatesAreCounted` | bench/validate_correctness.py:151-156 | the reported duplicate keys are the keys more than one row carries |
| `Reconciliation.EntrySays` | bench/validate_correctness.py:170-201 | what the entry of one generator reports, row by row and number by number |
| `Reconciliation.DeltaIsDuplicationMinusLoss` | bench/validate_correctness.py:135-147 | delta = excess rows - lost records, when every landed row is of an acknowledged record |
| `Reconciliation.PassIsExact` | bench/validate_correctness.py:135-166 | then the row count and the duplicate check pass if and only if each acknowledged record landed exactly once |
| `Reconciliation.LossIsReported` | bench/validate_correctness.py:135-147 | losing k records with nothing extra gives delta = -k and fails |
| `Reconciliation.UnackedRowsCanHideLoss` | bench/validate_correctness.py:135-210 | a run that lost data and passes all three checks |
| `Reconciliation.UnidentifiedRowsCanHideLoss` | bench/validate_correctness.py:132-210 | rows without a sequence number can make up for lost ones: a two-generator run that lost data and passes, with nothing unacknowledged landed |
| `Reconciliation.PassIsExactIff` | bench/validate_correctness.py:132-166 | after matching counts and no duplicates, acknowledged records lost = landed keys not acknowledged + rows without identity + acknowledged records missing from total_accepted; exact if and only if all three are absent |
| `ContiguityCheck.ContiguityFollows` | bench/validate_correctness.py:168-210 | for any number of generators whose spans add up to offered, row count and duplicates imply contiguity for each, although each may use the whole unacked budget |
| `MergeStability.ForeignRowsInvisible` | bench/validate_correctness.py:58-99 | rows outside the window or of undeclared generators, wherever they lie, leave the scope unchanged |
| `MergeStability.ScopePermutes` | bench/validate_correctness.py:78-99 | permuting the table permutes the scope |
| `MergeStability.MergeChangesNothing` | bench/validate_correctness.py:238-261 | permuting the scoped rows leaves every count, check and checksum as it was |
| `MergeStability.VerdictDependsOnOwnRows` | bench/validate_correctness.py:58-261 | the findings and the verdict depend on the run's own rows as a multiset only |
| `MergeStability.RewrittenRowIsReported` | bench/validate_correctness.py:306-320 | rewriting one row is reported in exactly the columns whose hash it changes |
| `MergeStability.RowCountIsReported` | bench/validate_correctness.py:306-320 | a merge is reported in the row count exactly if it changed the number of rows |
| `MergeStability.NothingComparedIsStable` | bench/validate_correctness.py:254-320 | without stored checksums in the baseline, nothing is reported exactly when the result has none either |
| `Runner.DeclaredSpan` | generator/src/main.py:274-279 | the declared range starts at 0 and is as long as what was offered, or one longer when the last step offered nothing |
| `Runner.ManifestReports` | generator/src/main.py:271-283 | the manifest of every finished run: its range starts at 0, and offered, accepted and rejected are whole batches of what was enqueued, succeeded and was rejected |
| `Runner.CleanRunVerdict` | generator/src/main.py:240-298 | for every schedule and every RPC outcome: with exactly the acknowledged records in the lake, PASS if and only if all acks were counted and the last step offered something |
| `Runner.PassMeansExactlyOnce` | bench/validate_correctness.py:107-261 | what a PASS of a run's manifest means for any lake: the last step offered something, every row has an identity, lost = landed unacknowledged + uncounted acks, and each acknowledged record landed exactly once if and only if nothing unacknowledged landed and every ack was counted |
| `Runner.ExactPasses` | bench/validate_correctness.py:107-261 | the other direction: an exact lake passes if and only if every ack was counted and the last step offered something |
| `Runner.AbortStops` | generator/src/loadgen.py:297-304 | an aborted run has its stop flag set |
| `Runner.StoppedRunFails` | generator/src/main.py:243-279 | a run that begins another step with the flag set declares one number too many and fails with exactly the acknowledged records in the lake |
| `FalseVerdicts.EmptyLastStepFails` | generator/src/main.py:274-279 | in every engine with a worker: a clean run with an empty last step, whose exact lake fails |
| `FalseVerdicts.LostAckFails` | generator/src/loadgen.py:243-276 | in every engine with a worker: a run that loses an ack to an exception, whose exact lake fails |
| `FalseVerdicts.LostAckHidesLoss` | bench/validate_correctness.py:135-210 | in every engine with a worker: a run and a lake without unacknowledged rows that passes although an acknowledged batch is lost |
| `Runner.UncountedIsZero` | generator/src/loadgen.py:264-268 | acknowledged and counted agree exactly when no worker died or is stopped between the OK and `record_success` |
| `Runner.ReconcileRun` | generator/src/main.py:271-298 | the pipeline from the final state of a run through its manifest to the report |
| `RateCheck.BuildSteps` | generator/src/config.py:281-292 | steps are numbered from 0 and positive, or the first bad one is the error |
| `RateCheck.WarnedExactly` | generator/src/config.py:103-127 | the warned rates in closed form, clamp included and for any sign of delay and bucket size |
| `RateCheck.ReachableRates` | generator/src/config.py:103-127 | away from the clamp: no rate is warned about if 1.02 * workers * batch records fill a bucket, otherwise exactly those above that capacity over max_delay |
| `RateCheck.NeedClears` | generator/src/config.py:251-260 | with the suggested workers a rate is still warned about if and only if the clamp warns |
| `RateCheck.NeedIsLeast` | generator/src/config.py:252-253 | the suggestion is the least number of workers that hold what is offered during one flush |
| `RateCheck.WarningSays` | generator/src/config.py:250-260 | the step, ceiling, flush time and suggestion of a warning |
| `RateCheck.TimerAlone` | generator/src/config.py:103-127 | without a rate only the timer flushes; the clamp is a nanosecond |
| `RateCheck.MoreWorkers` | generator/src/config.py:114-127 | more workers never add a warning |
| `RateCheck.CheckStep` | generator/src/config.py:250-260 | one step's warning, or the division by zero of a truncated batch size |
| `RateCheck.CheckRates` | generator/src/config.py:232-262 | workers above max_inflight, a zero record size and a zero batch size are errors; otherwise one warning for each step above its ceiling, in order |
| `RateCheck.WarningsAre` | generator/src/config.py:248-262 | the warnings are those of the steps above their ceiling |
| `RateCheck.WarningsInOrder` | generator/src/config.py:248-262 | once each and in the order of the steps |
| `RateCheck.NoWarnings` | generator/src/config.py:248-262 | there is no warning exactly when no step is above its ceiling |
| `RateCheck.RaisingWorkersClears` | generator/src/config.py:248-262 | raising workers to the largest suggestion clears every warning, if no flush is shorter than the clamp |
| `RateCheck.AdviceCanFail` | generator/src/config.py:127 | a configuration below the clamp whose warning suggests no workers at all |
| `Splitter.SplitStatements` | scripts/lib/duckdb_exec.py:37-66 | the loop computes the stripped non-blank pieces cut at exactly the semicolons with an even number of quotes before them; the case for a doubled quote changes nothing |
| `Splitter.PiecesSound` | scripts/lib/duckdb_exec.py:43-63 | cutting loses nothing: the pieces joined by semicolons are the text, and no piece can be cut again |
| `Splitter.PiecesUnique` | scripts/lib/duckdb_exec.py:43-63 | they are the only way to write the text as uncut statements joined by semicolons |
| `Splitter.StripKeepsParse` | scripts/lib/duckdb_exec.py:56-63 | stripping changes neither quote parity nor cuts |
| `Splitter.SpacesAre` | scripts/lib/duckdb_exec.py:56-63 | which 29 characters stripping removes |
| `Splitter.SplitOfJoin` | scripts/lib/duckdb_exec.py:37-66 | splitting the join of trimmed, non-empty, uncut statements (all but the last balanced) returns them |
| `Splitter.SplitIsStable` | scripts/lib/duckdb_exec.py:37-66 | the result is always such a list, and joining and splitting it again returns it |
| `Slope.SlopeExists` | bench/report.py:133-140 | there is a slope exactly for three or more samples that are not all at one time |
| `Slope.LeastSquares` | bench/report.py:129-140 | the result is the slope of the one line with the smallest squared error |
| `Slope.SlopeSign` | bench/report.py:129-140 | for increasing times and a backlog that never falls the slope is at least 0, and 0 only if the backlog is flat |
| `Slope.SlopeOfLine` | bench/report.py:136-140 | on a line the result is the line's slope |
| `Slope.SlopeShift` | bench/report.py:425-433 | shifting times or values changes nothing, so counting from the window's first sample is harmless |
| `Slope.WindowSize` | bench/report.py:409-415 | the steady window is all but the leading quarter, rounded down, or everything below eight samples |
| `Slope.BacklogVerdict` | bench/report.py:418-436 | both reported slopes per minute, files and bytes, are those of the recorded series; for a series that never falls the slope is not negative, and zero exactly when it stood still |
| `Slope.RecordedSlopes` | bench/report.py:418-436 | for samples recorded whole, both slopes per minute are those of the recorded files and bytes against the recorded times, from sample n/4 on when there are eight or more |
| `Slope.UnusableIsIgnored` | bench/report.py:418-421 | a sample without a time or without a number of files changes nothing, wherever it is |
| `Slope.BacklogAvailable` | bench/report.py:418-432 | there is an answer exactly for four usable samples or more, and it says how many were discarded |
| `Slope.MaximumSustainable` | bench/report.py:946-952 | the last level of the longest prefix of levels that pass |
| `Slope.HoldsIff` | bench/report.py:947-949 | a level passes exactly if nothing was rejected and at least 99 of every 100 records offered, of which there must be some, were accepted |
| `Slope.ScanIsHighest` | bench/report.py:946-957 | for steps in any order, exactly when the scan finds the highest rate that passes |
| `Slope.ScanIsHighestIff` | bench/report.py:946-957 | for rates that rise, it is the level with the highest rate that passes if and only if no level passes after one that fails |
| `Slope.ScanMissesRecovery` | bench/report.py:946-957 | a staircase that recovers, for which it is not |
| `Slope.ScanIgnoresRates` | bench/report.py:946-957 | a staircase whose rates fall and pass, for which it finds the lower one |

## Left out

- gRPC, JWT, channels and retry hints (generator/src/otlp_client.py): an export is an arbitrary outcome; the wait of retry mode `polite` only delays a worker.
- The timestamps `stamp` writes, and the text form of the numbers in the ai_txn payload: a template is an array of number slots, since nothing that decides the verdict reads the rest.
- Protobuf construction, random bodies and the sizes of templates: `nbytes` is a parameter of the configuration.
- `start` and `join`: the workers exist from the start, and joining may return before they have exited, as its timeout allows.
- LoadgenShutdown.ShutdownOutcome: assumes at least one worker; with a worker count truncated to 0 nothing is ever taken from the queue.
- The concurrent engine is a state machine on values; the class in `Engine.dfy` runs one thread at a time, and what other threads do between its steps is in `Loadgen` only.
- The main thread's loop with its clock (`Pacer.dfy`) and its interleaving with the workers (`Loadgen.dfy`) are two models, joined by `PacerPaths`. In the first the answers of the queue and the flags are free; a schedule exists for those the shared state agrees with.
- `stalled_ms` of a step is in `Pacer` only; the step results of `Loadgen` have the counters and `errors_by_code`.
- The abort reason and the stop flag are set by one action; the code sets them one after the other (generator/src/loadgen.py:300-304), so `Runner.AbortStops` leaves out the moment between them.
- `_should_stop` and the signal handler: `Loadgen` may begin another step, stop, or set the stop flag at any point the main thread could.
- Late acknowledgements after the manifest was written, when a worker outlives the join: the verdict is about the state in which the snapshot was taken.
- The window is a parameter: padding it by `pad_seconds` and truncating it to whole seconds are not part of the model.
- The watermark check: it is not a hard gate. The minimum and maximum timestamps, which the comparison does not read.
- The Prometheus mirrors, JSONL and CSV rows, the sampler's timer and rounding to three decimals: a sample keeps the window it wrote.
- Attaching to DuckDB, PostgreSQL and S3, and the collector and compactor: their code is not part of this model.
- Merging and expanding configuration mappings, and the other fields `load` reads: simple tree walks without a law of their own. Infinite and not-a-number rates, which `_positive` lets through, have no counterpart among the reals.
- Rounding of floating-point arithmetic, except the tie rule of `round` in `percentile`.
- `coverage_warning`, `oversize_error` and `seq_ranges_overlap` of the payload modules: single comparisons, the last one used by nothing.
- Monitoring, host agents, charts and the Markdown of the report.
