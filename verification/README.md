# Ozzy: the disruptor, the domain events loop and the stores around them

This project models the concurrent and the durable core of Ozzy and proves what it keeps over every
run: the multi-producer ring buffer of `src/Ozzy.Core/Disruptor`, the domain events loop that feeds it,
and the lease lock, the retrying queue, the saga store, the checkpoint and the histogram.

Two forms are used side by side.

* What is concurrent is a state machine whose steps are single atomic reads, writes or
  compare-and-sets (for the database: single token-checked commits). `IsRun` says that a sequence of
  states starts in the initial state and makes such steps. The main results quantify over every run,
  with any number of threads, processors, batches and restarts. Some say what no run can do; the others
  (in the modules whose names end in `Progress`, in `RingDelivery` and in `WaitCalls`) say what the steps
  come to from any moment of any run, when they are taken: a call left alone, everybody catching up.
* What one caller does alone is a class with the fields and arrays of the original and methods proved
  against a specification. Several of them are tied to the machine: the class `Loop` takes the
  machine's `Add`, `DomainEventsProcessor.OnNext` its `OnNext` and `Save`, `EfSagaRepository` its
  `Saved`, `EfQueueRepository` the queue steps.

## The modules

| module | what it is about |
|---|---|
| `Slots` | slot arithmetic, bit masks, powers of two, the minimum scan |
| `RingBuffer` | size check, filling and indexer of the ring |
| `PublishProtocol`, `PublishProgress` | `SerialisePublishing` run by any number of threads: safety, progress |
| `PublishSafely`, `StrandingRuns`, `PublishExactly` | where it can strand or deadlock, and where it cannot |
| `EmptyBatches` | batch sizes below one |
| `ClaimStrategy` | the claim strategies on real arrays, one caller at a time |
| `ProcessorGraph` | the graph the DSL builds, and why gating its leaves is enough |
| `RingPipeline`, `RingBase`, `RingInvariant`, `RingResults` | producers, ring and consumers end to end |
| `RingProgress`, `RingDelivery` | what a claim comes to, and that events arrive |
| `RingSchedules`, `PipelineStarts`, `LateStarts` | processors that begin ahead of the ring |
| `BatchProcessing` | the batch consumer loop by itself |
| `WorkerPool`, `WorkerProgress` | workers that share one work sequence: safety, progress |
| `BlockingWait`, `WaitCalls` | the monitor protocol of the blocking wait strategy, and what a call of it comes to |
| `DomainEventsLoop`, `CheckpointManager`, `DomainEventRuns`, `DomainEventInvariant`, `DomainEventResults`, `DomainEventProgress`, `DomainEventSessions` | gap filling, polling, the fast channel, checkpoints, crashes |
| `DistributedLock`, `LockObjects`, `LockProgress` | the lease lock |
| `Queues`, `QueueRuns`, `QueueProgress` | the retrying queue with dead letters |
| `SagaStore` | versioned sagas and their outbox |
| `Histogram` | the histogram |
| `Common` | the option type |

## What is assumed

* Every access of shared memory is sequentially consistent, and `LazySet` is a write.
* A ring and its processors start at -1 or above, a ring has at least one gating sequence, and every
  claimed sequence is published once, by the thread that claimed it.
* For the results on what handlers see, a ring is `WellStarted`. Each barrier names a processor that begins
  no later than the ring (or at 0); and some processor does, or the ring is large enough that producers
  cannot lap an unfilled slot (`Roomy`). The default start -1 throughout is well started, and so is what
  `DomainEventsLoop.Start` builds. `PipelineStarts` and `LateStarts` show that otherwise it goes wrong.
* A batch has at least one sequence. `Sequencer.NewBatchDescriptor` does not check it, it only caps the
  size at that of the ring; `EmptyBatches` shows what an empty batch does.
* Fast messages are committed records, and a number that a poll has found missing is not committed
  later. A whole call of `AddEventToDisruptor` is one step, taken when its waits are over.
* Sequences and starting positions are 64-bit numbers: results on progress ask that the cursor is at most
  `long.MaxValue`.
* One clock, monotone and common to all lock clients; one fault manager; a fetch is the one statement
  of `SqlServerEfQueueRepository`.

## Where the code and its promises differ

* `MultiThreadedClaimStrategy.SerialisePublishing` writes the last entry of a batch twice: its loop runs
  up to and including `sequence` (line 52), and line 56 writes `sequence` again. A thread that is held
  up between the two writes can erase an entry of the next lap. The publication it erases is never
  covered by the cursor, and all publishers can end up spinning for ever. The model follows the code.
  Safety is not affected: `CursorIsSafe` and everything in `RingResults` hold in all runs. No run
  strands a publication exactly when the pending array has one entry, or fewer than two threads publish,
  or just two threads publish and both publish single sequences; in those configurations publishing
  cannot deadlock either, provided no batch is larger than the pending array (`StrandingExactly`). So
  three threads that publish single sequences, or two of which one publishes pairs, can lose a
  publication. Runs without a stale second write never do (`CleanRunsPublishEverything`), and
  `OnlyStaleRewritesHide` says exactly which steps are to blame.
* A batch larger than the pending array spins on its own guard for good, and nothing claimed after it is
  ever covered (`OversizedIsPermanent`). With the default sizes, a ring of 16384 and 1024 pending
  entries, `NewBatchDescriptor` allows such batches.
* An empty batch lets the cursor cover a sequence that nobody has written or claimed, in some run,
  exactly if at least two threads publish (`EmptyBatchesExactly`).
* Republishing covered sequences may erase a publication of a later lap; `SerialisePublishing` of
  `ClaimStrategy` says exactly when a lone call is harmless.
* `WaitFor` waits for the cursor and then answers with the minimum of the barrier's processors alone. If
  all of them were started ahead of the ring, a processor chained behind them is handed slots nobody has
  published; `OutrunsExactly` gives the exact condition. If the ring is started above -1, a chained
  processor, which always begins at -1, is first handed the slots up to the ring's start, for which
  nothing was ever written; `GenuineExactly` gives the exact condition.
* If every processor is started ahead of the ring, their positions give the producers room that nobody has
  read yet: one of them can fill the slot of a sequence x + R while the thread that claimed x has still to
  fill it, and a handler is then given the event of x in place of that of x + R. With aligned barriers, n
  threads, a ring of R slots and P pending entries that happens in some run exactly if n is at least two and
  P + (n - 1) * min(largest batch, P) exceeds R (`OverwritesExactly`). In a ring of 16384 slots with 1024
  pending entries single sequences need more than 15361 threads for it, batches of 1024 need seventeen
  (`DefaultSizes`). A batch larger than the pending array cannot contribute, because it blocks the cursor.
* `Util.CeilingNextPowerOfTwo` starts at 2. It returns the least power of two from its argument on
  exactly for arguments above 1, so a ring of one slot is refused although one is a power of two.
* Merging an empty `Histogram` tracks its untouched range, from `long.MaxValue` to 0, as if it had been
  observed. `Histogram.AddObservations` states exactly when the merged object still stands for its
  observations.
* `After` and `And` applied to processors register them again and so mark them as ends of chain once
  more. That is one gate too many, never one too few.

## Model

| member | source | states |
|---|---|---|
| Slots.SlotsApart | src/Ozzy.Core/Disruptor/RingBuffer.cs:78-81 | sequences that share a slot are at least a lap apart |
| Slots.MaskIsSlot | src/Ozzy.Core/Disruptor/MultiThreadedClaimStrategy.cs:54 | the cast to 32 bits and the mask give the sequence modulo the size, for negative sequences too |
| Slots.IsPowerOf2Exact | src/Ozzy.Core/Disruptor/Util.cs:30-33 | the bit trick accepts exactly the powers of two |
| Slots.CeilingNextPowerOfTwo | src/Ozzy.Core/Disruptor/Util.cs:13-23 | a power of two not below the argument; the least one exactly for arguments above 1 |
| Slots.GetMinimumSequence | src/Ozzy.Core/Disruptor/Util.cs:41-52 | an undisturbed scan returns the least value, or long.MaxValue for none |
| Slots.MinOf | src/Ozzy.Core/Disruptor/Util.cs:36-40 | the least value is a lower bound and one of the values |
| RingBuffer.RingBuffer.Create | src/Ozzy.Core/Disruptor/RingBuffer.cs:22-38 | the size check accepts exactly the powers of two from 2 on, and every entry is filled |
| RingBuffer.RingBuffer.Get | src/Ozzy.Core/Disruptor/RingBuffer.cs:78-81 | the masked indexer finds the entry of the sequence's slot |
| RingBuffer.SameEntryExactly | src/Ozzy.Core/Disruptor/RingBuffer.cs:80 | two sequences meet in one entry if and only if whole laps lie between them |
| PublishProtocol.StepKeepsInv | src/Ozzy.Core/Disruptor/MultiThreadedClaimStrategy.cs:43-74 | every atomic step of every thread keeps the protocol's invariant, the handed-over obligation included |
| PublishProtocol.CursorIsSafe | src/Ozzy.Core/Disruptor/MultiThreadedClaimStrategy.cs:45-73 | in every run the cursor never goes back and covers only written sequences |
| PublishProtocol.AdvanceKeepsHandOff | src/Ozzy.Core/Disruptor/MultiThreadedClaimStrategy.cs:58-73 | a visible successor of the cursor always has a thread that will still look at it |
| PublishProtocol.StrandedOnlyIfOverwritten | src/Ozzy.Core/Disruptor/MultiThreadedClaimStrategy.cs:58-73 | with nobody past the guard, a published successor of the cursor is uncovered only if its entry was overwritten |
| PublishProgress.DeadlockIsStranding | src/Ozzy.Core/Disruptor/MultiThreadedClaimStrategy.cs:45-49 | nothing but a stranded publication or a batch larger than the pending array can stop all publishers |
| PublishProgress.StepReducesWork | src/Ozzy.Core/Disruptor/MultiThreadedClaimStrategy.cs:51-73 | every step other than a claim or a spin reduces the total remaining work |
| PublishProgress.OnlyStaleRewritesHide | src/Ozzy.Core/Disruptor/MultiThreadedClaimStrategy.cs:52-56 | a step hides a written entry if and only if it is a stale second write of line 56 |
| PublishProgress.CleanRunsPublishEverything | src/Ozzy.Core/Disruptor/MultiThreadedClaimStrategy.cs:43-74 | without stale second writes nothing is stranded, nothing deadlocks while batches fit, and a fully published prefix is covered |
| PublishProgress.OversizedIsPermanent | src/Ozzy.Core/Disruptor/MultiThreadedClaimStrategy.cs:45-49 | a batch larger than the pending array never passes the guard, and the cursor never reaches it, whatever the others do |
| PublishSafely.SafeConfigurations | src/Ozzy.Core/Disruptor/MultiThreadedClaimStrategy.cs:43-74 | with one pending entry, one thread, or two threads and single sequences no run strands a publication, stale second writes included |
| StrandingRuns.StrandingRun | src/Ozzy.Core/Disruptor/MultiThreadedClaimStrategy.cs:52-56 | in every other configuration some run strands a publication with every call returned |
| PublishExactly.DeadlockReachable | src/Ozzy.Core/Disruptor/MultiThreadedClaimStrategy.cs:45-49 | from there single publications lead to a deadlock |
| PublishExactly.OversizedDeadlock | src/Ozzy.Core/Disruptor/Sequencer.cs:74-77 | a batch larger than the pending array deadlocks at once |
| PublishExactly.JamIsPermanent | src/Ozzy.Core/Disruptor/MultiThreadedClaimStrategy.cs:45-49 | whatever is scheduled or claimed afterwards, nothing moves again |
| PublishExactly.StrandingExactly | src/Ozzy.Core/Disruptor/MultiThreadedClaimStrategy.cs:43-74 | no run strands if and only if there is one pending entry, or fewer than two threads, or two that publish single sequences; no run deadlocks if and only if, besides, every batch fits the pending array (or nobody publishes) |
| EmptyBatches.EmptyBatchBreaksSafety | src/Ozzy.Core/Disruptor/Sequencer.cs:74-77 | two threads, one empty batch: a run of the protocol that ends with the cursor above everything written and claimed |
| EmptyBatches.EmptyBatchesExactly | src/Ozzy.Core/Disruptor/Sequencer.cs:74-77 | in every run the cursor covers written sequences only, if and only if no batch is smaller than one or fewer than two threads publish |
| ClaimStrategy.MultiThreadedClaimStrategy.Create | src/Ozzy.Core/Disruptor/MultiThreadedClaimStrategy.cs:25-35 | refuses exactly the sizes that are no power of two; a fresh array represents no publication |
| ClaimStrategy.MultiThreadedClaimStrategy.SerialisePublishing | src/Ozzy.Core/Disruptor/MultiThreadedClaimStrategy.cs:43-74 | array and cursor represent the published sequences of which the call leaves a trace; they represent all of them with the batch if and only if the call erases none of a later lap |
| ClaimStrategy.HarmlessExactly | src/Ozzy.Core/Disruptor/MultiThreadedClaimStrategy.cs:52-56 | that is so exactly if no published sequence above the batch shares a slot with a covered one of the batch, and always for a batch above the cursor |
| ClaimStrategy.RunEndUnique | src/Ozzy.Core/Disruptor/MultiThreadedClaimStrategy.cs:63-73 | the end of the contiguous run is determined by what it covers and what it does not |
| ClaimStrategy.TwoHistories | src/Ozzy.Core/Disruptor/MultiThreadedClaimStrategy.cs:51-73 | two histories of the same calls, in any order and repeated, run on two strategies, end at the same cursor |
| ClaimStrategy.PublishAll | src/Ozzy.Core/Disruptor/MultiThreadedClaimStrategy.cs:43-74 | a whole history of calls, harmless repetitions included, ends at the end of the contiguous run of all of them |
| ClaimStrategy.LowContentionClaimStrategy.SerialisePublishing | src/Ozzy.Core/Disruptor/MultiThreadedLowContentionClaimStrategy.cs:33-42 | in-order publication reaches the same cursor |
| ClaimStrategy.CapacityTest.HasAvailableCapacity | src/Ozzy.Core/Disruptor/AbstractMultiThreadedClaimStrategy.cs:165-182 | the stale cached minimum never changes the answer |
| ClaimStrategy.CapacityTest.CheckAndIncrement | src/Ozzy.Core/Disruptor/AbstractMultiThreadedClaimStrategy.cs:77-95 | claims if and only if there is room, and then stays within a lap of every consumer |
| ProcessorGraph.Disruptor.CreateEventProcessors | src/Ozzy.Core/Disruptor/Dsl/Disruptor.cs:255-284 | the graph grows by the new processors behind the barrier, with their start, and the barrier's processors stop being ends; refused once started |
| ProcessorGraph.Disruptor.HandleEventsWith | src/Ozzy.Core/Disruptor/Dsl/Disruptor.cs:82-97 | new processors without a barrier, beginning where asked, all of them ends |
| ProcessorGraph.Disruptor.After | src/Ozzy.Core/Disruptor/Dsl/Disruptor.cs:142-151 | finds the processor of each handler, in order, and refuses exactly unknown ones |
| ProcessorGraph.Disruptor.And | src/Ozzy.Core/Disruptor/Dsl/EventHandlerGroup.cs:28-36 | extends a group by the processors of more handlers |
| ProcessorGraph.Disruptor.Then | src/Ozzy.Core/Disruptor/Dsl/EventHandlerGroup.cs:61-75 | new processors behind the group, beginning at -1; no member of the group stays an end |
| ProcessorGraph.Disruptor.AddProcessor | src/Ozzy.Core/Disruptor/Dsl/EventProcessorRepository.cs:19-23 | a custom processor, or one registered again, becomes an end, and the graph stays well formed |
| ProcessorGraph.Disruptor.UnmarkEventProcessorsAsEndOfChain | src/Ozzy.Core/Disruptor/Dsl/EventProcessorRepository.cs:46-52 | exactly the named processors lose their mark |
| ProcessorGraph.Disruptor.LastEventProcessorsInChain | src/Ozzy.Core/Disruptor/Dsl/EventProcessorRepository.cs:25-33 | lists exactly the ends of the graph |
| ProcessorGraph.Disruptor.Start | src/Ozzy.Core/Disruptor/Dsl/Disruptor.cs:186-200 | gates on exactly the ends; the second start is refused |
| ProcessorGraph.EndBelow | src/Ozzy.Core/Disruptor/Dsl/Disruptor.cs:278-281 | below every processor there is an end that is not ahead of it |
| ProcessorGraph.EndsGateEverybody | src/Ozzy.Core/Disruptor/Dsl/Disruptor.cs:188-189 | the minimum over the ends is the minimum over all processors |
| RingBase.StepKeepsBase | src/Ozzy.Core/Disruptor/AbstractMultiThreadedClaimStrategy.cs:59-182 | every step keeps scans, cached minima, filled sequences and positions in order, also where slots may be overwritten |
| RingInvariant.ClaimsReach | src/Ozzy.Core/Disruptor/MultiThreadedClaimStrategy.cs:45-49 | while a batch waits in front of the guard, what is claimed and can be published reaches at most a pending window and a batch of each other thread above its first sequence |
| RingInvariant.StepKeepsInv | src/Ozzy.Core/Disruptor/AbstractMultiThreadedClaimStrategy.cs:59-182 | in a well-started ring every step of producers, publishers and consumers keeps the end-to-end invariant, slots and logs included |
| RingPipeline.FinishedScanIsFloor | src/Ozzy.Core/Disruptor/Util.cs:41-52 | a scan of the ends whose reads happened at different times bounds every consumer |
| RingResults.HandlersSeeWhatWasWritten | src/Ozzy.Core/Disruptor/BatchEventProcessor.cs:93-121 | each consumer's log is gap-free and repetition-free from its own start on, final, carries the event written for each sequence above the ring's start, and stays behind its upstream handlers |
| RingResults.GenuineExactly | src/Ozzy.Core/Disruptor/Dsl/Disruptor.cs:255-267 | a log is genuine throughout if and only if its processor begins no earlier than the ring, or has read nothing |
| RingResults.UnreadEventsSurvive | src/Ozzy.Core/Disruptor/AbstractMultiThreadedClaimStrategy.cs:133-163 | no producer overwrites what some consumer has still to read |
| RingResults.AtMostOneLap | src/Ozzy.Core/Disruptor/AbstractMultiThreadedClaimStrategy.cs:149-163 | an event filled in is at most one lap above every consumer |
| RingResults.EndsAreSlowest | src/Ozzy.Core/Disruptor/Dsl/Disruptor.cs:186-189 | in every reachable state the slowest end is the slowest processor |
| RingResults.NoBacklogMeansDone | src/Ozzy.Core/Disruptor/Dsl/Disruptor.cs:248-253 | when HasBacklog is false and publishing has stopped every processor has handled everything between its start and the cursor |
| RingResults.RacyCapacityTest | src/Ozzy.Core/Disruptor/Sequencer.cs:219-224 | cursor, gates and cursor again read at different moments never admit a number a lap above a consumer |
| RingProgress.TryNextAlone | src/Ozzy.Core/Disruptor/AbstractMultiThreadedClaimStrategy.cs:77-95 | TryNext(n), left alone, claims one sequence if the slowest gate leaves room for n, and returns without a claim otherwise |
| RingProgress.LostClaimTriesAgain | src/Ozzy.Core/Disruptor/AbstractMultiThreadedClaimStrategy.cs:77-95 | a compare-and-set that somebody else has beaten is tried again with the new claim sequence, with the same outcome as a new call |
| RingProgress.NextAlone | src/Ozzy.Core/Disruptor/AbstractMultiThreadedClaimStrategy.cs:59-68 | Next(), left alone, claims the next sequence where the slowest gate leaves room |
| RingProgress.NextWaits | src/Ozzy.Core/Disruptor/AbstractMultiThreadedClaimStrategy.cs:133-147 | without room it claims nothing, however long it looks |
| RingProgress.NextBatchAlone | src/Ozzy.Core/Disruptor/AbstractMultiThreadedClaimStrategy.cs:105-111 | Next(batch) claims at once and gets its slots where there is room |
| RingProgress.NextBatchWaits | src/Ozzy.Core/Disruptor/AbstractMultiThreadedClaimStrategy.cs:149-163 | without room it does not get its slots, however long it looks |
| RingDelivery.ProcessorsCatchUp | src/Ozzy.Core/Disruptor/BatchEventProcessor.cs:93-121 | from every reachable state the processors alone reach the cursor, each behind its barrier, and publish their positions |
| RingDelivery.EventArrives | src/Ozzy.Core/Disruptor/BatchEventProcessor.cs:93-121 | through a ring at rest any thread can push an event, and every processor that has reached its place is then given it |
| RingDelivery.ThrowingEndsBatch | src/Ozzy.Core/Disruptor/BatchEventProcessor.cs:115-120 | a handler that throws has handled its event, and the position behind it is published next |
| PipelineStarts.OutrunsExactly | src/Ozzy.Core/Disruptor/BlockingWaitStrategy.cs:62-70 | in the graphs of HandleEventsWith and Then no processor is ever handed an unpublished slot, if and only if each barrier names a processor that begins no later than the ring, or at 0 |
| LateStarts.LateStartOverwrites | src/Ozzy.Core/Disruptor/AbstractMultiThreadedClaimStrategy.cs:149-163 | wherever every processor begins ahead of the ring and the ring is not roomy, a run hands some processor an event that is not its sequence's |
| LateStarts.OverwritesExactly | src/Ozzy.Core/Disruptor/AbstractMultiThreadedClaimStrategy.cs:149-163 | with aligned barriers, every log entry of every run is the event written for its sequence, if and only if some processor begins no later than the ring, or fewer than two threads publish, or a pending window and a batch of each other thread fit into the ring |
| BatchProcessing.BatchEventProcessor.Run | src/Ozzy.Core/Disruptor/BatchEventProcessor.cs:93-121 | for any answers of the barrier each sequence is delivered once, in order, a throwing one too, up to the specified position |
| BatchProcessing.BatchEventProcessor.HandleBatch | src/Ozzy.Core/Disruptor/BatchEventProcessor.cs:98-106 | the position moves behind the batch, or behind the sequence that threw; the end-of-batch flag marks the last available one |
| BatchProcessing.AlertsExactly | src/Ozzy.Core/Disruptor/BatchEventProcessor.cs:108-114 | an alert while the loop is marked as running changes nothing, one after it was halted ends the loop |
| BatchProcessing.ReachedInTurn | src/Ozzy.Core/Disruptor/BatchEventProcessor.cs:93-121 | each answer is taken from where the ones before have led |
| BatchProcessing.ReachesLargest | src/Ozzy.Core/Disruptor/BatchEventProcessor.cs:96-107 | where no handler throws the loop ends at the largest answer, or where it began |
| BatchProcessing.EverythingIsReached | src/Ozzy.Core/Disruptor/BatchEventProcessor.cs:115-120 | throwing handlers delay the consumer by at most one wait each |
| WorkerPool.StepKeepsInv | src/Ozzy.Core/Disruptor/WorkProcessor.cs:75-107 | every step keeps the pool's invariant |
| WorkerPool.UnhandledIsAboveSlowest | src/Ozzy.Core/Disruptor/WorkProcessor.cs:82-87 | an unhandled sequence stays above the slowest worker, also between the shared increment and the own write |
| WorkerPool.ExactlyOnce | src/Ozzy.Core/Disruptor/WorkProcessor.cs:75-107 | no sequence goes to two workers, each sees the event written for it, and no slot is overwritten before every worker has passed it: not what is unhandled, and not what a handler is working on |
| WorkerPool.DrainedMeansHandled | src/Ozzy.Core/Disruptor/WorkerPool.cs:132-147 | when the wait of DrainAndHalt ends everything up to the cursor is handled |
| WorkerProgress.HandlesCovered | src/Ozzy.Core/Disruptor/WorkProcessor.cs:89-93 | a worker that waits for a covered sequence hands it to its handler in its next step, with the event written for it |
| WorkerProgress.WorkersHandleAll | src/Ozzy.Core/Disruptor/WorkProcessor.cs:75-107 | from any moment of any run steps of the workers alone, within a bound, bring everything published so far to a handler |
| WorkerProgress.NextIsServed | src/Ozzy.Core/Disruptor/WorkProcessor.cs:75-107 | and the next sequence can then be filled and published, and is handled by exactly one worker |
| WorkerProgress.DrainEnds | src/Ozzy.Core/Disruptor/WorkerPool.cs:132-147 | from any moment of any run the workers and the draining thread alone come to the end of the wait, with everything published handled |
| BlockingWait.WaitKeepsInv | src/Ozzy.Core/Disruptor/BlockingWaitStrategy.cs:40-60 | every step of a waiter keeps lock, waiter count and pending wake-ups in order |
| BlockingWait.SignalKeepsInv | src/Ozzy.Core/Disruptor/BlockingWaitStrategy.cs:124-133 | so does every step of a signaller, the unlocked read of the count included |
| BlockingWait.NoLostWakeUp | src/Ozzy.Core/Disruptor/BlockingWaitStrategy.cs:40-71 | a parked waiter that is covered or alerted has a signaller between its write and its PulseAll |
| WaitCalls.ReturnsOnlySatisfied | src/Ozzy.Core/Disruptor/BlockingWaitStrategy.cs:40-60 | in every run a call that has returned has met, since it began, a cursor at or above its sequence or an alert of its barrier |
| WaitCalls.CoveredCallReturns | src/Ozzy.Core/Disruptor/BlockingWaitStrategy.cs:42-43 | a call for a sequence that is covered already returns after one look, without lock or mark |
| WaitCalls.UnsatisfiedParks | src/Ozzy.Core/Disruptor/BlockingWaitStrategy.cs:45-53 | left alone, a waiter that is neither covered nor alerted is parked after at most six steps, out of the lock and counted once |
| WaitCalls.CoveredReturns | src/Ozzy.Core/Disruptor/BlockingWaitStrategy.cs:42-60 | left alone, a covered one returns after at most five, and takes its mark back |
| WaitCalls.AlertedReturns | src/Ozzy.Core/Disruptor/BlockingWaitStrategy.cs:51-59 | a waiter that finds its barrier alerted leaves |
| WaitCalls.SignalWakes | src/Ozzy.Core/Disruptor/BlockingWaitStrategy.cs:124-133 | a signaller with a free lock wakes everybody that is parked, and does nothing when nobody is counted |
| BlockingWait.WakeUpIsNotBlocked | src/Ozzy.Core/Disruptor/BlockingWaitStrategy.cs:124-133 | a pending signaller can move, or it waits for the lock and its holder can move |
| BlockingWait.HolderReleases | src/Ozzy.Core/Disruptor/BlockingWaitStrategy.cs:45-59 | each step of a holder brings it nearer to releasing the lock, six steps at most |
| BlockingWait.OthersDoNotDelay | src/Ozzy.Core/Disruptor/BlockingWaitStrategy.cs:45-59 | no other thread's step changes how far the holder has got |
| BlockingWait.StepsUseUpWork | src/Ozzy.Core/Disruptor/BlockingWaitStrategy.cs:40-71 | without new calls and writes every effective step uses up a well-founded measure |
| BlockingWait.StillMeansAwake | src/Ozzy.Core/Disruptor/ProcessingSequenceBarrier.cs:48-52 | where nobody can move any more, no waiter is parked that is covered or alerted |
| DomainEventsLoop.FillGaps | src/Ozzy.DomainModel/DomainEventsLoop.cs:90-117 | the result is exactly checkpoint + 1 to last, one entry each, whichever branch produced it |
| DomainEventsLoop.FullPageHasNoGaps | src/Ozzy.DomainModel/DomainEventsLoop.cs:100-102 | the count shortcut is right: as many records as numbers leave no gap |
| DomainEventsLoop.Loop.constructor | src/Ozzy.DomainModel/DomainEventsLoop.cs:135-160 | after the start the ring stands at the least of the checkpoints, each processor at its own, and nothing is published |
| DomainEventsLoop.Loop.WaitForRoom | src/Ozzy.DomainModel/DomainEventsLoop.cs:81-85 | the wait ends with room for the number within a lap of every processor |
| DomainEventsLoop.Loop.AddEventToDisruptor | src/Ozzy.DomainModel/DomainEventsLoop.cs:78-88 | a record at or below the cursor changes nothing; any other is put into its slot and published alone, and what some processor has still to read stays in its slot |
| DomainEventsLoop.Loop.AddEventForProcessing | src/Ozzy.DomainModel/DomainEventsLoop.cs:66-75 | refused exactly before the start or more than a ring ahead of the cursor |
| DomainEventsLoop.Loop.PollData | src/Ozzy.DomainModel/DomainEventsLoop.cs:119-132 | the cursor ends at or above the list, however long; nothing published is forgotten, and what is new is the truth about its number |
| DomainEventInvariant.FilledByFillGaps | src/Ozzy.DomainModel/DomainEventsLoop.cs:90-117 | the list the machine polls is the one list that `FillGaps` may return for the page |
| DomainEventInvariant.StepKeepsInv | src/Ozzy.DomainModel/DomainEventsLoop.cs:66-165 | commits, fast messages, polls, handlers, saves and restarts keep the invariant |
| DomainEventResults.DeliveredExactly | src/Ozzy.DomainModel/DomainEventsLoop.cs:66-165 | the non-empty records given to a processor are exactly the store's above its own checkpoint up to its position, in order, each once |
| DomainEventResults.FastChannelIsInvisible | src/Ozzy.DomainModel/FastEventChannels/IFastEventPublisher.cs:3-7 | any two runs over the same store give the same entries between the same positions, whatever their fast channels did |
| DomainEventResults.FinishedPollIsCovered | src/Ozzy.DomainModel/DomainEventsLoop.cs:119-132 | when a poll has ended the cursor covers everything its page reached |
| DomainEventSessions.RacyCapacityTest | src/Ozzy.DomainModel/DomainEventsLoop.cs:81-85 | cursor, processors, and cursor again read at different moments of a session: a number that passes may be added at every later moment of it |
| DomainEventResults.FastMessageArrives | src/Ozzy.DomainModel/DomainEventsLoop.cs:66-75 | a fast message is in its slot at once, and covered exactly when everything before it is |
| DomainEventProgress.EverythingIsDelivered | src/Ozzy.DomainModel/DomainEventsLoop.cs:119-165 | from any moment of any run polling and handling alone bring every processor behind every stored record, with all of them offered and the new ones saved |
| DomainEventResults.OnlySuccessMovesCheckpoint | src/Ozzy.DomainModel/DomainEventsProcessor.cs:57-68 | in every run the checkpoint is the initial one or the number of a record whose handler reported success |
| DomainEventResults.SuccessIsSaved | src/Ozzy.DomainModel/DomainEventsProcessor.cs:57-68 | after success the save can be made and raises the checkpoint to the record; after refusal, exception or an empty record none can |
| DomainEventResults.RestartResumes | src/Ozzy.DomainModel/DomainEventsLoop.cs:135-165 | after a crash each processor begins right behind its checkpoint, the ring at the least of them |
| DomainEventResults.NothingIsSkipped | src/Ozzy.DomainModel/DomainEventsProcessor.cs:43-69 | over all crashes the checkpoint only grows and never passes a record not yet offered |
| DomainEventResults.SavedIsNotOfferedAgain | src/Ozzy.Server.EntityFramework/EfCheckpointManager.cs:42-58 | a record whose save was completed is never given to that processor again |
| DomainEventResults.CaughtUpMeansOffered | src/Ozzy.DomainModel/DomainEventsLoop.cs:139-157 | a processor that has read up to the cursor has been offered every record above its initial checkpoint |
| CheckpointManager.EfCheckpointManager.GetCheckpoint | src/Ozzy.Server.EntityFramework/EfCheckpointManager.cs:23-40 | reads the row or creates it at the configured start or the last event; throws exactly without any event |
| CheckpointManager.EfCheckpointManager.SaveCheckpoint | src/Ozzy.Server.EntityFramework/EfCheckpointManager.cs:42-58 | the stored number becomes the larger of old and new |
| CheckpointManager.DomainEventsProcessor.OnNext | src/Ozzy.DomainModel/DomainEventsProcessor.cs:43-69 | offers exactly stored records; the number becomes the larger of the old one and the record's exactly when the handler reports success, and stays otherwise |
| DistributedLock.EfDistributedLockRecord.Acquire | src/Ozzy.Server.EntityFramework/DistributedLocks/EfDistributedLockRecord.cs:31-35 | new id, held exactly until the lease runs out |
| DistributedLock.EfDistributedLockRecord.Release | src/Ozzy.Server.EntityFramework/DistributedLocks/EfDistributedLockRecord.cs:36-39 | new id, free from now on |
| DistributedLock.StepKeepsInv | src/Ozzy.Server.EntityFramework/DistributedLocks/EfDistributedLockService.cs:79-117 | every step of every client keeps the invariant that a running lease is the row |
| DistributedLock.MutualExclusion | src/Ozzy.Server.EntityFramework/DistributedLocks/EfDistributedLockService.cs:79-117 | at every moment of every run at most one lock object is live |
| DistributedLock.StaleHolderChangesNothing | src/Ozzy.Server.EntityFramework/DistributedLocks/EfDistributedLock.cs:53-122 | extending or releasing never changes a row that another client has acquired since |
| LockObjects.EfDistributedLockService.TryAquireLock | src/Ozzy.Server.EntityFramework/DistributedLocks/EfDistributedLockService.cs:79-117 | undisturbed, succeeds if and only if there was no row or its lease had run out; the row is then the object's |
| LockObjects.EfDistributedLock.ExtendLock | src/Ozzy.Server.EntityFramework/DistributedLocks/EfDistributedLock.cs:53-88 | prolongs exactly while the row carries the object's id, otherwise disposes itself and leaves the row alone |
| LockObjects.EfDistributedLock.Dispose | src/Ozzy.Server.EntityFramework/DistributedLocks/EfDistributedLock.cs:90-122 | frees the lease exactly if it is the object's and held |
| LockObjects.UndisturbedClient | src/Ozzy.Server.EntityFramework/DistributedLocks/EfDistributedLockService.cs:79-117 | the machine's client steps, taken in a row, come to the same outcome |
| LockProgress.NewClient | src/Ozzy.Server.EntityFramework/DistributedLocks/EfDistributedLockService.cs:79-117 | a client that arrives undisturbed has a live lock exactly if the row is missing or its lease has run out |
| LockProgress.Prolongation | src/Ozzy.Server.EntityFramework/DistributedLocks/EfDistributedLock.cs:53-88 | an undisturbed extension prolongs under a fresh id exactly if the row is the object's, and otherwise begins to dispose it |
| LockProgress.OvertakenProlongation | src/Ozzy.Server.EntityFramework/DistributedLocks/EfDistributedLock.cs:64-87 | an extension that somebody else has overtaken is refused, and the object begins to dispose itself |
| LockProgress.Disposal | src/Ozzy.Server.EntityFramework/DistributedLocks/EfDistributedLock.cs:90-122 | an undisturbed disposal frees the lease exactly if it is the object's and held |
| LockProgress.Failure | src/Ozzy.Server.EntityFramework/DistributedLocks/EfDistributedLock.cs:76-87 | an exception during an extension disposes the object and leaves the row |
| LockProgress.LeaseRunsOut | src/Ozzy.Server.EntityFramework/DistributedLocks/EfDistributedLockService.cs:79-117 | a lease that nobody prolongs is held until its time has run out, and then a new client gets the lock |
| Queues.EfQueueRepository.Put | src/Ozzy.Server.EntityFramework/Queues/EfQueueRepository.cs:28-45 | a queued row, not yet tried, with queue, payload, limit and time of the call |
| Queues.EfQueueRepository.Fetch | src/Ozzy.Server.EntityFramework/Queues/SqlServerEfQueueRepository.cs:9-39 | marks the oldest queued row of the queue as fetched until the timeout asked for and changes nothing else, or finds none |
| Queues.EfQueueRepository.Acknowledge | src/Ozzy.Server.EntityFramework/Queues/EfQueueRepository.cs:77-86 | removes exactly the named row, throws for an unknown id |
| Queues.EfQueueRepository.GetTimeoutedItems | src/Ozzy.Server.EntityFramework/Queues/EfQueueRepository.cs:88-108 | copies of exactly the timed-out rows, each once |
| Queues.EfQueueRepository.RequeueItem | src/Ozzy.Server.EntityFramework/Queues/EfQueueRepository.cs:110-124 | the row is queued again with the new count and the copy's creation time, every other row stays; throws for a missing one |
| Queues.EfQueueRepository.MoveToDeadMessageQueue | src/Ozzy.Server.EntityFramework/Queues/EfQueueRepository.cs:126-138 | moves the row to the dead letters in one transaction |
| Queues.QueuesFaultManager.ProcessTimeoutedItems | src/Ozzy.Server/Queues/QueuesFaultManager.cs:17-34 | one undisturbed pass requeues or buries exactly the timed-out rows and leaves the others alone |
| QueueRuns.StepKeepsInv | src/Ozzy.Server.EntityFramework/Queues/EfQueueRepository.cs:28-138 | every interleaving of put, fetch, acknowledge and the fault manager's steps keeps places and counts |
| QueueRuns.ExactlyOnePlace | src/Ozzy.Server.EntityFramework/Queues/EfQueueRepository.cs:28-138 | every item put is in exactly one of table, acknowledged and dead |
| QueueRuns.FetchesAreBounded | src/Ozzy.Server/Queues/QueuesFaultManager.cs:20-33 | fetched at most MaxRetries + 1 times; RetryCount and status show how often |
| QueueProgress.NothingIsGarbled | src/Ozzy.Server.EntityFramework/Queues/EfQueueRepository.cs:110-124 | through any number of retries rows and dead letters carry the queue, payload and time that were put |
| QueueProgress.TimesOutExactly | src/Ozzy.Server.EntityFramework/Queues/EfQueueRepository.cs:88-108 | a pass lists an item exactly if it is fetched and the time its last fetch asked for has run out |
| QueueProgress.FetchLends | src/Ozzy.Server.EntityFramework/Queues/SqlServerEfQueueRepository.cs:9-39 | in every run a fetch lends one row until now plus the timeout and touches no other |
| QueueProgress.AbandonedItemsDie | src/Ozzy.Server/Queues/QueuesFaultManager.cs:17-34 | without acknowledgements fetching, waiting and the fault manager bring every item to the dead letters, fetched as often as its retries allow |
| QueueRuns.Drains | src/Ozzy.Server/Queues/QueuesFaultManager.cs:17-34 | while nothing is put, only as many steps can change the tables as the rows weigh |
| QueueRuns.RowsCanMove | src/Ozzy.Server/Queues/QueuesFaultManager.cs:17-34 | while a row is left it can be fetched, or time and the next pass treat it |
| SagaStore.EfSagaRepository.SaveSaga | src/Ozzy.Server.EntityFramework/Saga/EfSagaRepository.cs:74-90 | commits record and outbox together exactly when the version loaded is still current |
| SagaStore.EfSagaRepository.HandleEvent | src/Ozzy.Server/Saga/SagaDomainEventHandler.cs:71-102 | undisturbed, commits the handler's result one version up, for an unknown saga under a fresh id |
| SagaStore.StepKeepsInv | src/Ozzy.Server/Saga/SagaDomainEventHandler.cs:71-102 | load, react and save of any number of handlers keep the invariant |
| SagaStore.SagaIsFoldOfCommits | src/Ozzy.Server.EntityFramework/Saga/EfSagaRepository.cs:74-90 | the stored saga is its code run over the committed messages in commit order, the version their number |
| SagaStore.OutboxIsExact | src/Ozzy.Server.EntityFramework/Saga/EfSagaRecord.cs:24-28 | the event store holds each committed transition's commands once, in order, and nothing else |
| SagaStore.StaleWritersAreRefused | src/Ozzy.Server.EntityFramework/Saga/EfSagaRepository.cs:84-88 | a writer is refused if and only if the saga has moved on, and then changes nothing |
| SagaStore.UndisturbedHandler | src/Ozzy.Server/Saga/SagaDomainEventHandler.cs:71-102 | at any moment of any run an undisturbed handler commits its message to its saga, one version up, with exactly that transition's commands |
| SagaStore.HandlersKeepTheirTask | src/Ozzy.Server/Saga/SagaDomainEventHandler.cs:71-102 | through all interleavings a handler commits the saga and the message it was given, or nothing |
| Histogram.Histogram.Create | src/Ozzy.Core/Disruptor/Collections/Histogram.cs:24-51 | refuses exactly bounds that are not positive and strictly increasing |
| Histogram.BinIsFirst | src/Ozzy.Core/Disruptor/Collections/Histogram.cs:88-103 | the linear scan finds the first bound at or above the value |
| Histogram.Histogram.FindBin | src/Ozzy.Core/Disruptor/Collections/Histogram.cs:88-103 | the binary search picks the bin of the linear scan |
| Histogram.Histogram.AddObservation | src/Ozzy.Core/Disruptor/Collections/Histogram.cs:86-113 | accepts exactly what some bound reaches and records exactly it; throws without bounds |
| Histogram.Histogram.AddObservations | src/Ozzy.Core/Disruptor/Collections/Histogram.cs:132-154 | throws for other bounds; otherwise the counters are those of all observations, and the object stands for them if and only if the other was not empty or the range was already the widest |
| Histogram.MergeIsReplay | src/Ozzy.Core/Disruptor/Collections/Histogram.cs:147-150 | adding counters is replaying the other histogram's observations |
| Histogram.Histogram.Count | src/Ozzy.Core/Disruptor/Collections/Histogram.cs:174-187 | the number of accepted observations |
| Histogram.CountsConserve | src/Ozzy.Core/Disruptor/Collections/Histogram.cs:174-187 | no accepted observation is lost or counted twice |
| Histogram.Histogram.Mean | src/Ozzy.Core/Disruptor/Collections/Histogram.cs:212-240 | the loop with its running lower bound computes the sum of the clipped mid points over the count, to the nearest hundredth, away from zero at a tie |
| Histogram.ClippedExactly | src/Ozzy.Core/Disruptor/Collections/Histogram.cs:221-235 | the interval of a bin is exactly what falls into it and into the observed range |
| Histogram.MidPointIsMiddle | src/Ozzy.Core/Disruptor/Collections/Histogram.cs:229 | a mid point is the middle of that interval, rounded down |
| Histogram.MeanIsClose | src/Ozzy.Core/Disruptor/Collections/Histogram.cs:204-240 | the mean lies between Min and Max and misses the true mean by at most the largest half width and half a cent |
| Histogram.PrefixCounts | src/Ozzy.Core/Disruptor/Collections/Histogram.cs:268-283 | the counters up to a bin count exactly the observations at or below its bound |
| Histogram.Histogram.GetUpperBoundForFactor | src/Ozzy.Core/Disruptor/Collections/Histogram.cs:263-287 | with k the integer nearest to the factor's share, the even one at a tie: the least bound with more than k observations at or below it, or with all of them when k is all |
| Histogram.Histogram.Clear | src/Ozzy.Core/Disruptor/Collections/Histogram.cs:159-168 | the object stands for no observation |

## Left out

- PublishExactly.StrandingExactly: replaces the promise that no publication is ever stranded and that publishing cannot deadlock, because both are false of the code; it gives the exact conditions.
- ClaimStrategy.CapacityTest.CheckAndIncrement: alone, so its compare-and-set never fails; the retry is part of `RingPipeline`.
- DomainEventsLoop.Loop.AddEventForProcessing: a lone message beyond the pending window is excluded, because its call would spin until somebody else moves the cursor.
- DomainEventsLoop.Loop.WaitForRoom: between two looks every processor behind the cursor is taken to move on.
- LateStarts.OverwritesExactly: for rings whose barriers are aligned; where they are not, unpublished slots are handed out already (`OutrunsExactly`, for the graphs that the DSL builds). Starting positions are 64-bit numbers.
- Histogram.MeanIsClose: computes in real numbers, so the 28 digits of `decimal` and the 64-bit product of mid point and counter are not modelled.
- Histogram.Histogram.GetUpperBoundForFactor: multiplies in real numbers, so the rounding of `double` before `Math.Round` is not modelled.
- DomainEventResults.DeliveredExactly: takes a call of `AddEventToDisruptor` as one step, so two such calls for one number at the same moment, and a store that commits a number below one already polled, are not modelled.
- RingResults.NoBacklogMeansDone: says what an empty backlog means, not that one is reached; a processor that starts above the cursor keeps `HasBacklog` true.
- RingResults.HandlersSeeWhatWasWritten: the claim counter begins at the ring's start, as after `Sequencer.Claim`; the code's begins at -1, so that `Next` on a ring with another start first hands out sequences that are covered already.
- WorkerPool.ExactlyOnce: how producers claim and publish is the subject of `RingPipeline`; here they fill, in any order, any sequence that nobody has filled and that their cached minimum lets in, and the cursor follows over filled ones. `Halt` is not modelled.
- BlockingWait.NoLostWakeUp: the wait with a timeout and the dependents' spin loop after it are not part of the model.
- DistributedLock.MutualExclusion: one lock name; the fresh id is drawn at the commit; timers are steps that may come at any moment.
- QueueRuns.Drains: a fetch is one atomic statement; the read and the write of `EfQueueRepository.Fetch` are two, and two fetchers can then take the same item.
- SagaStore.SagaIsFoldOfCommits: the correlation of events with sagas, the dictionary of handlers and the deletion of a completed saga are not part of the model.
- `BlockingWaitStrategy`, `WorkProcessor`, `WorkerPool` and `ProcessingSequenceBarrier` exist as step relations only: what is hard about them is their interleavings.
- The memory model, fences and padding of `Volatile`, 64-bit overflow of sequences, buffers above 2^30.
- `Purge` of the queue repository, which nothing calls.
- `Halt` racing with the start of `Run`, `ForcePublish`, `Claim` of a chosen sequence, `SequenceGroup`, and the other wait and claim strategies.
- Custom processors registered without a handler: they gate, but `Disruptor.Start` does not start them.
- The background tasks, the back office, serializers, event source proxies, configuration and the in-memory repositories.
