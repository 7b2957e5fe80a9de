# Hamerkop, verified

A Dafny model of the data structures and protocols under hamerkop, an io_uring executor: its slot
allocator, the submission and completion rings, the executor itself with an abstract kernel, the
metrics cells, and the in-place algorithms of the executor and of the ping server. To verify it, run
`dafny verify dfyconfig.toml` in this directory.

## How it is built

* **Slotmap.** `SlotSpec` holds the allocator as a value (flat entries, free-list head, size) and proves
  that it is a finite map; `StableSlotmaps` is the class over heap-allocated slabs, refined to it.
* **Rings.** `Bits` defines `&` on naturals. `RingBuf` has masked indexing and two-slice iteration,
  `SubmissionRing` the wrapping distance, `LinkedSubmission` the queue and the linked submitter,
  `CompletionRing` the completion queue, the last two as state machines with kernel steps. Counters are
  the shared 32-bit words and wrap as release builds wrap them; unbounded histories stand beside them.
  With overflow checks on, `tail - head`, `head + count` and `tail + count` panic at the wrap instead.
* **Executor.** `Executor` is the transition system: user steps (create, fill, submit, abandon, poll,
  drop, spawn), kernel steps (take an SQE, post its one CQE, pick or accept a pool buffer) and
  scheduler steps (`process_cqes` for both callers, `turn` from setup to the polling loop, a task that
  panics). `ExecutorMaps` restates its operations on maps, `ExecutorRouting`, `ExecutorLive`,
  `ExecutorPlaces` and `ExecutorBuffers` hold the four invariants, and `ExecutorSteps` shows that each step
  keeps them. What follows for every run is in `ExecutorRuns` (routing, buffers), `ExecutorLeaks`,
  `ExecutorTasks` (task ids), `ExecutorWakeups` (wake-ups, panics) and `ExecutorEffects` (what single steps
  change, the counters, the course of a turn); `ExecutorScenarios` walks through runs in which something
  goes wrong. `ExecutorObjects` has `IOContext` and the scheduler as classes whose methods and
  loops are proved against the functions of the transition system. Its `sq` and `cq` are plain queues;
  `ExecutorRings` runs the executor beside the rings of `LinkedSubmission` and `CompletionRing` and proves
  that the two agree.
* **Metrics.** `LazyCell` is a state machine over the atomic steps of any number of threads.
  `RealPow` and `SketchIndex` have the bucket formulas over exact reals, `SketchSpec` what a list of
  samples leaves in a sketch, `SketchQuantile` what `quantile` makes of it and how accurate that is,
  `DDSketches` the class, and `ConcurrentSketch` the interleaved atomic steps of `insert_n`. Sums over
  buckets are u64 sums that wrap as release builds wrap them.
* **In-place algorithms.** `Dedup`, `FixedVecs`, `DisjointChunks` and `PingServer`.

The kernel is a step of the environment with this contract: each SQE it takes completes with one CQE; a
successful provide puts the buffer into the pool; a successful buffer-selecting read carries a pool
buffer, removed from the pool, into which as many bytes as the result says were written; a failed read
may or may not consume a pool buffer. Sequence numbers, payload records and similar fields named as
history exist in the model only.

## Where the code and its documentation differ

The model follows the code.

* The comment on `wrapping_dist` (`uring/src/sqe.rs:209`) has its operands reversed and says "> 1"; the
  code, like its tests, gives the least step of at least one from `b` to `a`.
* A full submission queue is taken for an empty one. Starting a batch there hands out slots that the
  kernel still owns; `BatchStartIsSafeIffNotFull` and `ExposedSlotsDisjoint` give the exact condition, and
  one batch of as many SQEs as there are slots gets there (`FullQueueReachable`).
* `has_next` compares raw counters; `HasNextExact` says when it is right, and in `HasNextLies` it denies
  that the event after 2^32 - 1 others is there.
* `DDSketch` promises a relative error of `alpha` for every value up to the limit
  (`metrics/src/ddsketch.rs:190-193`). What is returned breaks that in both regions. Exact buckets are
  sent through the same power as log buckets (`PrecisionFailsBelowCutoff`: 4 is reported as 2). The
  estimate of a log bucket is within `alpha` of its samples, but rounding it to an integer can leave that
  range (`PrecisionFailsInLogBucket`: 9 is reported as 8). `PreciseIff` is the exact condition, a test on
  `alpha` and the sample alone: what is reported for the sample, rounded, has to be within `alpha` of it.
  The executor's own sketch fails it for 4 (`PrecisionFailsForOwnSketch`). A sample in the very last bucket
  is reported as the maximum, up to gamma times the sample; `LastBucketUnused` says when no log sample
  gets there.
* `DDSketch::new` documents a panic only for `alpha` outside (0, 1); by `EveryValueHasABucketIff` large
  samples index past the buckets exactly when `alpha >= 1/3`.
* `dedup_partial` says that it subsumes `Vec::dedup`. Because `swap_remove` reorders, that holds for
  neighbours in the result, not for neighbours in the input: both copies of a word can
  survive (`InputNeighboursMaySurvive`). `CopiesExact` says how many copies of a value are left, `OneCopyIff`
  and `NoDuplicatesIff` exactly when it is one; `CollisionFreeNoDuplicates` is the case without collisions.
* `turn` promises that no task id is reused before its next call. `spawn_dyn` on the runtime breaks that
  exactly when some id used since the last turn began is free again (`SpawnReusesIff`, `IdReusedWithinTurn`).
  Apart from it only the setup of a turn gives out ids (`TaskIdsGivenOutIff`).
* Buffers leak. A buffer refused by the kernel is cleaned up after its future was dropped only if the
  drop came before the CQE was processed (`RefusedBufferAfterDrop`), and a buffer filled by a successful
  read whose future was dropped is never freed at all. A linked batch that is dropped without `submit`
  takes its buffers with it (`AbandonedBatchLeaks`), and also the completion slots of all its requests,
  whose futures wait for ever (`AbandonedForever`). `LeaksExactly` lists the four ways in which a state
  comes about from which there is no way back for a buffer, `LeakedForever` says that no run ever gets
  one back.
* A panicking task makes `turn` forget the rest of its queue. `OnlyPanicsLose` says which wake-ups are lost,
  `LostUntilWokenElsewhere` what could still bring one back, and in `PanicLosesWakeup` the next turn waits in
  the kernel while a task that lives on could run.
* When `submit` tries again after EBUSY or EAGAIN it waits again, although `process_cqes` may have woken a
  task in between (`RetryWaitsDespiteWokenTask`). By `WaitIsHarmlessIff` the wait is harmless exactly if
  `woken` is empty, which the retry could test.
* The ping server keeps at most 65536 bytes between rounds, while a round can leave four bytes more than
  the one before: 16383 rounds are safe, round 16384 need not be.

## Model

| member | source | states |
|---|---|---|
| SlotSpec.InsertRefines | hamerkop/src/stable_slotmap.rs:41-54 | insert yields a key that was not in the map, adds exactly that binding, pops the free list, and adds a slab only when every slot was occupied |
| SlotSpec.RemoveRefines | hamerkop/src/stable_slotmap.rs:55-72 | remove returns and deletes exactly the binding of an occupied key and pushes its slot; on any other key it changes nothing |
| SlotSpec.ExpandKeepsChain | hamerkop/src/stable_slotmap.rs:131-136 | a new slab is a free list of all its slots in order and changes no binding |
| SlotSpec.SizeCountsElements | hamerkop/src/stable_slotmap.rs:31-34 | size is the number of elements |
| SlotSpec.ReplayRefinesMap | hamerkop/src/stable_slotmap.rs:41-136 | after any sequence of calls the slotmap equals a map fed the same calls, the free list visits every free slot once and ends at the sentinel, and the slabs hold fewer than peak + 1024 slots |
| SlotSpec.PeakIsAttained | hamerkop/src/stable_slotmap.rs:123-136 | the peak in that bound is a size the map really had |
| StableSlotmaps.CreateSlab | hamerkop/src/stable_slotmap.rs:157-170 | the slab built in the loop is the chain of its slots followed by the old head |
| StableSlotmaps.StableSlotmap.constructor | hamerkop/src/stable_slotmap.rs:23-29 | a new slotmap is empty |
| StableSlotmaps.StableSlotmap.SlotAt | hamerkop/src/stable_slotmap.rs:110-115 | index i is offset i % 1024 of slab i / 1024, or nothing past the end |
| StableSlotmaps.StableSlotmap.Expand | hamerkop/src/stable_slotmap.rs:131-136 | one slab is appended; existing slabs stay in place and unchanged |
| StableSlotmaps.StableSlotmap.NextSlot | hamerkop/src/stable_slotmap.rs:123-129 | the head is a free slot afterwards; a slab was added only if there was none |
| StableSlotmaps.StableSlotmap.Insert | hamerkop/src/stable_slotmap.rs:41-54 | in place: same result as the specification, old slabs keep their addresses, the tight bound is kept |
| StableSlotmaps.StableSlotmap.Remove | hamerkop/src/stable_slotmap.rs:55-72 | in place: same result as the specification, no slab moves |
| StableSlotmaps.StableSlotmap.Get | hamerkop/src/stable_slotmap.rs:74-79 | looks the key up in the map |
| StableSlotmaps.StableSlotmap.Len | hamerkop/src/stable_slotmap.rs:31-34 | the number of bindings |
| StableSlotmaps.InsertKeepsAccount | hamerkop/src/stable_slotmap.rs:123-136 | slabs * 1024 < peak + 1024 survives every insert |
| Bits.MaskTest | uring/src/ringbuf.rs:53-57 | the constructor's test accepts exactly the masks 2^k - 1 |
| RingBuf.IndexInBounds | uring/src/ringbuf.rs:64-78 | every index stays in the backing store; get yields the slot of counter offset + index, and nothing exactly past the end |
| RingBuf.IndexingDistinct | uring/src/ringbuf.rs:64-78 | different indices within the view hit different slots |
| RingBuf.IterationMatchesIndexing | uring/src/ringbuf.rs:144-159 | the two chained slices enumerate get(0) .. get(size - 1) |
| RingBuf.IterationExact | uring/src/ringbuf.rs:144-159 | they do so exactly when the offset is masked, or one past the mask with a slot to spare |
| SubmissionRing.WrappingDistUnique | uring/src/sqe.rs:209-221 | the distance is the only v in 1..=size with (b + v) & mask == a & mask, for all u32 a and b |
| SubmissionRing.FreeSlots | uring/src/sqe.rs:37-45 | free_sqes is the capacity minus the SQEs in flight, except that a full queue reads as empty |
| SubmissionRing.ExposedSlotsDisjoint | uring/src/sqe.rs:53-67 | sqes() exposes none of the slots in flight exactly when the queue is not full |
| LinkedSubmission.SubmissionQueue.FreeSqes | uring/src/sqe.rs:37-45 | between one and the capacity: the first step from the tail that comes round to the slot of the head |
| LinkedSubmission.SubmissionQueue.SqeSlot | uring/src/sqe.rs:53-67 | the slot i places after the tail, inside the array, given exactly if no step up to i comes round to the head |
| LinkedSubmission.SubmissionQueue.Advance | uring/src/sqe.rs:70-75 | only the tail moves, by count modulo 2^32 |
| LinkedSubmission.SubmissionQueue.SubmitAndWait | uring/src/sqe.rs:100-126 | enters the kernel exactly when there is something to submit or to wait for; a failed call leaves the same SQEs to be submitted |
| SubmissionRing.CounterDistance | uring/src/sqe.rs:101-102 | the submitted count is exact across a wrap of the tail |
| LinkedSubmission.LinkedSubmitter.SubmitSqe | hamerkop/src/executor/handle.rs:234-261 | fills exactly the next slot of the batch with the link flag set; fails, changing nothing, exactly if the batch has come round to the head |
| LinkedSubmission.LinkedSubmitter.Submit | hamerkop/src/executor/handle.rs:413-421 | clears the link flag of the batch's last SQE, changes no other SQE, and moves the tail over the batch |
| LinkedSubmission.FillKeepsInv | hamerkop/src/executor/handle.rs:246-258 | preparing an SQE harms nothing published, and fails exactly when all slots are used |
| LinkedSubmission.PublishKeepsInv | hamerkop/src/executor/handle.rs:413-421 | submit moves the tail by exactly count and publishes one whole chain |
| LinkedSubmission.TakeKeepsInv | uring/src/sqe.rs:70-75 | the kernel takes published SQEs only, unharmed and in order; a draft is invisible to it |
| LinkedSubmission.ChainsAreBatches | hamerkop/src/executor/handle.rs:254-258 | splitting the published stream at unlinked SQEs gives back the submitted batches |
| LinkedSubmission.LinkedChainsPublishAtomically | hamerkop/src/executor/handle.rs:413-421 | in every run the kernel has taken a prefix of the published stream, whose IO_LINK runs are exactly the batches; nothing pending is overwritten |
| LinkedSubmission.BatchStartIsSafeIffNotFull | uring/src/sqe.rs:53-67 | starting a batch leaves the SQEs in flight intact exactly when the queue is not full |
| LinkedSubmission.FullQueueReachable | hamerkop/src/executor/handle.rs:241-258 | on every ring a batch of as many SQEs as slots fills the queue, and the next batch overwrites an SQE that the kernel has not taken |
| CompletionRing.CompletionQueue.Available | uring/src/cqe.rs:23-36 | the view counts from head to tail, meets what the ring view asks for, and its i-th entry is the slot of counter head + i |
| CompletionRing.CompletionQueue.Advance | uring/src/cqe.rs:42-55 | only the head moves |
| CompletionRing.HandleKeepsInv | hamerkop/src/executor/handle.rs:64-71 | each round of the loop handles the next posted event, however many the kernel posts meanwhile |
| CompletionRing.AvailableIsWindow | uring/src/cqe.rs:23-36 | iterating over available yields exactly the unprocessed events, oldest first |
| CompletionRing.ExactlyOnceInOrder | hamerkop/src/executor/handle.rs:59-93 | under any interleaving with the kernel, what was posted is what was handled followed by the live window |
| CompletionRing.HasNextLies | uring/src/cqe.rs:84-86 | on a ring of any size some run ends with an unhandled event that has_next denies |
| CompletionRing.HasNextExact | uring/src/cqe.rs:84-86 | has_next tells the truth exactly when the queue is empty or head and tail are in the same 2^32 lap |
| ExecutorMaps.ProcessOneMap | hamerkop/src/executor/handle.rs:64-91 | a CQE is stored in its slot and wakes its poller; for a dead slot it frees the completion and, on error, the buffer |
| ExecutorMaps.PollPendingMap | hamerkop/src/executor/future.rs:70-87 | a poll without a CQE records the polling task and changes nothing else |
| ExecutorMaps.PollReadyMap | hamerkop/src/executor/future.rs:70-103 | a poll with a CQE frees the completion and hands out what the call is owed |
| ExecutorMaps.DropFutureMap | hamerkop/src/executor/future.rs:90-104 | a drop frees a completed slot and marks an uncompleted one dead |
| ExecutorMaps.ConcludeMap | hamerkop/src/executor/handle.rs:277-295 | a successful read removes and returns its buffer with the new length; an unsuccessful provide its own buffer with the old one |
| ExecutorRouting.OnlyOne | hamerkop/src/executor/future.rs:32-45 | of the requests on their way, no two carry the same id |
| ExecutorRouting.RoutingAdds | hamerkop/src/executor/future.rs:32-45 | adding a request under an unused id keeps the routing invariant |
| ExecutorRouting.RoutingDelivers | hamerkop/src/executor/handle.rs:64-91 | handling a CQE retires exactly its own id |
| ExecutorLive.StoreKeeps | hamerkop/src/executor/handle.rs:71-90 | storing a request's own CQE in its slot, with the poller queued, keeps the invariants of futures and wake-ups, the new debt included |
| ExecutorLive.ForgetKeeps | hamerkop/src/executor/future.rs:100-101 | freeing a slot with its future disturbs no other future and no other wake-up |
| ExecutorLive.AbandonKeeps | hamerkop/src/executor/future.rs:102-103 | an early drop marks the slot dead and keeps it occupied |
| ExecutorBuffers.PostProvided | hamerkop/src/executor/handle.rs:366-378 | an accepted buffer moves from its request to the pool |
| ExecutorBuffers.PostRead | hamerkop/src/executor/handle.rs:268-274 | a read takes its buffer from the pool and nobody else's changes |
| ExecutorBuffers.ReleaseKeeps | hamerkop/src/executor/handle.rs:75-87 | freeing a slot while removing or leaking the one buffer its request held keeps the ownership of all other buffers |
| ExecutorSteps.BufferIdFits | hamerkop/src/executor/handle.rs:356-376 | behind the guard every buffer id is at most 65535, so the cast to u16 loses nothing |
| ExecutorSteps.StepKeepsOk | hamerkop/src/executor/runtime.rs:75-143 | every step of user, kernel and scheduler keeps routing, futures, buffers, wake-ups and the scheduler's accounts, and does not panic |
| ExecutorRuns.CompletionsRouted | hamerkop/src/executor/handle.rs:55-94 | in every run the ids in flight are pairwise distinct and each names an occupied slot without CQE that still belongs to its request; nothing panics |
| ExecutorRuns.CompletionsAccounted | hamerkop/src/executor/future.rs:90-104 | in every run each occupied completion slot has its request on its way or in a batch that was dropped unsubmitted, or a live future to collect its CQE |
| ExecutorRuns.PollDelivers | hamerkop/src/executor/handle.rs:277-295 | a ready future gets the event its own request caused; a read gets exactly the kernel's bytes, a refused buffer comes back with its contents and length |
| ExecutorRuns.BuffersOwnedOnce | hamerkop/src/executor/handle.rs:344-411 | in every run each occupied buffer slot is in the pool, with exactly one request, or leaked; nothing else is ever named |
| ExecutorRuns.RefusedBufferAfterDrop | hamerkop/src/executor/handle.rs:75-87 | a refused buffer whose future was dropped is freed, by either caller of process_cqes, if the drop came before the CQE was processed, and leaked if after |
| ExecutorLeaks.LeakedIff | hamerkop/src/executor/handle.rs:344-411 | the record of leaks agrees with the state: a buffer is leaked exactly if its slot is occupied, the kernel does not have it, and whoever holds it waits for a CQE that nothing can bring |
| ExecutorLeaks.LeaksExactly | hamerkop/src/executor/future.rs:90-104 | a step leaves a buffer without a way back exactly if there was none before, or it drops a future whose processed CQE holds it, processes the CQE of a dropped read that succeeded with it, fails a read that used it up, or drops a batch that offers it |
| ExecutorLeaks.LeakedForever | hamerkop/src/executor/handle.rs:75-87 | along every run, once there is no way back for a buffer there never is one again |
| ExecutorLeaks.AbandonedForever | hamerkop/src/executor/handle.rs:413-421 | along every run the completions of a batch that was dropped unsubmitted stay occupied, without a CQE and without anything that could bring one |
| ExecutorEffects.RequestEffect | hamerkop/src/executor/handle.rs:234-261 | a new request brings exactly one unpolled completion, one live future and one SQE, which name each other |
| ExecutorEffects.ProvideEffect | hamerkop/src/executor/handle.rs:344-411 | provide_buffer is refused, changing nothing, exactly if 65535 buffers are around; otherwise the emptied buffer gets a fresh slot and a request that remembers it as it was |
| ExecutorEffects.MustWaitOutlivesRequest | hamerkop/src/executor/future.rs:90-142 | a future that must be waited for is given up only after its CQE was processed |
| ExecutorEffects.SetupEffect | hamerkop/src/executor/runtime.rs:75-95 | after the setup of a turn the queue is the old one, then the new ids in the order of their insertion, then woken, which is empty; the turn submits exactly if something is queued or there is nothing to do |
| ExecutorEffects.AsksForNoneIff | hamerkop/src/executor/runtime.rs:88-91 | turn asks the kernel for no CQE exactly if one is there or a task is queued, and for one otherwise |
| ExecutorEffects.AsksForAtMostOne | hamerkop/src/executor/runtime.rs:88-93 | in every run the kernel is never asked for more than one CQE |
| ExecutorEffects.CountersExact | hamerkop/src/executor/handle.rs:413-421 | in every run created, queued and the SQEs not yet announced are the futures spawned and the SQEs published since the last turn, the last submission passed, the last one that succeeded |
| ExecutorEffects.TurnStartsAllSpawned | hamerkop/src/executor/runtime.rs:79-83 | in every run a turn gives out as many ids as futures were spawned since the last one, all of them new |
| ExecutorEffects.PhaseEffect | hamerkop/src/executor/runtime.rs:75-143 | the scheduler goes through a turn in order, and no other step moves it on |
| ExecutorEffects.PollsAfterProcessing | hamerkop/src/executor/runtime.rs:98-126 | in every run a task is polled only after CQEs were processed and the queue deduplicated in that turn |
| ExecutorEffects.DispatchEffect | hamerkop/src/executor/runtime.rs:108-119 | dispatching takes the oldest id and runs its task exactly if it is still there |
| ExecutorEffects.ReturnEffect | hamerkop/src/executor/runtime.rs:128-138 | only a task that is done or panicked is removed; a panic ends the turn and drops the queue |
| ExecutorEffects.DedupEffect | hamerkop/src/executor/runtime.rs:100-102 | the same tasks stay queued, without equal neighbours, and each as often as the scan looks at it without knowing a copy |
| ExecutorTasks.NewTasksQueued | hamerkop/src/executor/runtime.rs:79-83 | a turn gives every future created since the last one a slot of its own and queues it |
| ExecutorTasks.TaskIdsGivenOutIff | hamerkop/src/executor/runtime.rs:79-83 | in every phase, the set of task ids grows exactly in a spawn_dyn on the runtime and in the setup of a turn that finds new futures |
| SlotSpec.FreedKeyIsNext | hamerkop/src/stable_slotmap.rs:41-72 | an insert right after a remove gives the same key and restores all else |
| ExecutorTasks.SpawnReusesIff | hamerkop/src/executor/runtime.rs:71-74 | in every run spawn_dyn queues a future under an id used since the last turn began exactly if some such id is free again |
| ExecutorWakeups.ProcessingOwes | hamerkop/src/executor/handle.rs:88-90 | over a run: a task that polls in vain is owed a wake-up and queued once the CQE is processed, if nobody polled or dropped the future in between |
| ExecutorWakeups.OwedUntilSettled | hamerkop/src/executor/runtime.rs:85-112 | the debt lasts, and the queues keep the task, until the task is dispatched or the completion polled or dropped, which settles it; a panic settles nothing and keeps queued only what is in woken |
| ExecutorWakeups.NoLostWakeup | hamerkop/src/executor/handle.rs:73-90 | in every run a task owed a wake-up is in runqueue or woken, exactly unless a panic lost it and nothing has brought it back since |
| ExecutorWakeups.OnlyPanicsLose | hamerkop/src/executor/runtime.rs:134-138 | a step loses a wake-up exactly if it is a panic and the owed task is in the undrained rest of runqueue and not in woken |
| ExecutorWakeups.LostUntilWokenElsewhere | hamerkop/src/executor/runtime.rs:104-138 | while its task lives, a lost wake-up stays lost exactly until its completion is polled or dropped or another CQE wakes the same task |
| ExecutorWakeups.TurnSettlesDebts | hamerkop/src/executor/runtime.rs:75-143 | what is owed when a turn begins, and was not lost before, is settled when that turn ends without a panic |
| ExecutorWakeups.BlocksOnlyWhenIdle | hamerkop/src/executor/runtime.rs:87-94 | turn decides to wait in the kernel exactly when the queues are empty and no CQE is there, and then all debts are lost ones |
| ExecutorWakeups.WaitIsHarmlessIff | hamerkop/src/executor/handle.rs:38-48 | in every run, while turn waits in the kernel, repetitions included: the run queue is empty, all debts are lost ones exactly if woken is empty, and woken holds exactly the tasks owed something |
| ExecutorWakeups.AnnouncedBeforePolling | hamerkop/src/executor/runtime.rs:87-95 | when a turn processes CQEs, all published SQEs have been announced to the kernel |
| ExecutorScenarios.PanicLosesWakeup | hamerkop/src/executor/runtime.rs:104-138 | in some run of two tasks a panic loses the other one's wake-up and the next turn waits in the kernel |
| ExecutorScenarios.IdReusedWithinTurn | hamerkop/src/executor/runtime.rs:71-74 | in some run a task id is queued for a second future before the next turn |
| ExecutorScenarios.RefusedBufferLeaks | hamerkop/src/executor/handle.rs:366-405 | in some run a refused buffer stays in buffers although no future is left |
| ExecutorScenarios.AbandonedBatchLeaks | hamerkop/src/executor/handle.rs:413-421 | in some run a dropped batch leaves a buffer without a way back and a live future waiting in vain |
| ExecutorScenarios.RetryWaitsDespiteWokenTask | hamerkop/src/executor/handle.rs:38-48 | in some run a retried submission asks to wait while a woken task is owed its wake-up |
| ExecutorRings.MoveKeepsSound | uring/src/sqe.rs:37-75 | every step of the executor goes with steps that the two rings allow, and keeps queue and ring contents in agreement |
| ExecutorRings.RunsReachable | hamerkop/src/executor/handle.rs:55-94 | every run on the rings is a run of the executor |
| ExecutorRings.SqesRouted | hamerkop/src/executor/handle.rs:246-258 | in every run on the rings each SQE slot the kernel has yet to take names an occupied completion without CQE that belongs to its request |
| ExecutorRings.CqesRouted | hamerkop/src/executor/handle.rs:64-71 | in every run on the rings the event read from the completion ring is the oldest unhandled one and names a completion waiting for it |
| ExecutorObjects.IOContext.FromCtx | hamerkop/src/executor/future.rs:32-45 | a fresh id is bound to an event without CQE and task; no other completion and no buffer changes |
| ExecutorObjects.IOContext.ProcessCqes | hamerkop/src/executor/handle.rs:55-94 | the loop handles all available events in order and reports the tasks to wake in order |
| ExecutorObjects.IOContext.ProcessToWoken | hamerkop/src/executor/handle.rs:38-48 | called from submit, those tasks are appended to woken |
| ExecutorObjects.IOContext.Poll | hamerkop/src/executor/future.rs:70-87 | panics exactly on an unknown id; otherwise yields the completion's CQE, if any, and makes the caller its task, changing nothing else |
| ExecutorObjects.IOContext.DropCompletion | hamerkop/src/executor/future.rs:90-104 | panics exactly on an unknown id; a completion with its CQE is deleted, one without is kept and marked dead |
| ExecutorObjects.IOContext.RemoveBuffer | hamerkop/src/executor/handle.rs:283-292 | exactly that buffer is gone, and comes back with its memory and the given length; nothing if there is none |
| ExecutorObjects.Scheduler.Spawn | hamerkop/src/executor/runtime.rs:79-83 | every new future gets a slot and its id goes to the end of the queue |
| ExecutorObjects.Scheduler.StartTurn | hamerkop/src/executor/runtime.rs:75-95 | setup, append of woken, and the decision to submit and to wait, on two separate reads of has_next |
| ExecutorObjects.Scheduler.ProcessCqes | hamerkop/src/executor/runtime.rs:63-67 | the woken tasks go to the run queue |
| ExecutorObjects.Scheduler.Deduplicate | hamerkop/src/executor/runtime.rs:100-102 | the run queue is deduplicated as dedup_partial does it |
| ExecutorObjects.Scheduler.Dispatch | hamerkop/src/executor/runtime.rs:108-119 | takes the oldest id off the queue and runs its task exactly if that is still there |
| ExecutorObjects.Scheduler.TaskReturned | hamerkop/src/executor/runtime.rs:128-133 | a finished task is deleted from the futures and no other, a pending one is kept, and the queue stays |
| ExecutorObjects.Scheduler.TaskPanicked | hamerkop/src/executor/runtime.rs:134-138 | only the panicked task is deleted, and the rest of the queue is dropped |
| ExecutorObjects.LoopIsSteps | hamerkop/src/executor/handle.rs:59-93 | the loop of process_cqes is a row of single steps of the transition system, for both callers |
| LazyCell.StepKeepsInv | metrics/src/lazy_cell.rs:67-152 | every atomic step of every thread and every exclusive operation keeps the protocol; the state byte never decreases and the value never changes |
| LazyCell.InitialisedOnce | metrics/src/lazy_cell.rs:104-152 | the initialiser runs at most once, INIT implies the value is there, all callers see one value, no unreachable arm is reached |
| LazyCell.ForceAnswers | metrics/src/lazy_cell.rs:67-152 | if nobody is initialising and nobody interferes, force returns the value there is, or the one it makes, and panics exactly if the initialiser panics now or did before |
| LazyCell.ForceWaitsForWinner | metrics/src/lazy_cell.rs:132-139 | while another thread initialises, force spins and changes nothing |
| LazyCell.ForceCall | metrics/src/lazy_cell.rs:67-76 | the same from the call to the return, for any thread without a reference |
| LazyCell.ReleaseFrees | metrics/src/lazy_cell.rs:67-76 | giving a reference back changes nothing in the cell and leaves the thread free to call again |
| LazyCell.GetCall | metrics/src/lazy_cell.rs:51-58 | get gives the value exactly if the cell is initialised, and never waits |
| LazyCell.ForceMutAnswers | metrics/src/lazy_cell.rs:78-87 | force_mut hands out the value there is, or the one it makes, or panics with the initialiser |
| LazyCell.EndOfLife | metrics/src/lazy_cell.rs:89-100 | into_inner returns the value and drops none, Drop drops it and returns none; both drop an unused initialiser |
| LazyCell.PanicsOnlyIfPoisoned | metrics/src/lazy_cell.rs:70-72 | in every run a call panics only if the initialiser has panicked |
| LazyCell.NeverBackwards | metrics/src/lazy_cell.rs:149-149 | the state byte only grows along a run |
| LazyCell.ResourcesUsedOnce | metrics/src/lazy_cell.rs:212-219 | over a whole life the initialiser is moved out or dropped once and the value returned or dropped once |
| RealPow.IPowIsPow | metrics/src/ddsketch.rs:12-19 | square-and-multiply is the power |
| SketchIndex.PowBelowCutoff | metrics/src/ddsketch.rs:59-70 | up to the cutoff log buckets are narrower than one |
| SketchIndex.LogAboveLinear | metrics/src/ddsketch.rs:133-139 | log buckets lie above all exact buckets |
| SketchIndex.IndexMonotone | metrics/src/ddsketch.rs:133-139 | index_of is monotone, also across the cutoff |
| SketchIndex.EveryValueHasABucketIff | metrics/src/ddsketch.rs:79-101 | every u64 has a bucket exactly when alpha < 1/3 |
| SketchIndex.EstimateWithinIff | metrics/src/ddsketch.rs:237-237 | the estimate of exponent i is within alpha of x exactly when x <= gamma^i <= gamma * x |
| SketchSpec.CellsCount | metrics/src/ddsketch.rs:146-156 | every bucket and the count hold the true sums, capped at the largest u64 |
| SketchSpec.MinMaxExact | metrics/src/ddsketch.rs:147-148 | min and max are the smallest and largest sample |
| SketchSpec.MergeIsUnion | metrics/src/ddsketch.rs:251-269 | merging gives the sketch of both lists of samples, saturation included |
| SketchSpec.ScanFindsBucket | metrics/src/ddsketch.rs:217-228 | without saturation the cumulative scan stops at the bucket of the sample with that rank |
| SketchSpec.RankCounts | metrics/src/ddsketch.rs:280-287 | rank counts the smaller samples except those that share the bucket |
| DDSketches.DDSketch.constructor | metrics/src/ddsketch.rs:122-124 | a new sketch is empty |
| DDSketches.DDSketch.InsertN | metrics/src/ddsketch.rs:146-156 | whatever list of samples the sketch stands for, afterwards it stands for the list with the new entry; one bucket changes, min and max now bound the value |
| DDSketches.DDSketch.Merge | metrics/src/ddsketch.rs:251-269 | for sketches with as many buckets, a sketch with itself included: saturating sums, joint min and max; with one gamma, the sketch of both lists of samples |
| DDSketches.DDSketch.Clear | metrics/src/ddsketch.rs:163-171 | back to the empty sketch |
| DDSketches.DDSketch.Scan | metrics/src/ddsketch.rs:217-228 | the loop finds the first bucket at which the running u64 total exceeds the rank |
| DDSketches.DDSketch.QuantileAt | metrics/src/ddsketch.rs:202-240 | min below 0, max from 1 on; in between, without saturation, what is reported for the sample that at most a share of q of the samples lies below, clamped to min and max |
| DDSketches.DDSketch.Rank | metrics/src/ddsketch.rs:280-287 | the u64 sum of the buckets below the value's own; without saturation, the number of smaller samples in other buckets |
| SketchQuantile.QuantileBucket | metrics/src/ddsketch.rs:217-235 | quantile answers from the bucket of the sample x with (samples below x) <= q * count < (samples up to x) |
| SketchQuantile.QuantileOfSamples | metrics/src/ddsketch.rs:202-240 | end to end, for the sample x with (samples below x) <= q * count < (samples up to x): outside of the last bucket the answer is the rounded estimate for x, clamped to min and max, for log buckets within alpha * x + 1/2; the last bucket reports the maximum, at most gamma * x |
| SketchQuantile.ReportedIs | metrics/src/ddsketch.rs:230-240 | the rounded estimate for x is (1 - alpha) times a power of gamma to the nearest integer; above the cutoff it is the first power that reaches x |
| SketchQuantile.QuantileOfEmpty | metrics/src/ddsketch.rs:202-235 | an empty sketch answers 0, and for negative q the largest u64 |
| SketchQuantile.PreciseIff | metrics/src/ddsketch.rs:190-193 | for every sample x: all quantiles that fall on x are within alpha of it, whatever the other samples, exactly if the rounded estimate for x is, or in the last bucket all larger values of it are |
| SketchIndex.LastBucketUnused | metrics/src/ddsketch.rs:79-101 | with two exact buckets or more next to log buckets no u64 lies in the last one |
| SketchQuantile.PrecisionFailsBelowCutoff | metrics/src/ddsketch.rs:190-193 | with alpha = 0.1 the median of 0, 4, 100 is reported as 2 |
| SketchQuantile.PrecisionFailsInLogBucket | metrics/src/ddsketch.rs:190-193 | with alpha = 0.1 the median of 0, 9, 100 is reported as 8, though the unrounded estimate is within alpha |
| SketchQuantile.PrecisionFailsForOwnSketch | hamerkop/src/executor/runtime.rs:17-19 | with alpha = 0.05 a sample of 4 is reported as 1 |
| ConcurrentSketch.QuiescentIsSequential | metrics/src/ddsketch.rs:314-324 | for any interleaving of the atomic steps, once all calls have returned the sketch is that of inserting the samples one by one |
| ConcurrentSketch.AloneFinishes | metrics/src/ddsketch.rs:314-324 | without interference and spurious failures a call is over after at most six atomic steps, from wherever it stands |
| Dedup.Vec.RemoveBySwap | hamerkop/src/util/dedup.rs:71-71 | exactly one copy of that element goes, what is before stays, and the last element takes its place |
| Dedup.Vec.DedupPartial | hamerkop/src/util/dedup.rs:50-87 | the loop with its table computes the specified result |
| Dedup.ScanSettles | hamerkop/src/util/dedup.rs:68-86 | table entries always point to the last settled position written to them |
| Dedup.DedupPartialCorrect | hamerkop/src/util/dedup.rs:31-41 | same set of values, no value gains copies, no equal neighbours; equal values both survive only across an eviction of the earlier one |
| Dedup.CollisionFreeNoDuplicates | hamerkop/src/util/dedup.rs:31-41 | without collisions among its values the result has no duplicates |
| Dedup.EntriesByRule | hamerkop/src/util/dedup.rs:75-83 | told by the result alone: each kept value went to the first of its entries not in use, else to one by parity; an entry is taken over only if both are in use |
| Dedup.RemovedIff | hamerkop/src/util/dedup.rs:70-73 | an element is removed exactly if an equal one was kept whose table entry no later one has taken |
| Dedup.CopiesExact | hamerkop/src/util/dedup.rs:31-41 | for every input and value, as many copies are left as there are looks at it that find no copy |
| Dedup.OneCopyIff | hamerkop/src/util/dedup.rs:34-35 | of a value, neighbouring copies included, one copy is left exactly if the table remembers it at every later look |
| Dedup.NoDuplicatesIff | hamerkop/src/util/dedup.rs:31-41 | for every input, the result has no duplicates exactly if every value is remembered |
| Dedup.DistinctUnchanged | hamerkop/src/util/dedup.rs:68-86 | a vector without duplicates is left as it is |
| Dedup.InputNeighboursMaySurvive | hamerkop/src/util/dedup.rs:34-35 | with hashes as words have them 0 0 128 0 256 256 becomes 0 256 128 0 256 |
| FixedVecs.FixedVec.ExtendFromSlice | hamerkop/src/fixedvec.rs:483-503 | appends the longest prefix that fits and returns its length |
| FixedVecs.FixedVec.Drain | hamerkop/src/fixedvec.rs:395-422 | the range is gone and the rest closed up in order |
| FixedVecs.FixedVec.DrainFront | hamerkop/src/fixedvec.rs:809-824 | dropping a drained prefix leaves the suffix |
| FixedVecs.FixedVec.WriteAll | hamerkop/src/fixedvec.rs:734-778 | true exactly if everything fitted; what fits is written either way |
| DisjointChunks.DisjointChunksExact.constructor | hamerkop/src/util/disjoint_chunks.rs:10-16 | the iterator is over a ++ b |
| DisjointChunks.DisjointChunksExact.Next | hamerkop/src/util/disjoint_chunks.rs:22-47 | the next n bytes across the seam; a shorter rest is swallowed |
| PingServer.TransferRemainder | hamerkop/examples/pingserver.rs:189-198 | a' ++ b' is (a ++ b)[count..], with a' as full as can be |
| PingServer.Frames | hamerkop/examples/pingserver.rs:137-152 | as many frames as there are, as long as the answers leave a byte of the write buffer free |
| PingServer.AnswerChunks | hamerkop/examples/pingserver.rs:135-154 | one PONG per PING taken, until input or room runs out or a chunk is bad |
| PingServer.Answer | hamerkop/examples/pingserver.rs:135-154 | it takes exactly as many frames as input and room allow, and fails exactly if one of them is no PING |
| PingServer.ServeRound | hamerkop/examples/pingserver.rs:135-156 | a whole round in place: answers, kept bytes and what is left in the read buffer, as the rounds of a session have it |
| PingServer.SessionOutcome | hamerkop/examples/pingserver.rs:127-149 | a session is open exactly while every round took PINGs only; the first bad round closes it, and nothing of it is answered, consumed or kept, nor anything read after it |
| PingServer.PingsStayOpen | hamerkop/examples/pingserver.rs:127-154 | for 16383 rounds a client whose stream consists of PINGs, however cut, is not turned away |
| PingServer.RoundConservesIff | hamerkop/examples/pingserver.rs:156-160 | a round loses nothing exactly when what it leaves fits the carry-over buffer |
| PingServer.LeftoverBound | hamerkop/examples/pingserver.rs:137-156 | the leftover is at most max(5, previous + 4) |
| PingServer.OnePongPerPing | hamerkop/examples/pingserver.rs:144-152 | over any session the consumed bytes are k PINGs and the sent ones k PONGs |
| PingServer.StreamConserved | hamerkop/examples/pingserver.rs:127-181 | for 16383 rounds consumed ++ kept is everything received |
| PingServer.Round16384LosesAByte | hamerkop/examples/pingserver.rs:127-181 | some client that sends only PINGs loses a byte in round 16384 |

## Left out

- The must-wait branch of `CompletionFuture::drop`: its progress depends on the kernel; futures that must be waited for are dropped only after their CQE.
- The I/O-error exits of `submit_sqe` and of `provide_buffer`, and partial consumption by `io_uring_enter`: submissions inside a linked batch succeed, and what was announced is taken by the kernel.
- What the executor does after a batch has started on a full submission queue, after a raw counter wrapped between the two ends of `has_next`, or on CQ overflow: `ExecutorRings` takes no such step.
- The panic of `submit_sqe` on linking more SQEs than the queue holds, which leaves behind the completion that `from_ctx` has inserted by then: a linked batch stays within the queue.
- `SetupFlags::SQPOLL`: only the plain submission path of `submit_and_wait` is modelled.
- The futures themselves: a task is a slot id, and what it does between dispatch and return is any sequence of user steps; so the polling loop of `turn` is a phase of the transition system rather than one method.
- `block_on` and `run`, which repeat `turn`, the removal of `block_on`'s own future after a panic, and the panic of a poll outside of a task.
- The slotmaps inside `IOContext` and the scheduler are values, so their aliasing through `Rc<RefCell<..>>` and the run-time borrow checks are not captured; `StableSlotmaps` is the heap form.
- `LazyCell` and the concurrent part of the sketch are state machines over values instead of objects, because threads interleave inside their methods; each atomic is sequentially consistent.
- Writing through `get_mut`, `force_mut` and `&mut` iteration beyond what the executor does; changing the value of a `LazyCell` through `force_mut`.
- Sketch limits other than u64::MAX, NaN quantiles, and floating-point rounding of logarithms and powers: reals are exact, and the final rounding to u64 is modelled.
- The fxhash functions of `dedup_partial`: they are arbitrary functions of the value, in the example such as depend on the low seven bits.
- `FixedVec` operations that the server does not use (`insert`, `remove`, `swap_remove`, `retain`, `append`, `resize`) and element destructors: bytes need none.
- The connection task's short-write path and end of stream, socket code, the acceptor, the echo server.
- `iter`, `iter_mut` and the index operators of the slotmap.
- mmap set-up, system calls, SQE field layouts, the registrar, gauges, counters, the metric registry, `tokenreplace`, `Join`.
