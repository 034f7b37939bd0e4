# ScaleLLM engine: a verified model

This project models the parts of ScaleLLM that have to agree with each other for a request to be answered correctly, and
proves that they do.

* **The continuous-batching engine over a paged K/V cache.** A priority heap of requests, a stack of integer block ids,
  sequences with tokens, blocks and a cached prefix, the flattening of a mixed prefill/decode batch, the blocked cache
  layout, execution, preemption and hand-off. `SchedulerState` states it as a state machine (arrive, cancel, begin a
  build, one round of the scheduling loop, end a build, execute); the classes `Sequence`, `BlockAllocator`,
  `BlockManager`, `KVCache` and `Scheduler` update their fields in place and are proved to take exactly those steps.
  The network is any function from a token, its position and the K/V of the earlier positions to a K/V pair.
* **The streaming path.** Incremental decoding, the single-threaded response executor and its blocking queue, and the
  event protocol of one streaming call.
* **Tensor-parallel loading and layers.** Sharded checkpoints, fused weights loaded in any order, the MPT q/k/v reshapes,
  column- and row-parallel layers, collectives and the fused gated MLP, over exact real numbers.
* **GPTQ dequantisation.** Bit fields of signed words and the two forms of `construct_weights`.

## Main results

1. *The paged cache is a private cache* (`SchedulerTheorems.PagedCacheIsPrivate`): in every run with distinct keys,
   whenever a batch is ready the checks of `prepare_inputs` pass if and only if no sequence of it has been cancelled since
   it was granted its slots, and then every sequence reads through its block table exactly the K/V of its own token
   prefixes, whatever was preempted, recomputed or recycled before.
2. *Scheduling is transparent* (`SchedulerTheorems.SchedulingIsTransparent`): the tokens of every sequence in every run are
   those it would generate alone with its own sampling parameters.
3. *Preemption is safe exactly with distinct keys* (`SchedulerGuarantees.VictimIsLower`, `BatchKeepsBlocks`,
   `BuiltInOrder`; `EqualKeys.SafeIffKeysDiffer`: on every engine with at least three blocks, of any size, two requests are
   safe together if and only if their keys differ, since for every key there are runs that strip a batched request of its
   blocks and runs that leave a stale name on the list).
4. *No block is lost, shared or spare* (`SchedulerGuarantees.BlocksConservedAndTight`, `BlockCalls.AnyCallsConserveBlocks`).
5. *A freed request is never read* (`ResponseTasks.FreedAfterLastUse`): scheduler and executor together run every
   streaming task of a request before the job that frees it.
6. *The streaming call neither strands, reorders nor loses a response, never blocks its producer for more than two events,
   and is deleted only when no event for it is pending* (`CallDataProtocol`). It can be deleted while `finish` has still to
   read its flag, and exactly then a producer is inside (`CallDataProtocol.DeletedUnderProducer`, `FinishMayReadDeleted`).
7. *The sharded MLP, all three weights loaded from any sharding of the checkpoint and any split of it into files, is the
   unsharded MLP* (`TensorParallel.LoadedMlpIsMlp`).
8. *The engine drains* (`Draining.EveryRequestIsServed`): with positive limits and no further arrivals, whatever is preempted
   or cancelled, a number of builds bounded by the tokens and hand-offs to come serves every accepted request.
9. *The two dequantisers agree and are exact on signed words* (`Gptq.FormsAgree`, `Gptq.DifferenceExact`).

Where the code does not meet a property on all inputs, the exact condition is proved: `cache_slots` yields one slot per
token if and only if the sequence holds exactly the blocks it needs (`BatchInputs.CacheSlotsExact`); a cancellation fails a
check of a ready batch if and only if it hits that batch (`Cancellation.CancelTripsExactly`); the context length is kept if
and only if the room left, truncated to 32 bits, is not zero and the client did not ask for zero tokens
(`GenerationBounds.ContextKept`); a tensor's pieces reassemble if and only if its size splits, a tensor no larger than the number of ranks being handed out
whole (`WeightLoading.SharesReassemble`); a second write is outstanding if and only if an alarm takes a response before the
completion of the first (`CallDataProtocol.SecondWriteExactly`), which a producer with at most two items in flight never
brings about (`CallDataProtocol.FewInFlightOneWrite`); `finish` reads the flag of a deleted call if and only if no event
for the call is on its way (`CallDataProtocol.ReadIsFresh`); shutdown leaves no task unrun if and only if none is pushed
after the last stop mark (`Executors.ShutdownLeavesNobodyWaiting`); the grouped and the indexed dequantiser use the same
groups if and only if the group size divides the inputs or there is one group (`Gptq.GroupingsAgree`).

## Layout

| file | contents |
|---|---|
| `Arith.dfy` | rounding and division facts |
| `Sequences.dfy`, `BlockMemory.dfy` | sequences as values; allocation, release, conservation |
| `BatchInputs.dfy`, `BatchFaithful.dfy` | `cache_slots`, `prepare_inputs`; what the flat batch says about its sequences |
| `PagedExecution.dfy`, `KvCache.dfy` | one execution over slots; the physical cache |
| `SchedulerState.dfy` | the state machine |
| `SchedulerMemory.dfy`, `SchedulerInvariants.dfy`, `SchedulerLoop.dfy`, `SchedulerExecution.dfy`, `SequenceLife.dfy` | the invariant and its preservation |
| `SchedulerTheorems.dfy`, `SchedulerGuarantees.dfy`, `Cancellation.dfy`, `GenerationBounds.dfy`, `StopReasons.dfy`, `Draining.dfy`, `EqualKeys.dfy` | theorems about runs |
| `BlockManager.dfy`, `BlockCalls.dfy`, `SchedulerFacts.dfy`, `Scheduler.dfy` | the objects, and their refinement of the state machine |
| `Streaming.dfy`, `Executor.dfy`, `ResponseTasks.dfy`, `CallData.dfy` | the streaming path |
| `Tensors.dfy`, `WeightLoading.dfy`, `FusedLoading.dfy`, `MptLoading.dfy`, `TensorParallel.dfy` | sharding, loading, parallel layers |
| `Gptq.dfy` | dequantisation |

`dafny verify dfyconfig.toml` checks the whole project.

## Model

| member | source | states |
|---|---|---|
| `SchedulerTheorems.PagedCacheIsPrivate` | src/scheduler/continuous_batching_scheduler.cpp:107-246 | In every reachable state with distinct keys and a ready batch, the checks pass if and only if no batched sequence is finished; then each sequence reads through its block table exactly the K/V of its own prefixes, and samples at its own last token with its own parameters |
| `SchedulerTheorems.SchedulingIsTransparent` | src/scheduler/continuous_batching_scheduler.cpp:204-246 | When a draw depends only on sampling parameters, last token and what attention sees, every sequence of every run holds a prefix of what its prompt generates alone with its parameters |
| `SchedulerTheorems.RunKeeps` | src/scheduler/continuous_batching_scheduler.h:39-70 | The invariant on store, containers and batch holds after every run with distinct keys |
| `SchedulerLoop.IterateKeeps` | src/scheduler/continuous_batching_scheduler.cpp:135-189 | One round (schedule, preempt, or stop) keeps the invariant: list sorted and inside the heap, batch granted and ahead of the heap, blocks conserved, prefixes cached |
| `SchedulerLoop.EndKeeps` | src/scheduler/continuous_batching_scheduler.cpp:191-199 | Ending a build, with or without giving up on a request, keeps the invariant |
| `SchedulerInvariants.BeginKeeps` | src/scheduler/continuous_batching_scheduler.cpp:107-133 | Draining the intake and recycling the last batch keeps the invariant |
| `SchedulerInvariants.ArriveKeeps` | src/scheduler/continuous_batching_scheduler.cpp:96-105 | An arrival, accepted or refused, keeps the invariant in every phase |
| `SchedulerInvariants.CancelKeeps` | src/request/sequence.h:88-96 | A cancellation at any time, also of a batched sequence, keeps the invariant |
| `SchedulerExecution.ExecuteKeeps` | src/scheduler/continuous_batching_scheduler.cpp:224-245 | Executing a batch keeps the invariant: everything before the appended token is cached in the sequence's own blocks, and bystanders keep their prefixes |
| `SchedulerExecution.ChecksPass` | src/engine/utils.cpp:70-75 | The checks of prepare_inputs pass on a batch the scheduler built if and only if none of its sequences has been cancelled meanwhile |
| `Cancellation.CancelTripsExactly` | src/engine/utils.cpp:72 | Cancelling a sequence when a batch is ready fails a check if and only if the sequence is in the batch |
| `Cancellation.LiveKept` | src/scheduler/continuous_batching_scheduler.cpp:141-151 | No other event takes a live sequence out of a batch |
| `Cancellation.SparedRunsPass` | src/scheduler/continuous_batching_scheduler.cpp:135-225 | In every run whose cancellations miss the batches between grant and execution, every check passes on every batch |
| `SchedulerGuarantees.VictimIsLower` | src/scheduler/continuous_batching_scheduler.cpp:167-178 | A victim has a larger priority value than the candidate, or the same value and a later second; no preemptable request comes after it; it is in the heap and not in the batch |
| `SchedulerGuarantees.PreemptExactly` | src/scheduler/continuous_batching_scheduler.cpp:167-178 | A preempting round takes all blocks and the cached prefix of each sequence of its victim, touches no other sequence beyond its own attempt, and drops exactly the victim from the list |
| `SchedulerGuarantees.BatchKeepsBlocks` | src/scheduler/continuous_batching_scheduler.cpp:135-189 | No round changes a sequence already in the batch |
| `SchedulerGuarantees.RoundsRunOut` | src/scheduler/continuous_batching_scheduler.cpp:135-189 | Heap size plus preemptable size strictly decreases in every round that does not stop the loop |
| `SchedulerGuarantees.BuiltInOrder` | src/scheduler/continuous_batching_scheduler.cpp:135-189 | After the loop nothing is preemptable, the batch is in order, and no waiting request has a smaller priority value, or the same value and an earlier second, than a batched one |
| `SchedulerGuarantees.TopGoesFirst` | src/request/request.h:96-116 | What is taken from the heap has the smallest priority value, and among those the earliest second |
| `SchedulerGuarantees.AttemptExactly` | src/scheduler/continuous_batching_scheduler.cpp:139-151 | An attempt grants slots to unfinished sequences only, and succeeds if and only if every one of them is granted |
| `SchedulerGuarantees.GrantedInOrder` | src/scheduler/continuous_batching_scheduler.cpp:139-151 | The sequences of a request are served and batched in their order |
| `SchedulerGuarantees.RecycledExactly` | src/scheduler/continuous_batching_scheduler.cpp:117-129 | A batched request is handed off if and only if none of its sequences is alive; the others wait, can be preempted and keep blocks and cached prefixes |
| `SchedulerGuarantees.IntakeBounded` | src/scheduler/continuous_batching_scheduler.cpp:96-105 | The intake queue never holds more than its capacity, over every run |
| `SchedulerGuarantees.ArrivalExactly` | src/scheduler/continuous_batching_scheduler.cpp:96-105 | An arrival that finds room is recorded with its priority, second, prompts and settings; one that does not changes nothing |
| `SchedulerGuarantees.AbortIsHonest` | src/scheduler/continuous_batching_scheduler.cpp:191-199 | A request is given up only when nothing is preemptable and each of its unfinished sequences needs more blocks than are free |
| `SchedulerGuarantees.EveryRequestOwned` | src/scheduler/continuous_batching_scheduler.cpp:57-133 | In every reachable state each accepted request is in exactly one of intake, heap, batch or handed off, once; handed-off requests hold no blocks |
| `SchedulerGuarantees.DoneGrows` | src/scheduler/continuous_batching_scheduler.cpp:57-75 | Hand-off is final over every run |
| `SchedulerGuarantees.BlocksConservedAndTight` | src/memory/block_manager.cpp:14-28 | In every reachable state free list and held blocks are every id once; no sequence holds more than ceil(tokens/block size), and a scheduled one exactly that many |
| `EqualKeys.EqualKeysAreUnsafe` | src/scheduler/continuous_batching_scheduler.cpp:161-177 | For every engine with at least three blocks, every key and all settings that allow two tokens, a run with two requests of that key ends with a ready batch, no sequence of it cancelled, on which the check for slots fails |
| `EqualKeys.EqualKeysLeaveStaleNames` | src/scheduler/continuous_batching_scheduler.cpp:117-127 | On the same engines and for every key, a run with two requests of that key leaves a batched request on the preemptable list after the build |
| `EqualKeys.SafeIffKeysDiffer` | src/request/request.h:109-116 | On every engine with at least three blocks, two requests leave no stale name on the preemptable list and pass all checks in every run, if and only if their keys differ |
| `GenerationBounds.RunEvolves` | src/request/sequence.h:63-79 | Over every run a sequence grows by one token per execution that includes it, never after it is finished, and its finish reason never changes |
| `GenerationBounds.GenerationBound` | src/request/sequence.cpp:37-57 | With a positive limit a sequence is executed at most that many times, however often it is preempted, and has stopped when the limit is used up |
| `GenerationBounds.ContextKept` | src/server/handlers/completion_handler.cpp:116-154 | With the handler's limit the context length is never exceeded, whatever is sampled, if and only if the room left, truncated to 32 bits, is not zero and the client did not ask for zero tokens |
| `GenerationBounds.ContextKeptInRuns` | src/server/handlers/completion_handler.cpp:143-152 | Under that condition a sequence stays within the context length in every run of the engine, across any preemptions |
| `GenerationBounds.ClientBoundInRuns` | src/server/handlers/completion_handler.cpp:145-152 | In every run a client that asks for n > 0 tokens is given at most n, one that does not say at most 128, and none more than the context has room for |
| `StopReasons.StopsForAReason` | src/request/sequence.cpp:37-57 | In every run a sequence that has generated something is stopped if and only if its limit is used up or it ends in the end-of-sentence token, and carries the reason that applies |
| `Sequences.StopsExactly` | src/request/sequence.cpp:37-57 | A live sequence is stopped if and only if its limit is used up or it ends in the end-of-sentence token that it does not ignore; the reason is the limit if it applies; nothing else changes |
| `Sequences.StageExactly` | src/request/sequence.h:59-79 | A new token counts everything before it as cached; only a release makes the sequence a prefill again |
| `Draining.EveryRequestIsServed` | src/scheduler/continuous_batching_scheduler.cpp:107-246 | With positive limits and no arrivals, the executions number at most the tokens left, and once as many builds have begun as there are tokens and hand-offs to come and two more, every request has been handed off without blocks and intake, heap and batch are empty |
| `Draining.NeverStuck` | src/scheduler/continuous_batching_scheduler.cpp:107-246 | Unless a cancellation has hit the batch, some event of the engine is always enabled |
| `SequenceLife.StepText` | src/request/sequence.h:69-96 | Only an execution changes a sequence's tokens, stop flag or finish reason |
| `SequenceLife.StepEvolves` | src/scheduler/continuous_batching_scheduler.cpp:233-245 | What one event does to one sequence: tokens only grow, by one exactly when it is executed |
| `BatchInputs.CacheSlotsExact` | src/engine/utils.cpp:14-28 | One slot per token if and only if the block count is exact; then the slots are the block-table lookups in order |
| `BatchInputs.LastSlotIsLookup` | src/engine/utils.cpp:30-38 | The last slot is the lookup at the last position and the last element of cache_slots |
| `BatchInputs.ComputeCacheSlots` | src/engine/utils.cpp:14-28 | The two nested loops, whose break leaves only the inner one, compute the specification |
| `BatchInputs.PrepareInputs` | src/engine/utils.cpp:55-130 | The two loops over the batch compute the flat batch |
| `BatchFaithful.FlattenFaithful` | src/engine/utils.cpp:55-151 | seq_indices is the inverse of the row order; slices by the prefix sums give back each prefill sequence, and each decode entry is paired with its own table and context length |
| `BatchFaithful.FlattenPeaks` | src/engine/utils.cpp:82-127 | The reported maxima of row, prefill, context and table lengths are upper bounds that the batch attains |
| `BatchFaithful.StagesByCache` | src/engine/utils.cpp:70-111 | A sequence takes part as a prefill if and only if nothing of it is cached |
| `PagedExecution.SlotsDistinct` | src/engine/utils.cpp:96-129 | All slots of a batch are pairwise distinct and below number of blocks times block size |
| `PagedExecution.ReadyExecutable` | src/engine/utils.cpp:96-151 | Every slot and every table read of a granted, separated batch with cached prefixes is in range |
| `PagedExecution.WriteOrderDoesNotMatter` | src/layers/attention.cpp:96-134 | On a batch that is ready, a decode row computes the same K/V whether the new entries are written before it reads or after |
| `PagedExecution.ForwardRefines` | src/layers/attention.cpp:96-134 | After one pass over the flat batch each batched sequence reads its private cache through its table |
| `PagedExecution.ForwardFrames` | src/memory/kv_cache.cpp:38-61 | The pass leaves the cached prefix of every sequence outside the batch as it was |
| `PagedExecution.OutputRouting` | src/engine/engine.cpp:271-277 | After selection by seq_indices the i-th sample is the one computed at the last flat position of batch[i], with its parameters and from its private cache |
| `PagedExecution.PaddedRead` | src/engine/utils.cpp:143-151 | Padding a block table does not change what is read through it |
| `KvCaches.KVCache.SetKvCache` | src/memory/kv_cache.cpp:38-61 | Writing in the blocked layout, slot by slot, updates the abstract list of slots and nothing else |
| `KvCaches.KVCache.KeyLayout` | src/memory/kv_cache.cpp:54-57 | Column j * x + y of a key lies in group j at place y, with the offset in the block between the two |
| `KvCaches.KVCache.GetSlots` | src/memory/kv_cache.cpp:85-106 | Reading by slots returns the K/V of those slots, in order |
| `KvCaches.KVCache.GetTable` | src/memory/kv_cache.cpp:108-123 | Reading by block table and context length returns the K/V of the positions, in order |
| `BlockMemory.AllocateSeqSafe` | src/memory/block_manager.cpp:69-85 | A grant keeps conservation and leaves exactly the blocks needed; a refusal changes nothing and happens only when too few are free |
| `BlockMemory.ReleaseSeqSafe` | src/memory/block_manager.cpp:87-92 | A release keeps conservation |
| `BlockMemory.InitialPool` | src/memory/block_allocator.h:16-23 | The initial free list is every id once, in descending order |
| `BlockMemory.FewestBlocks` | src/memory/block_manager.cpp:14-28 | A finished sequence asks for nothing; a live one for the fewest blocks that give each of its tokens a slot |
| `BlockCalls.AnyCallsConserveBlocks` | src/memory/block_manager.cpp:34-92 | After any calls in any order, granted or refused, free list and held blocks are every id once and no two sequences share a block |
| `BlockManagement.TotalSuffices` | src/memory/block_manager.cpp:34-56 | When the total fits, every sequence in turn is granted its blocks |
| `BlockManagement.BlockAllocator.constructor` | src/memory/block_allocator.h:16-23 | The array starts as the full free list |
| `BlockManagement.BlockAllocator.Allocate` | src/memory/block_allocator.h:26-46 | Pops that many blocks off the end, in order |
| `BlockManagement.BlockAllocator.FreeAll` | src/memory/block_allocator.h:36-52 | Pushes the blocks back, in order |
| `BlockManagement.BlockManager.AllocateSlotsForSequence` | src/memory/block_manager.cpp:69-85 | Grants or refuses as the specification says |
| `BlockManagement.BlockManager.AllocateSlotsForRequest` | src/memory/block_manager.cpp:34-56 | All or nothing: succeeds if and only if the total fits, and a refusal changes nothing |
| `BlockManagement.BlockManager.ReleaseSlotsForRequest` | src/memory/block_manager.cpp:60-67 | Releases every sequence of the request and keeps conservation |
| `BlockManagement.Sequence.AppendNewTokenId` | src/request/sequence.h:63-67 | Appends the token and counts everything before it as cached |
| `BlockManagement.Sequence.ReleaseBlocks` | src/request/sequence.h:75-79 | Returns all blocks and resets the cached prefix |
| `BlockManagement.Sequence.CheckStoppingCriteria` | src/request/sequence.cpp:37-57 | Stops a live sequence if and only if its limit is used up or it ends in the end-of-sentence token, with the reason that applies; a stopped one is left alone |
| `ContinuousBatching.Scheduler.Schedule` | src/scheduler/continuous_batching_scheduler.cpp:96-105 | Refused exactly when the intake is full, else the request and its fresh sequences are added; the invariant is kept |
| `ContinuousBatching.Scheduler.Cancel` | src/request/sequence.h:95-96 | A cancellation at any time is the specified event and keeps the invariant; one that misses the batch also keeps it live |
| `ContinuousBatching.Scheduler.BuildSequenceBatch` | src/scheduler/continuous_batching_scheduler.cpp:107-200 | Takes exactly one build of the state machine, a beginning, rounds and an end, terminates, keeps the invariant and leaves nothing preemptable |
| `ContinuousBatching.Scheduler.RunRounds` | src/scheduler/continuous_batching_scheduler.cpp:135-189 | The loop takes rounds of the machine until the heap is empty or a round stops it |
| `ContinuousBatching.Scheduler.TryAllocate` | src/scheduler/continuous_batching_scheduler.cpp:139-153 | The inner loop is the specified attempt, sequence by sequence |
| `ContinuousBatching.Scheduler.RecyclePrevious` | src/scheduler/continuous_batching_scheduler.cpp:117-129 | The previous batch, from its end: finished requests are handed off, the others are put back |
| `ContinuousBatching.Scheduler.Step` | src/scheduler/continuous_batching_scheduler.cpp:204-246 | Takes one build after another while they leave no batch, at most as many as fit before the deadline, and executes the batch with the sampler if and only if the last build has left one |
| `Streaming.FlushFaithful` | src/request/sequence.cpp:60-74 | A flush emits exactly the text up to its end, all or nothing, and succeeds if and only if that text is longer than what was emitted and ends cleanly |
| `Streaming.ChunkingIsInvisible` | src/scheduler/continuous_batching_scheduler.cpp:77-94 | Under any increasing flush points the emitted text is the one-shot decoding up to the output offset |
| `Streaming.LastFlushDelivers` | src/request/sequence.cpp:60-74 | A last flush at the end delivers the whole text, whatever was held back before, if and only if the text ends cleanly |
| `Streaming.OutputText.DecodeDeltaText` | src/request/sequence.cpp:60-74 | Keeps the text sent so far equal to the one-shot decoding, and says exactly when something is sent |
| `CallDataProtocol.StepKeeps` | src/server/call_data.h:74-163 | The counting and ordering invariant is kept by every event |
| `CallDataProtocol.NothingStranded` | src/server/call_data.h:131-154 | Alarms plus writes plus a push without its alarm equal queued items plus one if pending; an event in WRITE never finds the queue empty, and nothing is left once no event is on its way |
| `CallDataProtocol.DeliveredInOrder` | src/server/call_data.h:131-154 | Responses are sent in order, none is dropped while the channel is healthy, and at most one terminal status follows them all |
| `CallDataProtocol.StatusIsFinishs` | src/server/call_data.h:97-103 | In every run the status sent is the one that finish was called with, and only that |
| `CallDataProtocol.HealthExactly` | src/server/call_data.h:109-114 | The channel counts as healthy if and only if no event so far has reported a failure |
| `CallDataProtocol.FirstEvent` | src/server/call_data.h:117-130 | A call whose request failed is deleted at once, and otherwise is open for responses |
| `CallDataProtocol.RoomForTwenty` | src/server/call_data.h:14 | A push goes through if and only if fewer than twenty items are queued |
| `CallDataProtocol.HealthyStream` | src/server/call_data.h:74-105 | While the channel is healthy, what is sent, queued and being pushed is exactly what was handed to write, in order |
| `CallDataProtocol.BlockedProducerFreed` | src/server/call_data.h:84-86 | A producer waiting on the full queue has an event on its way and sees room after at most two |
| `CallDataProtocol.ClosedCallEnds` | src/server/call_data.h:155-162 | After the terminal status every run is bounded, and one that cannot go on has deleted the call and left finish |
| `CallDataProtocol.DeletedQuietly` | src/server/grpc_server.cpp:98-111 | A call is deleted only when no event for it is pending and its queue is empty |
| `CallDataProtocol.DeletedUnderProducer` | src/server/call_data.h:97-105 | A deleted call has a producer inside it if and only if finish was called and has not yet read the flag |
| `CallDataProtocol.FinishMayReadDeleted` | src/server/call_data.h:102-105 | For every status code, and on a healthy or a broken channel, a run deletes the call before finish reads its flag |
| `CallDataProtocol.ReadIsFresh` | src/server/call_data.h:102-105 | finish reads the flag of a deleted object if and only if no event for the call is on its way by then |
| `CallDataProtocol.SecondWriteExactly` | src/server/call_data.h:134-158 | A second write is started if and only if an alarm takes a response while one is outstanding |
| `CallDataProtocol.FewInFlightOneWrite` | src/server/call_data.h:83-86 | A producer that never has three items in flight never causes a second outstanding write |
| `CallDataProtocol.TwoWritesOutstanding` | src/server/call_data.h:155-158 | A run with two writes outstanding exists |
| `CallDataProtocol.CallData.BeginWrite` | src/server/call_data.h:74-82 | write refuses the response on a closed channel, and otherwise waits to push it, on a full queue too |
| `CallDataProtocol.CallData.BeginFinish` | src/server/call_data.h:97-100 | finish hands in the status whatever the channel's state |
| `CallDataProtocol.CallData.PushItem` | src/server/call_data.h:83-84 | The moment the blocking push goes through, never beyond the queue size |
| `CallDataProtocol.CallData.RingAlarm` | src/server/call_data.h:85-86 | The alarm that follows a push |
| `CallDataProtocol.CallData.FinishResult` | src/server/call_data.h:104 | The flag that finish returns |
| `CallDataProtocol.CallData.Proceed` | src/server/call_data.h:108-163 | One event, by status, with the response or status code it sends; false exactly when the call is to be deleted, and then no event is pending |
| `Executors.StartedInOrder` | src/common/executor.cpp:26-43 | With any number of threads tasks start in the order of submission, each once, and are running or done |
| `Executors.SingleWorkerRunsInOrder` | src/common/executor.cpp:34-43 | With one thread the finished tasks are a prefix of those submitted, with at most the next one running |
| `Executors.WorkersComeToRest` | src/common/executor.cpp:34-43 | With nothing more pushed, no run of worker steps is longer than the work left, and one that cannot be continued has reached rest |
| `Executors.RestExactly` | src/common/executor.cpp:34-43 | A pool is at rest if and only if no worker can take a step |
| `Executors.ShutdownLeavesNobodyWaiting` | src/common/executor.cpp:15-24 | At rest after one stop mark per thread every thread has exited, and the unrun tasks are exactly those pushed after the last mark |
| `Executors.ShutdownRunsEverything` | src/common/executor.cpp:15-24 | If no task follows the first mark, every task has run exactly once |
| `Executors.ConcurrentQueue.Push` | src/common/concurrent_queue.h:30-37 | Appends within the capacity |
| `Executors.ConcurrentQueue.Pop` | src/common/concurrent_queue.h:50-59 | Removes the oldest element |
| `Executors.Executor.Schedule` | src/common/executor.cpp:27-32 | Ignores an empty runnable, else queues it |
| `Executors.Executor.InternalLoop` | src/common/executor.cpp:34-43 | Runs, in order, everything before the first stop mark and exits there, or runs everything and waits when there is none |
| `Executors.Executor.Shutdown` | src/common/executor.cpp:15-24 | Every queued task is run, in order, before the executor is gone |
| `ResponseTasks.TraceSafe` | src/scheduler/continuous_batching_scheduler.cpp:57-94 | In the tasks submitted by any run, nothing follows the release of a request that touches its sequences or releases it again |
| `ResponseTasks.StreamsExactly` | src/scheduler/continuous_batching_scheduler.cpp:77-94 | A step streams exactly the batched sequences that flush, finished or with enough new tokens, each up to its last token and with its finish reason |
| `ResponseTasks.TraceStreams` | src/scheduler/continuous_batching_scheduler.cpp:233-245 | Over every run a sequence is streamed once for each time it is flushed |
| `ResponseTasks.TraceReleases` | src/scheduler/continuous_batching_scheduler.cpp:57-75 | Over every run a request is released if and only if it is handed off |
| `ResponseTasks.FlushPointsIncrease` | src/scheduler/continuous_batching_scheduler.cpp:77-94 | In every run the flush points of a sequence increase, as its incremental decoding needs |
| `ResponseTasks.FreedAfterLastUse` | src/scheduler/continuous_batching_scheduler.cpp:57-94 | When the job that frees a request starts on the single worker, every task that reads one of its sequences has been submitted and has returned |
| `WeightLoading.OneFileAnswers` | src/model_loader/state_dict.cpp:189-228 | For every rank exactly one shard file answers, and it gives the rank its share |
| `WeightLoading.SharesReassemble` | src/model_loader/state_dict.cpp:216-227 | The ranks of one file get the whole tensor between them, in order, if and only if its size splits |
| `WeightLoading.CheckpointReassembled` | src/model_loader/state_dict.cpp:189-228 | For every world size that is a multiple of the shard count, the pieces concatenated over the ranks are the whole tensor |
| `WeightLoading.ColumnsReassembled` | src/model_loader/state_dict.cpp:189-228 | Along the second dimension the pieces of the ranks put side by side are the whole matrix, row by row |
| `WeightLoading.Select` | src/model_loader/state_dict.cpp:231-240 | Exactly the tensors with the prefix, under the rest of their names |
| `FusedLoading.OrderDoesNotMatter` | src/layers/linear_impl.cpp:16-61 | For any split and order of files no check fails, the flag is set exactly when the last piece has arrived, and the weight is then the concatenation in prefix order |
| `FusedLoading.FusedWeightOfRank` | src/layers/linear_impl.cpp:146-192 | For any number of shards and any division of a shard into files, a rank that visits all files ends with its chunk of every named tensor of its shard, in the order of the names |
| `FusedLoading.Parameter.MergeWeights` | src/layers/linear_impl.cpp:16-61 | The in-place accumulation is the specified merge |
| `FusedLoading.ColumnParallelLinear.LoadStateDict` | src/layers/linear_impl.cpp:146-192 | Weight and, if there is one, bias collect the file's pieces for the rank, prefix by prefix, and merge them |
| `MptLoading.RankGetsItsHeads` | src/models/huggingface/mpt.h:220-245 | Reshape, shard, reshape gives each of the ranks of a file exactly the q, k and v rows of its own heads |
| `MptLoading.ShardedRankGetsItsHeads` | src/models/huggingface/mpt.h:173-182 | With the fused tensor split over shards, one file answers each rank, and the rank keeps the q, k and v rows of its own heads in that shard |
| `MptLoading.OneRankKeepsAll` | src/models/huggingface/mpt.h:173-182 | On one rank loading is the identity |
| `TensorParallel.ColumnParallelIsLinear` | src/layers/linear_impl.cpp:97-104 | Column parallelism with gathered output is the plain layer, on every rank |
| `TensorParallel.LinearIsTheMatrix` | src/layers/linear_impl.cpp:97-104 | The plain layer is additive and homogeneous and takes unit vector k to column k of its matrix |
| `TensorParallel.RowParallelIsLinear` | src/layers/linear_impl.cpp:224-238 | Row parallelism, bias after the reduction, is the plain layer, on every rank |
| `TensorParallel.EarlyBiasIsWrong` | src/layers/linear_impl.cpp:233-236 | Adding the bias before the reduction is right if and only if there is one rank or the bias is zero |
| `TensorParallel.ShardedMlpIsMlp` | src/models/huggingface/llama.h:34-58 | Per-rank fused gate/up shares, an arbitrary activation times the second half, row-parallel product and reduction equal the unsharded MLP for every world size dividing the hidden dimension |
| `TensorParallel.HiddenIsChunk` | src/layers/activation.cpp:74-78 | A rank's gated activations are its share of the unsharded ones |
| `TensorParallel.ActivationFirst` | src/layers/activation.cpp:74-78 | The activation goes to the first half, and the second half multiplies it |
| `TensorParallel.GatesAt` | src/models/huggingface/llama.h:56-58 | Feature i of the unsharded MLP is the activation of row i of gate, times row i of up |
| `TensorParallel.LoadedMlpIsMlp` | src/models/huggingface/llama.h:60-65 | The same, with gate, up and down all loaded by the ranks from the files, for any number of shards, any split of a shard into files and any order of files |
| `TensorParallel.LoadedDown` | src/layers/linear_impl.cpp:241-252 | The weight a rank has copied after visiting all files is its columns of the whole matrix |
| `TensorParallel.GatherFromRegion` | src/layers/model_parallel.cpp:13-31 | The outputs of all ranks side by side |
| `TensorParallel.ReduceFromRegion` | src/layers/model_parallel.cpp:33-44 | The rank's own output is overwritten with the sum over all ranks |
| `TensorParallel.ScatterIsChunk` | src/layers/model_parallel.cpp:46-65 | A rank's part of the input is its chunk, also when the branch for one rank bypasses the split |
| `TensorParallel.RowForward` | src/layers/linear_impl.cpp:229-237 | The output is reduced, then the bias is added in place |
| `Gptq.UnpackIsField` | src/layers/quantization/qlinear_impl.cpp:43-47 | Shift, narrow and mask give the number written by the bits of the field |
| `Gptq.UnpackExact` | src/layers/quantization/qlinear_impl.cpp:52-56 | For every signed word this is the unsigned field, despite sign extension |
| `Gptq.NoOverflow` | src/layers/quantization/qlinear_impl.cpp:40-48 | Neither the incremented zero point nor the difference leaves the narrow type |
| `Gptq.NarrowWraps` | src/layers/quantization/qlinear_impl.cpp:43-46 | Conversion to the narrow type lands in the type and changes the number by a multiple of its modulus only |
| `Gptq.DifferenceExact` | src/layers/quantization/qlinear_impl.cpp:43-60 | Every difference is unsigned field minus unsigned field minus one |
| `Gptq.IndexedExact` | src/layers/quantization/qlinear_impl.cpp:43-60 | Entry (i, j) is the scale of the group that g_idx gives to row i, times unsigned weight field minus unsigned zero field minus one |
| `Gptq.FormsAgree` | src/layers/quantization/qlinear_impl.cpp:67-104 | The grouped form equals the indexed form when g_idx sends row i to group i / group size |
| `Gptq.GroupingsAgree` | src/layers/quantization/qlinear_gptq_impl.cpp:53-60 | The two groupings coincide if and only if the group size divides the inputs or there is one group |
| `Gptq.GroupIndex` | src/layers/quantization/qlinear_gptq_impl.cpp:53-60 | g_idx[i] is i divided by the group size, and 0 throughout when no group size is given |
| `Gptq.ShiftAmounts` | src/layers/quantization/qlinear_impl.cpp:33-36 | One shift per field of a word |
| `Gptq.UnpackZeros` | src/layers/quantization/qlinear_impl.cpp:43-50 | Shifting, then masking and incrementing in place, gives unsigned field plus one |

## Left out

- CUDA, NCCL, flash-attention and paged-attention kernels, exllama and AWQ wrappers: foreign code. Attention is an arbitrary function of a token, its position and the earlier K/V.
- Floating-point rounding, softmax, rotary embedding, normalisation: the layers are over exact reals and an arbitrary activation, the engine over an arbitrary network.
- The sampler and the logits processors, and with them the zero padding of token ids that they see: a sample is any function of the row, its sampling parameters, its last token and what its attention sees.
- The HTTP gateway, gRPC plumbing outside the call object, protobuf, tokenizer and safetensors bindings, model registry and other model definitions: input and output, or configuration.
- Clocks and waiting in step, metrics and logging. Creation times are parameters of an arrival.
- Integer widths: block ids, slots and lengths are unbounded integers, except in the dequantiser and in the handler's 32-bit truncation of the room left.
- Pointers: a request holds names of sequences in a store instead of owning them, and requests are named by their order of arrival, so freeing is a hand-off to the list of finished requests. The destructor of the scheduler is not modelled.
- The layout of the binary heap: the top is any element that nothing precedes, which covers every order in which equal keys can come out. The safety theorems assume pairwise distinct keys, since they fail without (`EqualKeys`).
- Interleavings inside a round of the loop or inside an execution: both are one step. A cancellation that arrives after the checks of `prepare_inputs` and before the token is appended is ordered after the execution.
- What happens after a check of `prepare_inputs` fails: the process stops there, so a batch that does not pass has no execution.
- Empty prompts: an arrival has at least one token in every prompt, since the source reads the last token of a sequence without a check.
- Data races on the output offset between scheduler and response thread: flushes are atomic steps with ends that never decrease.
- That a request given up for lack of memory could not have run alone: a candidate that pops itself off the preemptable list keeps its blocks, so this is not claimed.
- One producer at a time is assumed to be inside a call object; the handlers' threads take turns.
- The alarm is assumed to deliver one event for each time it is set, as the protocol needs.
- The objects `Executor` and `CallData` are sequential; the interleavings of their threads are in the state machines beside them.
- Streaming.ChunkingIsInvisible: assumes a decoder whose text extends stably, and makes no claim that the last flush succeeds when the text ends inside a character.
- Tensors of rank one and two only, as loaded by the layers; `clone` and memory mapping are not visible in the model.
- Query/key layer norms, clipping and alibi slopes of the attention layer.
