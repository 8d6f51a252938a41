# CUDAForge runtime model

A Dafny model of the stateful core of CUDAForge, an LLM inference runtime, with
proofs of what the core promises. `dafny verify dfyconfig.toml` checks everything.

The model follows the program's components. For each component with state there are
three layers: its state as a value with every operation as a function from one state
to the next, lemmas about whole runs of these operations, and a class with the
program's fields and loops, whose methods are proved to take the abstract state
exactly where the function does.

- **Paged KV cache** (`PagedKv*.dfy`): the pool of physical blocks with its free
  stack and LRU list, the hash-keyed prefix tree, and the page tables. The central
  invariant says that these five structures describe one partition of the blocks,
  with reference counts that are exact up to an explicitly computed leak. Evictions are
  proved to follow the order in which a run gives its blocks back. The prefix tree is proved to be the trie of all prompts registered so far. The block hash is a
  parameter; statements about content assume that it never returns 0 and has no
  collisions.
- **Scheduler and token loop** (`Batching*.dfy`, `BatchScheduler.dfy`, `Running*.dfy`,
  `TokenLoop.dfy`): admission by priority under seats and a token budget, one token per
  request and step, the stream of events. Cancellations by other threads between the
  scheduling decision and the filter are part of a step.
- **Engine** (`Engine*.dfy`, `LlmEngine.dfy`): the calls that keep scheduler, token loop
  and KV cache in step, with the exceptions that can escape from them.
- **Speculative decoding** (`Speculative*.dfy`): greedy verification, and rejection
  sampling with exact uniform draws over real probabilities. The generator of draws is
  a function from the number of the draw. The law of a round is derived from the boxes
  of draws on which the verification has each of its outcomes.
- **Tiled attention** (`FlashAttention.dfy`): one query row of the kernel's loop over
  key tiles. Scores are reals or minus infinity; the exponential is any positive
  function that turns sums into products.
- **Memory** (`Allocator.dfy`, `Pool.dfy`, `GpuMemory.dfy`): the block allocator as a
  state machine over the atomic steps of its threads, and the buffer pool on top of
  it. What the CUDA driver answers is a parameter; it may refuse, but never hands out
  an address that it has handed out already.
- **Evaluation and quantization** (`Pareto.dfy`, `Rouge.dfy`, `Quantization.dfy`).

Some properties one would expect do not hold of the code, and the model keeps the
code's behaviour:

- An eviction leaves the tree node of the evicted block reachable. A later lookup can hit
  a free block, which is then handed out twice (`PagedKvTheorems.StaleNodeRun`);
  `PagedKvOps.RegisterSoundIff` says exactly when the pool survives a registration. It
  can also hit a block that has been reused for other tokens
  (`PagedKvTheorems.StaleMatchRun`); `PagedKvOwnership.RegisterOwnedIff` says exactly
  when a registration records its own prompt: when the nodes it walks are live.
- A registration that throws, and a fork onto an existing id, leak references
  (`PagedKvRuns.RunLeakIff`, `PagedKvSpare.RegisterThrowsIff`).
- An append writes into the last block although a fork may share it
  (`PagedKvAppend.AppendOwnedIff`).
- An empty prompt is registered with the KV cache but refused by the scheduler, which
  separates the engine's three sets (`EngineProofs.AddCoupledIff`,
  `EngineExamples.EmptyPromptExample`); cancelling its id repairs that
  (`EngineRuns.CancelRepairs`).
- A step that runs out of pages always leaves some sequence too short
  (`EngineExact.StepCoupledIff`, `EngineExamples.BehindExample`); the three sets are
  separated exactly if the runner also ends a request in it (`EngineExact.StepSetsIff`,
  `EngineExamples.SeparatedExample`).
- The fallback for a small residual changes the sampled law by up to 1e-6
  (`SpeculativeLaw.PositionIsTarget`, `SpeculativeLaw.FallbackIsOff`).
- Without the causal mask the attention kernel gives keys past the last one weight,
  unless the tile size divides the number of keys (`FlashAttention.AttendRow`).
- The allocator's limit can be exceeded by concurrent callers (`Allocator.LimitHoldsIff`,
  `Allocator.BoundReached`).

## Model

| member | source | states |
|---|---|---|
| `PagedKvRuns.RunSound` | csrc/src/memory/paged_kv_cache.cpp:101-316 | over every run of register, append, unregister and fork whose lookups hit no free block, each block is in exactly one of free stack, LRU list, in use, once each; its count is its page-table entries plus the references leaked so far |
| `PagedKvRuns.RunLeakIff` | csrc/src/memory/paged_kv_cache.cpp:220-249 | in runs whose lookups hit no free block, counts and page-table entries agree exactly if no registration needs more blocks than are available while it finds some, and no fork overwrites a sequence |
| `PagedKvRuns.EvictionFreeRun` | csrc/src/memory/paged_kv_cache.cpp:182-213 | while nothing has been evicted, every tree node is live and no lookup reaches a free block |
| `PagedKvRuns.UncachedRun` | csrc/src/memory/paged_kv_cache.cpp:182 | with prefix caching off, no run reaches a free block by a lookup |
| `PagedKvRuns.StepLeakIff` | csrc/src/memory/paged_kv_cache.cpp:167-316 | what is leaked never shrinks, and one operation adds to it exactly when a registration needs more blocks than are available and finds some, or a fork overwrites a sequence |
| `PagedKvSpare.RegisterThrowsIff` | csrc/src/memory/paged_kv_cache.cpp:182-249 | a registration throws if and only if the blocks it lacks are more than the free and cached ones left after its hits; it then leaks exactly the hits and everything it could still get |
| `PagedKvSpare.AppendThrowsIff` | csrc/src/memory/paged_kv_cache.cpp:264-285 | an append throws if and only if the blocks it has to add are more than the free and cached ones; if it returns it has used exactly those |
| `PagedKvSpare.LookupSpare` | csrc/src/memory/paged_kv_cache.cpp:192-201 | the blocks to be had after the lookup are the free and cached ones without the cached blocks it hits |
| `PagedKvExamples.ThrowingRegistration` | csrc/src/memory/paged_kv_cache.cpp:220-249 | one block and a prompt of two: the registration throws and keeps the block |
| `PagedKvExamples.ForkOntoExisting` | csrc/src/memory/paged_kv_cache.cpp:301-316 | a concrete fork onto an existing sequence leaks its block |
| `PagedKvRuns.StepSound` | csrc/src/memory/paged_kv_cache.cpp:167-316 | every operation keeps the partition and the exact counts |
| `PagedKvOps.RegisterSoundIff` | csrc/src/memory/paged_kv_cache.cpp:167-253 | a registration keeps the partition and the counts if and only if no block it matches is on the free stack |
| `PagedKvOps.AppendSound` | csrc/src/memory/paged_kv_cache.cpp:255-286 | appending keeps the partition and the counts, also when it throws half-way |
| `PagedKvOps.UnregisterSound` | csrc/src/memory/paged_kv_cache.cpp:288-299 | unregistering gives back exactly the references of the sequence |
| `PagedKvOps.ForkSound` | csrc/src/memory/paged_kv_cache.cpp:301-316 | a fork counts the shared blocks; forking onto an existing id leaks exactly that sequence's references |
| `PagedKvSound.AllocateSound` | csrc/src/memory/paged_kv_cache.cpp:126-144 | allocation throws exactly when every block is referenced, and otherwise returns an unreferenced block, evicting once exactly when the free stack is empty; no other block changes |
| `PagedKvSound.VictimIsLast` | csrc/src/memory/paged_kv_cache.cpp:105-121 | on a sound cache an eviction takes the last entry of the LRU list |
| `PagedKvOrder.RunInOrder` | csrc/src/memory/paged_kv_cache.cpp:146-165 | in every run whose lookups hit no free block, the LRU list is sorted by when its blocks last lost all references, the most recent in front; that order is computed from the operations of the run |
| `PagedKvOrder.VictimIsOldest` | csrc/src/memory/paged_kv_cache.cpp:101-124 | after such a run an allocation that evicts takes, of all cached blocks, the one whose references were given back longest ago |
| `PagedKvOrder.ReleaseFront` | csrc/src/memory/paged_kv_cache.cpp:153-159 | the last reference of a block with a hash puts it in front of an otherwise unchanged LRU list; any other release leaves the list alone |
| `PagedKvOrder.FreedIsNext` | csrc/src/memory/paged_kv_cache.cpp:126-165 | a block that is freed is the next one handed out |
| `PagedKvOrder.RegisterCounts` | csrc/src/memory/paged_kv_cache.cpp:182-243 | a registration of a new id counts one hit for each matched block and one miss for each placed block, together the full blocks of the prompt unless it throws |
| `PagedKvOrder.OthersCountNothing` | csrc/src/memory/paged_kv_cache.cpp:255-316 | no other operation counts hits or misses |
| `PagedKvExamples.OldestEvicted` | csrc/src/memory/paged_kv_cache.cpp:101-165 | two blocks released one after the other: the next registration gets the one released first |
| `PagedKvSound.ReleaseSound` | csrc/src/memory/paged_kv_cache.cpp:146-165 | releasing a reference puts the block where the partition wants it: in use, free, or cached |
| `PagedKvSound.ClaimSound` | csrc/src/memory/paged_kv_cache.cpp:192-205 | a cache hit takes the block off the LRU list and counts the new reference |
| `PagedKvSound.InitSound` | csrc/src/memory/paged_kv_cache.cpp:41-55 | the initial pool satisfies the partition |
| `PagedKvContent.EvictionKillsNode` | csrc/src/memory/paged_kv_cache.cpp:109-120 | an eviction removes no node, and the live nodes afterwards are those before that do not stand for the evicted block |
| `PagedKvContent.WalkLiveIsWalkable` | csrc/src/memory/paged_kv_cache.cpp:189-192 | a lookup that walks live nodes reaches no free block |
| `PagedKvContent.RegisterLive` | csrc/src/memory/paged_kv_cache.cpp:220-243 | a registration that evicts nothing keeps all nodes live |
| `PagedKvTheorems.StaleNodeRun` | csrc/src/memory/paged_kv_cache.cpp:101-124 | a concrete run with one eviction after which a lookup hits a stale node, a free block gets referenced, and the same block is then handed to a second sequence |
| `PagedKvTheorems.StaleMatchRun` | csrc/src/memory/paged_kv_cache.cpp:186-204 | a concrete run after which a prompt is matched with a block in use that holds other tokens, though no free block is reached |
| `PagedKvOwnership.WalkLiveIff` | csrc/src/memory/paged_kv_cache.cpp:183-208 | the walked nodes are live if and only if the hit blocks carry the chain hashes of the prompt |
| `PagedKvOwnership.RegisterOwnedIff` | csrc/src/memory/paged_kv_cache.cpp:167-253 | a registration that returns records its prompt, fills and hashes rightly if and only if its lookup walks live nodes, whether or not it hits a free block |
| `PagedKvPrefix.ChainInjective` | csrc/src/memory/paged_kv_cache.cpp:186-187 | the chained hash identifies the depth and every token block up to it |
| `PagedKvPrefix.ReachIff` | csrc/src/memory/paged_kv_cache.cpp:183-212 | a lookup of j blocks succeeds exactly when their chain hash is in the tree, and ends at its node |
| `PagedKvPrefix.LookupIsLongest` | csrc/src/memory/paged_kv_cache.cpp:182-213 | the lookup loop stops at the longest block prefix shared with a prompt the tree stands for |
| `PagedKvPrefix.RegisterTrie` | csrc/src/memory/paged_kv_cache.cpp:231-242 | a registration extends the set of prompts the tree stands for by the blocks it placed |
| `PagedKvTheorems.RunTrie` | csrc/src/memory/paged_kv_cache.cpp:167-253 | after every run, evictions or not, the tree is the trie of all block prefixes registered so far |
| `PagedKvTheorems.LongestPrefix` | csrc/src/memory/paged_kv_cache.cpp:174-252 | a successful registration of a new id returns the length of the longest block-aligned prefix shared with any earlier prompt |
| `PagedKvTheorems.SharesInTokens` | csrc/src/memory/paged_kv_cache.cpp:184-185 | sharing j blocks is agreeing on the first j times block-size tokens |
| `PagedKvTheorems.RunHealthy` | csrc/src/memory/paged_kv_cache.cpp:167-316 | in every run whose lookups walk live nodes and whose appends write into no shared block, evictions and forks included, all blocks of a table are full but the last, and each table spells its prompt and has its recorded length |
| `PagedKvTheorems.NoForksUnshared` | csrc/src/memory/paged_kv_cache.cpp:264-285 | without forks no append writes into a shared block, and blocks without a hash have one owner |
| `PagedKvAppend.AppendOwnedIff` | csrc/src/memory/paged_kv_cache.cpp:264-271 | an append leaves every sequence with its recorded length if and only if it writes into no block of another sequence |
| `PagedKvExamples.ForkThenAppend` | csrc/src/memory/paged_kv_cache.cpp:264-271 | after a concrete fork and append the child has a token more than it is recorded to have |
| `PagedKvTheorems.SharingIsPrefix` | csrc/src/memory/paged_kv_cache.cpp:191-203 | two table positions hold the same block only at the same index of two sequences whose prompts agree on all tokens up to the end of it; for hashed blocks in all runs as above, for others in runs without forks |
| `PagedKvSharing.SharingIff` | csrc/src/memory/paged_kv_cache.cpp:186-203 | in these runs two table positions hold the same block if and only if they are the same position of one sequence, or of two whose prompts agree on all tokens up to the end of it |
| `PagedKvSharing.RunOne` | csrc/src/memory/paged_kv_cache.cpp:186-243 | in every cached run, whatever its lookups walk, no two blocks carry the same hash, so a token prefix is cached at most once |
| `PagedKvTheorems.StagedLength` | csrc/src/memory/paged_kv_cache.cpp:358-365 | in the same runs the context length that is staged for a sequence is its recorded length: prompt plus appended tokens |
| `PagedKvTheorems.AllocatedBlocks` | csrc/src/memory/paged_kv_cache.cpp:427-431 | total minus free minus cached is the number of blocks in use |
| `PagedKvOwnership.RegisterOwned` | csrc/src/memory/paged_kv_cache.cpp:220-252 | a registration that walks live nodes yields a table with the fill of its prompt and disturbs no other sequence, also when it throws |
| `PagedKvOwnership.ContextLength` | csrc/src/memory/paged_kv_cache.cpp:358-362 | the closed form of the context length equals the sum of all block fills |
| `PagedKvOwnership.OwnedContext` | csrc/src/memory/paged_kv_cache.cpp:358-362 | for a rightly recorded sequence the staged length is the sum of its block fills, which is the recorded length |
| `PagedKvAppend.AppendOwned` | csrc/src/memory/paged_kv_cache.cpp:264-285 | an append adds its tokens to its own sequence only; if it throws, the length is what was placed so far |
| `PagedKvAppend.UnregisterOwned` | csrc/src/memory/paged_kv_cache.cpp:288-299 | unregistering one sequence leaves the fills and hashes of all others as they were |
| `PagedKvAppend.SharedBlocksSharePrefix` | csrc/src/memory/paged_kv_cache.cpp:191-203 | blocks of one sequence differ, and a block of two sequences stands for a common prefix of full token blocks |
| `PagedKvChunks.ChunkTotal` | csrc/src/memory/paged_kv_cache.cpp:175 | a prompt has one full block for every block size of its tokens |
| `PagedKvChunks.ChunkAt` | csrc/src/memory/paged_kv_cache.cpp:184-185 | block j is the j-th slice of the tokens |
| `PagedKvManager.PagedKVCache.constructor` | csrc/src/memory/paged_kv_cache.cpp:41-55 | all blocks free, lowest id on top of the stack, an empty tree |
| `PagedKvManager.PagedKVCache.EvictLruBlock` | csrc/src/memory/paged_kv_cache.cpp:101-124 | takes the state where the scan from the back of the LRU list leads, or reports that nothing can be evicted |
| `PagedKvManager.PagedKVCache.AllocatePhysicalBlock` | csrc/src/memory/paged_kv_cache.cpp:126-144 | result, exception and new state are those of the abstract allocation |
| `PagedKvManager.PagedKVCache.FreePhysicalBlock` | csrc/src/memory/paged_kv_cache.cpp:146-165 | the new state is that of the abstract release, for any block id |
| `PagedKvManager.PagedKVCache.LookupPrefix` | csrc/src/memory/paged_kv_cache.cpp:182-213 | the loop claims exactly the blocks of the longest matched path and ends at its node and hash |
| `PagedKvManager.PagedKVCache.PlaceChunks` | csrc/src/memory/paged_kv_cache.cpp:220-243 | the loop places and files the unmatched full blocks in order, stopping at the first failure |
| `PagedKvManager.PagedKVCache.PlaceTail` | csrc/src/memory/paged_kv_cache.cpp:245-249 | a tail or an empty prompt gets one block with its fill |
| `PagedKvManager.PagedKVCache.RegisterSequenceWithPrefix` | csrc/src/memory/paged_kv_cache.cpp:167-253 | result, exception and whole new state are those of the abstract registration |
| `PagedKvManager.PagedKVCache.AppendTokens` | csrc/src/memory/paged_kv_cache.cpp:255-286 | result, exception and whole new state are those of the abstract append |
| `PagedKvManager.PagedKVCache.ExtendTable` | csrc/src/memory/paged_kv_cache.cpp:273-284 | the precomputed number of blocks is exactly what the remaining tokens need |
| `PagedKvManager.PagedKVCache.UnregisterSequence` | csrc/src/memory/paged_kv_cache.cpp:288-299 | the whole new state is that of releasing every entry and dropping the table |
| `PagedKvManager.PagedKVCache.ForkSequence` | csrc/src/memory/paged_kv_cache.cpp:301-316 | result, exception and whole new state are those of the abstract fork |
| `PagedKvManager.PagedKVCache.GetStats` | csrc/src/memory/paged_kv_cache.cpp:423-445 | on a sound cache the reported numbers count the blocks that are free, cached and in use; they always add up to the total |
| `PagedKvManager.BlockSets` | csrc/src/memory/paged_kv_cache.cpp:427-431 | the free stack and the LRU list have one entry for each block of their kind, and the difference counts the blocks in use |
| `PagedKvManager.PagedKVCache.PrepareBatchMetadata` | csrc/src/memory/paged_kv_cache.cpp:318-365 | errors exactly for a batch over its limit, an unknown sequence or a table over its limit; otherwise each row of the flattened table is its page table padded with -1, inside the buffer, and each staged context length is the recorded length whenever the sequences are rightly recorded |
| `PagedKvManager.BatchErrorIff` | csrc/src/memory/paged_kv_cache.cpp:318-343 | a batch is accepted exactly if it has at most the permitted sequences, all of them registered, with tables of at most the permitted blocks; and which error is given otherwise |
| `PagedKvManager.RowMajor` | csrc/src/memory/paged_kv_cache.cpp:355 | the cell of row i and column b is i rows of full width and b further |
| `PagedKvManager.CellInjective` | csrc/src/memory/paged_kv_cache.cpp:355 | no two cells of the flattened table coincide |
| `BatchingProofs.ScheduleKeeps` | csrc/src/scheduler/continuous_batcher.cpp:53-116 | preemption is unreachable: all surviving running requests decode, none is preempted, the tokens are one per decode plus the admitted prompts and fit the budget; seats and budget bounds are kept |
| `BatchingProofs.NeverPreempts` | csrc/src/scheduler/continuous_batcher.cpp:53-137 | in every run of add, cancel, finish, schedule and writes by the token loop, running requests fit seats and budget and the next step preempts nothing |
| `BatchingProofs.ScheduleInOrder` | csrc/src/scheduler/continuous_batcher.cpp:86-112 | no request that is admitted later or left waiting has a higher priority than an admitted one, nor the same priority and an earlier arrival; someone is left waiting only for lack of a seat or because the best prompt does not fit |
| `BatchingProofs.AdmitKeeps` | csrc/src/scheduler/continuous_batcher.cpp:86-112 | the admission loop moves requests from the waiting pool to the running list without loss or repetition and counts their prompt tokens |
| `BatchingProofs.AddIff` | csrc/src/scheduler/continuous_batcher.cpp:12-28 | a request is taken exactly if it has a prompt and its id is not known; it then waits, and nothing else changes |
| `BatchingProofs.CancelIff` | csrc/src/scheduler/continuous_batcher.cpp:30-51 | a cancellation reports whether the id was known; the request is then finished, forgotten and not running, and nothing else changes |
| `BatchingProofs.FinishIff` | csrc/src/scheduler/continuous_batcher.cpp:139-148 | exactly the given requests that are known become finished |
| `BatchingProofs.FilterIff` | csrc/src/scheduler/continuous_batcher.cpp:59-69 | the filter keeps a request exactly if it is in the running state and has fewer tokens than its limit, a negative limit counting as 2^64 less its amount |
| `BatchingProofs.PreemptLowest` | csrc/src/scheduler/continuous_batcher.cpp:118-137 | preemption takes a request of the lowest priority from the running ones and leaves all others running |
| `BatchingProofs.OverBudget` | csrc/src/scheduler/continuous_batcher.cpp:72-116 | with more running requests than the budget a step decodes as many as it can pay for, in order, preempts one of the lowest priority and admits nothing |
| `BatchScheduler.ContinuousBatcher.AddRequest` | csrc/src/scheduler/continuous_batcher.cpp:12-28 | answer and new state of submitting a request, including the refusals |
| `BatchScheduler.ContinuousBatcher.CancelRequest` | csrc/src/scheduler/continuous_batcher.cpp:30-51 | answer and new state of a cancellation |
| `BatchScheduler.ContinuousBatcher.UpdateRequestsState` | csrc/src/scheduler/continuous_batcher.cpp:139-148 | the new state marks exactly the known ids as finished |
| `BatchScheduler.ContinuousBatcher.FilterRunning` | csrc/src/scheduler/continuous_batcher.cpp:59-69 | the loop keeps the unfinished running requests in order and forgets the others |
| `BatchScheduler.ContinuousBatcher.PreemptRequests` | csrc/src/scheduler/continuous_batcher.cpp:118-137 | the running request of lowest priority goes back to waiting |
| `BatchScheduler.ContinuousBatcher.ScheduleStep` | csrc/src/scheduler/continuous_batcher.cpp:53-116 | batch, token count, preempted count and new state are those of the abstract step |
| `BatchScheduler.ContinuousBatcher.AdmitWaiting` | csrc/src/scheduler/continuous_batcher.cpp:83-112 | the loop over the priority queue computes the abstract admission |
| `RunningRuns.StreamProtocol` | csrc/src/engine/model_runner.cpp:125-171 | in every run, the events of a request are its tokens in order, each determined by the prompt; only the last can be final; a request that finished by itself has its final event |
| `RunningRuns.FinishedCount` | csrc/src/engine/model_runner.cpp:132-160 | a request that finished by itself emitted exactly the smaller of its limit, at least 1, and the number of tokens up to the first end of sequence, where a negative limit is one of 2^64 less its amount |
| `RunningRuns.TokenClosedForm` | csrc/src/engine/model_runner.cpp:127-148 | the i-th token is (last prompt token + 1 + i) mod vocabulary |
| `RunningRuns.NextNegative` | csrc/src/engine/model_runner.cpp:127-129 | a negative token is taken as an unsigned number of 64 bits |
| `RunningRuns.DoOk` | csrc/src/engine/model_runner.cpp:69-174 | every operation keeps the agreement of events, records, lists and states |
| `RunningProofs.StepOk` | csrc/src/engine/model_runner.cpp:106-174 | a step keeps that agreement, whatever is cancelled between the scheduling decision and the filter |
| `RunningRuns.StepShrinks` | csrc/src/engine/model_runner.cpp:106-174 | on a nonempty closed system each step removes an entry or a remaining token, and adds none |
| `RunningRuns.Drains` | csrc/src/engine/model_runner.cpp:106-174 | with a seat and prompts that fit, every request is finished after at most remaining tokens plus entries many steps |
| `RunningRuns.StepRequest` | csrc/src/engine/model_runner.cpp:125-161 | a step emits at most one event per request, with one token, and finishes the request exactly if the event is final |
| `RunningRuns.StepInTurn` | csrc/src/engine/model_runner.cpp:106-171 | a step emits the prefilled requests in the order of their admission and then the decoded ones in running order, without those cancelled before |
| `TokenLoop.TokenStreamBuffer.PushBatch` | csrc/src/engine/model_runner.cpp:17-25 | the outputs are appended in order |
| `TokenLoop.TokenStreamBuffer.PopAll` | csrc/src/engine/model_runner.cpp:27-36 | the queue is returned in order and left empty |
| `TokenLoop.ModelRunner.CancelRequest` | csrc/src/engine/model_runner.cpp:69-77 | the new state of a cancellation |
| `TokenLoop.ModelRunner.FilterCancelled` | csrc/src/engine/model_runner.cpp:84-104 | what remains of each list is exactly the requests that were not cancelled, all of them, in their order |
| `TokenLoop.ModelRunner.GenerateTokens` | csrc/src/engine/model_runner.cpp:126-161 | the loop generates one token per request, with its event and its finished id |
| `TokenLoop.ModelRunner.Step` | csrc/src/engine/model_runner.cpp:106-174 | the new state of batcher, queue and cancelled set is that of the abstract step, and the number returned is the number of events emitted |
| `EngineRuns.EngineRun` | cudaforge/engine.py:167-249 | over every run no unfinished request lacks a page table, and while no step ran out of pages, ids with a page table, active requests and unfinished requests are the same sets, and the stream buffer is empty |
| `EngineProofs.AddCoupledIff` | cudaforge/engine.py:167-195 | add_request keeps the three sets equal if and only if the prompt is not empty or it needs more blocks than are available |
| `EngineProofs.AddEffect` | cudaforge/engine.py:167-195 | add_request issues the next id and, if the registration returns, stores its parameters and hands prompt, limit, priority and arrival to the scheduler unless the prompt is empty; nothing else of the engine changes |
| `EngineExamples.EmptyPromptExample` | cudaforge/engine.py:181-193 | an empty prompt on a new engine gets a page table but no request |
| `EngineProofs.StepCoupled` | cudaforge/engine.py:197-242 | a step can raise only because the pages ran out, never for an unknown sequence; if it does not, the sets stay equal and every sequence holds its prompt and its tokens |
| `EngineResults.StepResults` | cudaforge/engine.py:205-242 | a step that returns has one result per event, with its id and token, final exactly if the event is or the token is among the stop tokens its request was added with; a final request keeps neither entry nor page table, any other goes on with one token more in the cache |
| `EngineExact.StepSetsIff` | cudaforge/engine.py:197-242 | a step keeps the ids with a page table, the active and the unfinished requests equal if and only if the sequences that ask for another block are no more than the spare blocks, or the runner ends no request in the step |
| `EngineExact.StepCoupledIff` | cudaforge/engine.py:197-242 | it keeps the lengths exact, and with them everything, if and only if those sequences are no more than the spare blocks |
| `EngineExact.ForwardEvents` | csrc/src/engine/model_runner.cpp:106-165 | the events of a step are the next tokens of the requests in the next batch, which can be told before the step |
| `EngineExamples.BehindExample` | cudaforge/engine.py:211-233 | one block and one request: the step raises, the sequence is one token too short, and the three sets are still equal |
| `EngineExamples.SeparatedExample` | cudaforge/engine.py:211-242 | one block shared by two requests, the first of which ends: the step raises, and the ended request keeps its page table and its entry |
| `EngineExact.StepDoneIff` | cudaforge/engine.py:211-233 | a step raises if and only if the requests of its batch with a full last block and a next token that is not their last are more than the spare blocks |
| `EngineExact.AbsorbStops` | cudaforge/engine.py:211-233 | when an append raises, the tokens of the earlier events are appended and nothing else has changed |
| `EngineProofs.AppendErrors` | cudaforge/engine.py:223-224 | appending to a registered sequence can only run out of pages |
| `EngineRuns.CancelCoupled` | cudaforge/engine.py:244-248 | an id that is cancelled keeps neither page table nor entry, and the sets are equal afterwards if only that id was out of step |
| `EngineRuns.CancelRepairs` | cudaforge/engine.py:181-248 | cancelling the id that an empty prompt was given makes the sets equal again |
| `EngineRuns.EngineContext` | cudaforge/engine.py:197-242 | evictions or not, while no step ran out of pages and the prompts added walked live nodes, the staged context length of every active request is its prompt length plus its generated tokens |
| `EngineRuns.EvictionFreeContext` | cudaforge/engine.py:197-242 | the same for all prompts while nothing has been evicted |
| `EngineRuns.EngineKvRun` | cudaforge/engine.py:181-183 | the engine drives the cache through an ordinary run without forks, so the theorems on cache runs apply |
| `EngineRuns.EngineDrains` | cudaforge/engine.py:197-242 | as long as no step raises, a closed engine is empty, with no page table left, after at most the measure's number of steps |
| `EngineDrain.EngineEmpties` | cudaforge/engine.py:197-242 | if the blocks hold every active sequence at its longest, every step succeeds, and after the measure's number of steps nothing is active, no page table is left and every block is free or cached |
| `EngineDrain.ReachedEmpties` | cudaforge/engine.py:167-249 | the same for every engine reached from the start without a step that raised, if its prompts walked live nodes and nothing has leaked |
| `EngineDrain.ReachedClean` | cudaforge/engine.py:167-249 | such an engine has the sets equal, the lengths exact and its cache in order |
| `EngineDrain.RoomySuffices` | cudaforge/engine.py:223-224 | under that bound no step can run out of pages |
| `EngineRuns.NothingHeld` | csrc/src/memory/paged_kv_cache.cpp:288-299 | when no page table is left and nothing leaked, every block is free or cached |
| `LlmEngine.LLMEngine.AddRequest` | cudaforge/engine.py:167-195 | result, exception and new state of all parts are those of the abstract call |
| `LlmEngine.LLMEngine.Step` | cudaforge/engine.py:197-242 | result, exception and new state of all parts are those of the abstract call |
| `LlmEngine.LLMEngine.AbsorbAll` | cudaforge/engine.py:211-233 | the loop over the events appends, records and collects finished ids up to the first exception |
| `LlmEngine.LLMEngine.CleanUpFinished` | cudaforge/engine.py:236-240 | finished requests are marked, unregistered and forgotten |
| `LlmEngine.LLMEngine.CancelRequest` | cudaforge/engine.py:244-248 | for any id the new state of all parts is that of the abstract call; for an id that was issued no unfinished request is without a page table afterwards |
| `Speculative.SpeculativeEngine.VerifyCandidatesGreedy` | csrc/src/scheduler/speculative.cpp:105-150 | the accepted tokens are the longest run of drafts the target agrees with, cut at the end of sequence, followed by the target's own choice |
| `Speculative.SpeculativeEngine.MaxElement` | csrc/src/scheduler/speculative.cpp:117-120 | the position of the first largest entry |
| `SpeculativeGreedy.GreedyUnique` | csrc/src/scheduler/speculative.cpp:105-150 | that description admits only one outcome |
| `SpeculativeGreedy.RoundIsGreedy` | csrc/src/scheduler/speculative.cpp:105-150 | what a round emits is a nonempty prefix of plain greedy decoding, at most one token longer than the drafts, and the end is reported exactly |
| `SpeculativeGreedy.SpeculationIsGreedy` | csrc/src/scheduler/speculative.cpp:105-150 | iterated rounds with arbitrary drafts, up to the end or a length limit, yield exactly plain greedy decoding |
| `Speculative.SpeculativeEngine.SampleFromDistribution` | csrc/src/scheduler/speculative.cpp:11-24 | one draw picks the first index at which the cumulative sum reaches it |
| `Speculative.SpeculativeEngine.SampleAdjustedDistribution` | csrc/src/scheduler/speculative.cpp:26-48 | one draw picks from the normalized positive part of p - q, or from p if its sum is at most 1e-6 |
| `Speculative.SpeculativeEngine.VerifyCandidates` | csrc/src/scheduler/speculative.cpp:50-103 | result and number of draws of the abstract verification; mismatched dimensions are an error without a draw |
| `SpeculativeLaw.PickLaw` | csrc/src/scheduler/speculative.cpp:15-23 | index k is picked exactly on an interval of draws of length p[k], for all draws from 0 to 1 |
| `SpeculativeLaw.PositionDraws` | csrc/src/scheduler/speculative.cpp:66-94 | the token emitted at a position, in terms of the two draws made there: the ratio, and an interval as long as the residual |
| `SpeculativeLaw.AcceptLaw` | csrc/src/scheduler/speculative.cpp:66-75 | a draft is accepted with probability min(1, p/q), and never if its draft probability is 0 |
| `SpeculativeLaw.RejectedIsExcess` | csrc/src/scheduler/speculative.cpp:30-35 | the probability of a rejection is the sum of the adjusted row |
| `SpeculativeLaw.ResidualDistribution` | csrc/src/scheduler/speculative.cpp:37-47 | replacements are drawn from a distribution |
| `SpeculativeLaw.PositionIsTarget` | csrc/src/scheduler/speculative.cpp:66-94 | the token emitted where verification arrives has probability p[x] if and only if the adjusted sum exceeds 1e-6 or the adjusted entry equals that sum times p[x]; it is off by at most 1e-6 in any case |
| `SpeculativeLaw.FallbackIsOff` | csrc/src/scheduler/speculative.cpp:37-40 | two concrete rows for which the fallback changes the law |
| `SpeculativeLaw.ExactAbove` | csrc/src/scheduler/speculative.cpp:37-47 | concrete rows with an adjusted sum just above 0.000001 on which the law is exact |
| `SpeculativeLaw.SpeculativeIsTarget` | csrc/src/scheduler/speculative.cpp:66-102 | going from position to position, speculative decoding gives every word the target's probability, exactly if no position falls back and to within 1e-6 per token otherwise |
| `SpeculativeBoxes.RejectedIff` | csrc/src/scheduler/speculative.cpp:66-94 | a verification accepts drafts up to a, rejects draft a and replaces it by t exactly when the draws lie in a box: at most each ratio, above the ratio of a, and in the interval of t |
| `SpeculativeBoxes.BonusIff` | csrc/src/scheduler/speculative.cpp:66-102 | it accepts all drafts and emits t after them exactly when the draws lie in a box |
| `SpeculativeBoxes.EndsIff` | csrc/src/scheduler/speculative.cpp:74-83 | it stops at an accepted end of sequence exactly when the drafts up to it are accepted |
| `SpeculativeBoxes.AcceptedIff` | csrc/src/scheduler/speculative.cpp:66-83 | it accepts at least the drafts up to a - 1 exactly when each of their draws is at most its ratio and none but the last of them ends the sequence |
| `SpeculativeRounds.RejectVolume` | csrc/src/scheduler/speculative.cpp:66-94 | the volume of the rejecting box is the product of the ratios, of what exceeds the last ratio, and of the residual of t |
| `SpeculativeRounds.BonusVolume` | csrc/src/scheduler/speculative.cpp:96-97 | the volume of the bonus box is the product of all ratios and of the probability of t |
| `SpeculativeRounds.AcceptVolume` | csrc/src/scheduler/speculative.cpp:74-83 | the volume of accepting a run of drafts is the product of their ratios |
| `SpeculativeRounds.NoVolume` | csrc/src/scheduler/speculative.cpp:66-94 | drafts that differ from the emitted tokens, or end the sequence before them, contribute nothing |
| `SpeculativeRounds.RoundLawStep` | csrc/src/scheduler/speculative.cpp:66-102 | summing draft probability times volume over all drafts gives the law of a round, one position at a time |
| `SpeculativeRounds.DecodesIsLaw` | csrc/src/scheduler/speculative.cpp:50-103 | rounds following one another have the law that goes from position to position |
| `SpeculativeRounds.RoundsAreTarget` | csrc/src/scheduler/speculative.cpp:50-103 | decoding by rounds gives every word the target's probability, exactly if no position falls back and to within 1e-6 per token otherwise |
| `FlashAttention.AttendRow` | csrc/kernels/triton/flash_attn_triton.py:56-105 | the row of output equals direct softmax attention in causal mode for every number of keys; otherwise if and only if the tile size divides it or the column's weighted values sum to zero |
| `FlashAttention.NonCausalExample` | csrc/kernels/triton/flash_attn_triton.py:65-105 | one key in a tile of two without the mask: half of the weight goes to a lane that holds no key |
| `FlashAttention.AttendTile` | csrc/kernels/triton/flash_attn_triton.py:68-102 | the accumulators stay the sums rescaled to the running maximum, which bounds every score seen |
| `FlashAttention.TileStep` | csrc/kernels/triton/flash_attn_triton.py:82-100 | rescaling the old sums and adding the tile's gives the sums of all lanes at the new maximum |
| `FlashAttention.LanesAre` | csrc/kernels/triton/flash_attn_triton.py:65-80 | lanes past the row add nothing in causal mode; lanes past the last key add one unit of mass each otherwise |
| `FlashAttention.CausalEnd` | csrc/kernels/triton/flash_attn_triton.py:65 | skipping the tiles past the row loses nothing in causal mode |
| `FlashAttention.FirstLane` | csrc/kernels/triton/flash_attn_triton.py:80-83 | the running maximum is finite from the first tile on, so no difference of infinities is formed |
| `FlashAttention.LanesVersusDirect` | csrc/kernels/triton/flash_attn_triton.py:105 | when the quotient over all lanes is the direct softmax |
| `FlashAttention.WeightIff` | csrc/kernels/triton/flash_attn_triton.py:65-80 | in direct softmax attention a key has weight, the exponential of its score, exactly if it exists and is not past the row under the causal mask |
| `FlashAttention.CausalPast` | csrc/kernels/triton/flash_attn_triton.py:65-105 | in causal mode the row does not depend on keys and values after it |
| `FlashAttention.DotLinear` | csrc/kernels/triton/flash_attn_triton.py:75 | the score is linear in the key |
| `FlashAttention.DotUnit` | csrc/kernels/triton/flash_attn_triton.py:75 | and picks the query entry of a unit key, so it is the inner product |
| `Allocator.EveryInterleaving` | csrc/src/memory/block_allocator.cpp:58-178 | under every interleaving of threads, recorded addresses are the driver's and held by nobody else, the total and each category's counter are the recorded sizes, peak is at least total, and total plus in-flight stays within the limit plus one request of each other thread |
| `Allocator.RecordIsFresh` | csrc/src/memory/block_allocator.cpp:125-137 | recording never overwrites a live entry |
| `Allocator.PeakIsGreatest` | csrc/src/memory/block_allocator.cpp:133-216 | since the start or the last reset, the peak is the greatest of all totals there have been |
| `Allocator.BoundReached` | csrc/src/memory/block_allocator.cpp:69-137 | for every set of threads and every request size some interleaving reaches that bound, up to the alignment of the limit |
| `Allocator.LimitHoldsIff` | csrc/src/memory/block_allocator.cpp:69-137 | the total stays within the limit under every interleaving if and only if there is at most one thread or the limit is below the smallest allocation |
| `Allocator.Overshoot` | csrc/src/memory/block_allocator.cpp:69-110 | two threads on a limit of 256 bytes allocate 512 |
| `Allocator.AlignIsLeast` | csrc/src/memory/block_allocator.cpp:43-45 | the aligned size is the least multiple of 256 that holds the bytes |
| `Allocator.NextBalanced` | csrc/src/memory/block_allocator.cpp:133-166 | every atomic step keeps the books balanced |
| `Allocator.NextSeparate` | csrc/src/memory/block_allocator.cpp:113-170 | every atomic step keeps recorded and in-between addresses apart |
| `Allocator.NextBudget` | csrc/src/memory/block_allocator.cpp:69-137 | every atomic step keeps total plus in-flight within the bound |
| `GpuMemory.BlockAllocator.Allocate` | csrc/src/memory/block_allocator.cpp:58-144 | result and new state are those of the steps of one thread in a row |
| `GpuMemory.BlockAllocator.Free` | csrc/src/memory/block_allocator.cpp:146-178 | the new state is that of the steps of one thread in a row |
| `GpuMemory.BlockAllocator.ResetPeakStats` | csrc/src/memory/block_allocator.cpp:213-216 | the peak becomes the total |
| `Pool.BucketIsLeast` | csrc/src/memory/buffer_pool.cpp:25-34 | the bucket is the least power of two that holds the bytes and is at least 256; alignment leaves it alone |
| `Pool.PoolTotals` | csrc/src/memory/buffer_pool.cpp:36-181 | pooled bytes are active plus cached bytes and are the allocator's record of the pool's addresses; requested bytes are at most active bytes |
| `Pool.HitOk` | csrc/src/memory/buffer_pool.cpp:73-91 | a hit keeps buckets, nodes and counters in agreement |
| `Pool.AttemptOk` | csrc/src/memory/buffer_pool.cpp:36-60 | an allocation attempt succeeds exactly within the budget and with the driver's consent, adds one used node, and otherwise changes nothing |
| `Pool.ReleaseOk` | csrc/src/memory/buffer_pool.cpp:144-181 | a release keeps buckets, nodes and counters in agreement, for any pointer |
| `Pool.PurgeOk` | csrc/src/memory/buffer_pool.cpp:183-215 | a purge leaves exactly the buffers in use and gives the allocator back exactly the cached bytes |
| `Pool.AcquireIff` | csrc/src/memory/buffer_pool.cpp:62-142 | acquire on a nonzero size succeeds exactly when the bucket is cached, or an attempt fits with the driver's consent, before or after the purge; the buffer was not in use and no used buffer changes |
| `Pool.EveryPoolRun` | csrc/src/memory/buffer_pool.cpp:36-215 | in every run of acquire, release and purge, buckets, nodes, counters and allocator agree, the allocator stays within its limit, and hits plus misses stay in step with the allocations |
| `Pool.AcquireSucceeds` | csrc/src/memory/buffer_pool.cpp:62-142 | while the driver does not fail, acquire succeeds exactly when the bucket is cached or the total without the cached bytes leaves room for it |
| `Pool.AcquireCounts` | csrc/src/memory/buffer_pool.cpp:62-142 | each acquire counts one allocation and one hit or miss, and a recovery exactly if the first attempt failed; the peak follows the pooled bytes; the buffer has the newest frame and, if it is new, the category asked for |
| `Pool.StepPoolCounts` | csrc/src/memory/buffer_pool.cpp:36-215 | whatever is done, the peak is the greatest number of bytes pooled so far |
| `Pool.ReleasedIsNext` | csrc/src/memory/buffer_pool.cpp:73-91 | the buffer released last into a bucket is the next one handed out from it |
| `GpuMemory.BufferPool.CalculateBucketSize` | csrc/src/memory/buffer_pool.cpp:25-34 | the loop computes the bucket size without overflow up to 2^63 bytes |
| `GpuMemory.BufferPool.AttemptAllocation` | csrc/src/memory/buffer_pool.cpp:36-60 | result and new state of an attempt |
| `GpuMemory.BufferPool.Acquire` | csrc/src/memory/buffer_pool.cpp:62-142 | result and new state are those of the abstract acquire |
| `GpuMemory.BufferPool.Release` | csrc/src/memory/buffer_pool.cpp:144-181 | the new state is that of the abstract release |
| `GpuMemory.BufferPool.PurgeFreeBuffers` | csrc/src/memory/buffer_pool.cpp:183-215 | in whatever order the buckets are visited, the new state is that of the abstract purge, and the bytes returned are the cached ones |
| `Pareto.NonDominated` | eval_platform/statistics/pareto.py:62-72 | a point ends flagged exactly when no point of the whole input dominates it, although scans skip points already cleared |
| `Pareto.DominatesIff` | eval_platform/statistics/pareto.py:39-60 | rows of the matrix dominate each other exactly if one point is at least as good in every metric, in its direction, and better in one |
| `Pareto.OptimalDominator` | eval_platform/statistics/pareto.py:67-72 | every dominated point has a dominator that is not dominated |
| `Pareto.ComputeParetoFrontier` | eval_platform/statistics/pareto.py:39-72 | the same in terms of metrics and directions, with the error case; a nonempty input has an optimal point |
| `Pareto.SomeOptimal` | eval_platform/statistics/pareto.py:75-95 | the frontier is not empty, so the minimum distance is defined |
| `Rouge.LcsIsLongest` | eval_platform/pipelines/accuracy_eval.py:186-197 | the final cell is the greatest length of a common subsequence: some common subsequence has it and none is longer |
| `Rouge.LcsLength` | eval_platform/pipelines/accuracy_eval.py:186-197 | the table loops compute the recurrence |
| `Rouge.LcsAtMost` | eval_platform/pipelines/accuracy_eval.py:186-197 | the length is at most either sequence's and reaches both only for equal sequences |
| `Rouge.ScoresInUnit` | eval_platform/pipelines/accuracy_eval.py:164-176 | ROUGE-L F1 lies in [0, 1], is 1 exactly for equal nonempty sequences, and is never below the positional token accuracy |
| `Rouge.AccuracyIs` | eval_platform/pipelines/accuracy_eval.py:142-162 | token accuracy is the number of equal positions over the length of the longer sequence, and 1 exactly on equal nonempty sequences |
| `Rouge.F1Closed` | eval_platform/pipelines/accuracy_eval.py:164-176 | ROUGE-L F1 is twice the common length over the sum of both lengths |
| `Rouge.ExactIsCount` | eval_platform/pipelines/accuracy_eval.py:142-183 | exact match is the share of pairs that are equal |
| `Rouge.EvaluateCorrectness` | eval_platform/pipelines/accuracy_eval.py:142-183 | the three means over all pairs, all in [0, 1], with token accuracy at most ROUGE-L, and exact match the number of equal pairs over all pairs |
| `Quantization.RecoveredIff` | cudaforge/quantization.py:181-195 | a number comes back to within half a step if and only if it lies at most half a step outside the range |
| `Quantization.NothingClamped` | cudaforge/quantization.py:53-73 | with the symmetric min-max scale no entry is clamped |
| `Quantization.RoundTies` | cudaforge/quantization.py:181-195 | halves round to the even neighbour |
| `Quantization.ScaleReaches` | cudaforge/quantization.py:53-73 | the scale is at least 0.00000001, and above that the largest entry is exactly the scale times the top of the range |
| `Quantization.Ranges` | cudaforge/quantization.py:53-73 | the ranges end at 7 for 4 bits and at 127 for 8, and a row of zeros gets the lower bound as its scale |
| `Quantization.Int8RoundTrip` | cudaforge/quantization.py:181-195 | INT8 quantizing and dequantizing recovers every entry to within half a step |
| `Quantization.NibblesRoundTrip` | cudaforge/quantization.py:216-233 | two 4-bit numbers survive packing into a byte |
| `Quantization.NibbleRoundTrip` | cudaforge/quantization.py:214-233 | signed numbers from -8 to 7 survive the offset |
| `Quantization.PackedEntry` | cudaforge/quantization.py:198-239 | unpacking a packed row gives back each entry's quantized value |
| `Quantization.Int4RoundTrip` | cudaforge/quantization.py:198-239 | INT4 packing and unpacking recovers every entry to within half a step of its row's scale, for every even width |
| `Quantization.PackInt4Gemm` | cudaforge/quantization.py:198-222 | odd widths are refused; otherwise each row is packed pair by pair |
| `Quantization.UnpackInt4Gemm` | cudaforge/quantization.py:225-239 | even columns come from low nibbles and odd columns from high nibbles, times the row's scale |

Operations that have no contract of their own in the table (`PagedKv.Register`,
`Batching.Schedule`, `Running.Step`, `Engine.StepCall`, `Pool.Acquire` and the like) are
the specification functions the methods above are proved against.

## Left out

- Machine integers: counters, ids and sizes are unbounded, except that a negative token limit is compared as a 64-bit number, tokens are incremented on 64 bits, and bucket sizes up to 2^63 are shown not to overflow.
- Floating point: probabilities, scores, scales and means are real numbers; the conversions to FP16 inside the attention kernel and of the INT4 scales are not modelled.
- PagedKvPrefix.LookupIsLongest: assumes a hash without collisions that never returns 0, because the code compares hashes only.
- PagedKvTheorems.SharingIsPrefix: assumes the same of the hash; a block without a hash is shared only between a sequence and its forks, which is stated for runs without forks.
- PagedKvSharing.SharingIff: the same.
- EngineRuns.CancelCoupled: promises that the sets stay equal only for ids that have been issued. An id can also be cancelled before `add_request` returns it; the request that gets it later is then dropped from every batch, which no theorem describes.
- RunningRuns.StreamProtocol: a request is submitted under an id that was not cancelled before, for the same reason.
- SpeculativeRounds.RoundsAreTarget: the probability of a box of draws is the product of its sides, which is how independent uniform draws are taken to behave, not derived from a measure.
- Objects shared by pointer: tree nodes are entries of an arena and request objects are records of one store, so sharing is by index and id. The iterator a block keeps into the LRU list is the position of its id.
- `hash_to_node_map_`, which is written but never read, and `touch_lru`, which is never called.
- The order among waiting requests of equal priority and arrival time, which the priority queue leaves open: the model takes the entry that comes first.
- The order the sort for preemption gives to equal priorities; the preemption branch is shown to be unreachable.
- `BufferPool.release` only logs that the cached bytes exceed their limit, so no bound on them is stated.
- Mutexes around whole methods; only the allocator, which drops its lock, and cancellations during a step are modelled as interleavings.
- One source function is sometimes several methods of a class, one for each of its loops.
- Device pointers, streams, copies to the device, logging, byte-size statistics and ratios derived from the counters.
- The distances to the Pareto frontier, the KL-divergence calibration, SmoothQuant scales and drift reports.
- The asymmetric quantization range has no theorem of its own beyond `Quantization.RecoveredIff`, which covers every range.
- The asynchronous engine, the HTTP server, metrics, profiling, autotuning and experiment tracking.
- The kernels for attention in CUDA, RMSNorm, RoPE and matrix products, and the Python speculative engine.
- Fairness under endless arrivals: strict priority and head-of-line blocking do not provide it.
