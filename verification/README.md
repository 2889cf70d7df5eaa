# A verified model of the inference engine's scheduler and the benchmark's protocols

The repository holds an LLM inference engine (continuous batching over a paged KV cache) and a benchmark
pipeline around it. This project models the parts whose correctness is claimed over every schedule, every
interleaving or every input, and proves those claims with Dafny 4.11. `dafny verify dfyconfig.toml` checks
everything.

## The engine

The scheduler is modelled twice.

* As a state machine over values (`SchedulerSpec`): retire, admit, decode, with the allocator (`Alloc`) as a
  value. `Invariant`, `Preservation`, `StepSafety`, `Eviction` and `StepTheorem` prove what every step keeps;
  `Liveness`, `Starvation` and `Fairness` prove that work gets done; `Runs` states the results for whole runs.
* As the engine runs it: mutable requests (`Requests`), allocators (`BlockManager`), a KV pool that is an array
  written in place (`Cache`), the batched forward pass (`ModelRunner`), and a `Scheduler` class whose every
  method is proved to do to its objects exactly what the state machine does to its values. The values say
  "emit the token a cache-free pass would give"; the class gets its tokens from the shared pool through block
  tables, in padded batches, and has to give the same ones. `Engine.Serve` and `Engine.GenerateBatch` are
  where both meet: whatever happens to the engine, each request says what the single-request reference
  (`Reference`) says, and a batch call returns.

The network is abstract: one layer's arithmetic is an arbitrary deterministic function (`Transformer`), and
what is kept is which K/V entries each position may read. Sampling is an arbitrary deterministic function of
the logits and the request's own generator.

How the two halves are organised:

| modules | content |
|---|---|
| `Seqs`, `BlockMath` | stable sorting, multisets, sums over dictionaries, ceiling division |
| `Transformer`, `Reference` | the abstract network, causality, what one request says alone, the single-sequence loop |
| `Cache`, `ModelRunner` | masks, positions, scatter and gather through tables, the batched step |
| `Requests`, `Alloc`, `BlockManager` | requests and the two allocators, as values and as objects |
| `SchedulerSpec`, `Invariant`, `Preservation`, `StepSafety`, `Eviction`, `StepTheorem` | the step and what it keeps |
| `Liveness`, `Starvation`, `Fairness`, `Runs` | progress, no starvation, whole runs |
| `Filling`, `Leaving`, `Victims` | admission takes all it can, who leaves and when, and exactly who is evicted |
| `Headroom`, `HeadroomRun` | what admission leaves free, exactly when a step evicts or raises, and the run in which the headroom falls short |
| `Stuck`, `SizeLimit`, `FrontDoor` | requests the pool cannot see through: what they do to the engine, exactly which they are, and what the front door makes of them |
| `Faults`, `WorstCase`, `DuplicateIds` | exactly when a step fails with preemption off, and runs in which it does |
| `SchedulerCache`, `EmitSteps`, `DecodeSteps`, `Scheduler`, `Engine` | the engine as mutable objects |
| `PassAtK`, `KafkaWorker`, `Spend`, `Nucleus`, `Detokenizer` | one theorem each, self-contained |

Hypotheses about the environment:

* the front door lets through prompts of 1 to maxContext - 1 tokens (engine/engine/api.py:246), and a request
  submitted later has a later arrival time. Ids and budgets are the clients' own (engine/engine/api.py:53 and 191):
  ids may repeat, and budgets may be zero or negative, in which case the request says one token
  (`Runs.Sendable`);
* under worst-case admission only, safety and what follows from it ask two things more of a request: its id is in
  use by no live request, because commitments are kept by id, and its commitment covers its prompt, which fails
  only for budgets below zero (`Runs.Committing`). The results on runs that break them are below;
* the progress results ask that the pool can see every request through (`StepTheorem.Fits`), which is exactly
  what they need; safety and schedule independence do not ask it;
* the allocator is built to match the configuration, as the facade does: worst-case admission exactly when
  preemption is off, slots as long as the context (`Invariant.Matches`);
* `cancelled` flips between steps. A step reads each request's flag once, when it retires, so a flip in the
  middle of a step acts either in that step or in the next one;
* logits are exact: last-bit differences between batch shapes are outside the contract, as the sampler's own
  documentation says.

Two corners that shape the invariants. A request that finishes in its prefill stays on the running list,
holding its blocks, until the next retirement; so an active row can be evicted even when it is the only
active one, and progress is proved for the step as a whole (the prefill said a token) instead of for decoding
alone. And in continuous mode all admitted requests get their blocks before the first is prefilled; so the
invariant carries a list of requests that hold memory but are not running yet.

Three places where the code does less than its comments say.

* Admission keeps a headroom so that admitting into a full pool does not "only force an immediate preemption"
  (engine/engine/scheduler.py:76-81). The test counts the rows running and those admitted before, but not the
  request being admitted, so the pool can end up one block short of what the next tokens need and the admitting
  step can evict. `Headroom` gives the exact condition under which a step evicts nobody, shows that the shortfall
  costs at most one eviction, that counting the newcomer would be enough to rule evictions out, and, in
  `HeadroomRun`, that for every network two ordinary requests lead a fresh engine to a step that admits the
  second, hears its first token and evicts it.
* `fits_ever` is to be false "if the request could not complete even with the whole pool to itself"
  (engine/engine/block_manager.py:74-77). Under optimistic admission the exact condition is another one. The last
  token a request says is never stored, so what the pool must hold is the prompt and all of the output but one
  token (`StepTheorem.Fits`): whatever stops by itself satisfies it, and in an endless run that nobody leaves,
  everybody finishes if and only if everybody satisfies it (`SizeLimit`). `FrontDoor` compares the two: the test
  refuses the requests that would fill the pool to the last position, and lets in prompts longer than the pool if
  their budget is negative; every pool smaller than the context has a run for each mistake. Nor is an oversized request
  "preempted and readmitted forever": a request alone either finishes or ends up first in line with nothing
  running, and from then on nothing runs while its client stays, whoever else arrives (`Stuck`).
* With preemption off, `reserve_max_new` "must never over-commit" (engine/engine/block_manager.py:64-68). Its
  commitments are kept by request id, so two live requests under one id are counted once, and a negative budget
  can commit less than the prompt takes. `Faults` says, for every run with any ids and any budgets, exactly which
  steps fail: those where some front of the queue is let in although it needs more blocks than are free, which is
  `allocate`'s assertion, and those where the rows then running ask for more than is left, which is the "out of
  KV blocks" error. `WorstCase` and `DuplicateIds` give runs for both, and the budgets that are safe on every
  pool.

## The protocols

`PassAtK` proves the product form equal to a ratio of binomial coefficients, that ratio equal to a fraction of
subsets, and its expectation equal to the chance it estimates. `KafkaWorker` is a state machine over every
interleaving of workers that crash and partitions that move; `Spend` one over every interleaving of workers
that check, call and record. `Nucleus` proves the top-256 fast path equal to the full sort. `Detokenizer`
defines UTF-8 decoding with replacement (sections 3 and 4 of RFC 3629, section 3.9 of the Unicode Standard) and
proves that streaming equals whole-text decoding.

## Model

| member | source | states |
|---|---|---|
| `Engine.Engine.Serve` | engine/engine/scheduler.py:26-192 | a fresh engine, driven through any sequence of arrivals, disconnections and steps on its objects and shared pool, leaves in every request object a prefix of its stand-alone output, all of it if the request stopped by itself, with one draw of its own generator per token |
| `Engine.Engine.GenerateBatch` | engine/engine/scheduler.py:256-265 | if the pool can see each prompt through, the call returns, and every prompt of the batch gets exactly the output of the single-request reference, in either batching mode, on slots or blocks of any size, with or without preemption, whatever the engine ran before |
| `Engine.Engine.constructor` | engine/engine/scheduler.py:234-254 | the pool and allocator built from a byte budget satisfy the engine's invariant; slots number between one and the batch size |
| `Engine.Engine.Blocked` | engine/engine/scheduler.py:242-246 | as many blocks as the budget holds; worst-case admission exactly when preemption is off; pool and allocator have the same geometry |
| `Engine.Engine.Contiguous` | engine/engine/scheduler.py:248-253 | as many slots as the byte budget holds, but at least one and at most one per batch row, each as long as the context |
| `Engine.Engine.Drain` | engine/engine/scheduler.py:263-264 | stepping until there is no work terminates and keeps every request's promised output |
| `Engine.IdleFulfilled` | engine/engine/scheduler.py:43-44 | when the engine has no work left, every request that was not cancelled is finished and has said all it was to say |
| `Runs.ScheduleIndependence` | engine/engine/scheduler.py:47-192 | in every run (any arrivals, cancellations, modes, block sizes, evictions) a request's output is a prefix of its stand-alone output, equal to it once it stops by itself, and its generator has made exactly one draw per token said |
| `Runs.RunSafe` | engine/engine/scheduler.py:47-178 | every reachable state satisfies the invariant and no assertion or out-of-blocks error was ever hit |
| `Runs.Conservation` | engine/engine/scheduler.py:52-116 | in every state between steps the free list and the tables partition the pool, each request is in exactly the list its state says and once, tables are disjoint and have the exact lazy size, at most maxBatch run, sinks heard exactly the tokens said, and evictions never outnumber tokens |
| `Runs.FinishReasons` | engine/engine/scheduler.py:180-192 | in every reachable state a request has stopped with reason "length" exactly if its budget is spent, with reason "stop" exactly if its text ended within it and was allowed to, and one that has not stopped, or was cancelled, meets neither condition |
| `Runs.LazyAllocation` | engine/engine/block_manager.py:86-103 | used blocks hold the stored tokens with at most blockSize - 1 positions to spare per running request |
| `Runs.IdleAllFree` | engine/engine/block_manager.py:105-109 | an idle engine has every block back |
| `Runs.StepDrains` | engine/engine/scheduler.py:47-50 | a step either leaves no work or strictly fewer tokens to say |
| `Runs.Drains` | engine/engine/scheduler.py:47-50 | with no new arrivals the queue drains within one step more than there are tokens left |
| `Runs.SubmitKeeps` | engine/engine/scheduler.py:36-41 | submission keeps the invariant, for any budget and, except under worst-case admission, any id |
| `Runs.CancelKeeps` | engine/engine/request.py:35-35 | a disconnection changes nothing but the flag until the next retirement |
| `Reference.CapAgrees` | engine/engine/scheduler.py:37-39 | capping the budget at submission stops at the same token as the reference's own test of the context limit |
| `Reference.GenerateCached` | engine/engine/model_runner.py:170-186 | the single-sequence loop over a contiguous cache computes the cache-free definition of greedy generation |
| `Reference.ForwardSingle` | engine/engine/model_runner.py:103-131 | prefill and one-token decode both give the logits of the whole sequence and leave its K/V cached |
| `Reference.ContiguousKVCache.Write` | engine/engine/cache.py:33-37 | exactly the written positions of the written layer change |
| `Reference.DrawsAdd` | engine/engine/sampling.py:54-61 | drawing m tokens and then n is drawing m + n: the generator's state is all that is carried over |
| `Reference.TracedIff` | engine/engine/sampling.py:54-69 | what a request draws is exactly this: there are generator states, the first its own, such that each token and the next state are what one draw from the state before gives on the logits of everything before it; without a sampler each token is the most probable one |
| `Reference.GenerateExact` | engine/engine/model_runner.py:170-186 | a request on its own is said draw by draw in this sense, up to and including the first token at which the budget is spent, the context is full, or the text ends and may end |
| `Transformer.Causal` | engine/engine/model_runner.py:119-121 | what is computed at a position does not depend on later tokens, so cached entries stay right as a sequence grows |
| `ModelRunner.StepTokens` | engine/engine/model_runner.py:135-168 | in one ragged batch each row gets the token and generator state it would get alone with no cache, its cache then covers the tokens fed, and whoever owns none of the batch's blocks reads its own K/V as before |
| `ModelRunner.PickTokens` | engine/engine/sampling.py:63-69 | rows without a sampler are greedy, the others draw from their own generator only; the all-greedy shortcut agrees |
| `ModelRunner.AttendRowExact` | engine/engine/model_runner.py:156-160 | a real column's attention ignores padding, stale cells and other rows' blocks |
| `ModelRunner.EmbedExact` | engine/engine/model_runner.py:146-149 | real columns are embedded with their own token at their own position, which the clamp leaves alone |
| `Cache.MaskSound` | engine/engine/cache.py:61-75 | a real query at column t of row i may read key j exactly when j <= starts[i] + t, in the general form and in both single-row shortcuts |
| `Cache.SelectIsPrefix` | engine/engine/cache.py:61-75 | the keys a real query attends to are exactly those up to its own position, in order |
| `Cache.KVPool.Write` | engine/engine/cache.py:151-163 | a step writes its real columns to their rows' cells and nothing else: no pad column, no cell of a block outside the batch's tables |
| `Cache.KVPool.WriteDecode` | engine/engine/cache.py:96-101 | the one-scatter decode form writes the same cells |
| `Cache.KVPool.OneOwner` | engine/engine/cache.py:157-161 | across disjoint tables a cell belongs to one row and one position of it |
| `Cache.KVPool.GatherPaged` | engine/engine/cache.py:141-179 | gathering through a table, padded with block 0, returns at every stored position what the table's owner wrote there |
| `Cache.KVPool.GatherSlot` | engine/engine/cache.py:107-111 | the contiguous gather returns the same |
| `Cache.KVPool.PaddedReads` | engine/engine/cache.py:142-144 | padding a table with block 0 changes nothing its owner reads |
| `Scheduler.Scheduler.Step` | engine/engine/scheduler.py:47-50 | the step on objects, KV pool and allocator does exactly what the value-level step does, and keeps the tie between them |
| `Scheduler.Scheduler.Submit` | engine/engine/scheduler.py:36-41 | the object joins the queue with its budget capped, and nothing else changes |
| `Scheduler.Scheduler.Retire` | engine/engine/scheduler.py:52-69 | cancelled requests leave the queue or end, every finished one leaves the running list and gives its memory back, and no unfinished one does |
| `Scheduler.Scheduler.PopAdmissible` | engine/engine/scheduler.py:71-86 | the sorted queue is popped from the front only, each popped request gets its memory, and the memory is always there |
| `Scheduler.Scheduler.Admit` | engine/engine/scheduler.py:88-102 | static and continuous admission, whose prefills run as one batch or one by one, have the same value-level effect |
| `Scheduler.Scheduler.Prefill` | engine/engine/scheduler.py:104-116 | each admitted row says the token a cache-free pass over prompt and earlier output gives, and its K/V is then cached |
| `Scheduler.Scheduler.EnsureCapacity` | engine/engine/scheduler.py:143-167 | the loop over objects terminates with the value-level outcome, keeps every surviving row's K/V, and never reaches the out-of-blocks error |
| `Scheduler.Scheduler.Preempt` | engine/engine/scheduler.py:169-178 | the victim's blocks go back, it leaves the running list and rejoins the queue with all its tokens |
| `Scheduler.Scheduler.Victim` | engine/engine/scheduler.py:159-160 | the row chosen is the first with fewest evictions and, among those, the most recent admission |
| `Scheduler.Scheduler.Decode` | engine/engine/scheduler.py:118-140 | surviving rows say one token each, read through the shared pool, equal to the cache-free one |
| `Scheduler.Scheduler.Emit` | engine/engine/scheduler.py:180-192 | token, stop tests and sink call happen as specified, to this request only |
| `SchedulerCache.RunRows` | engine/engine/scheduler.py:108-110 | a forward step for some requests gives each its cache-free token and leaves every other running request's cache intact |
| `SchedulerCache.TablesApart` | engine/engine/block_manager.py:86-92 | two requests never share a block |
| `SchedulerCache.CachedAfterToken` | engine/engine/scheduler.py:124-128 | what was cached for a sequence is what the sequence longer by one token needs |
| `SchedulerCache.CachedAfterGrow` | engine/engine/block_manager.py:95-103 | a longer table finds the same K/V |
| `EmitSteps.PrefillSplit` | engine/engine/scheduler.py:101-102 | prefilling requests one call at a time is prefilling them in one call |
| `StepTheorem.StepKeeps` | engine/engine/scheduler.py:47-50 | the step keeps the invariant, never faults, and changes a request only as a schedule may: no token lost or altered, nothing said after it stopped, its final output unchanged |
| `StepTheorem.DecodeKeeps` | engine/engine/scheduler.py:118-140 | rows kept say exactly one token, other unfinished rows are back in the queue with no blocks, nothing else changes, and if no finished row sits on memory somebody is kept |
| `StepTheorem.SomeoneSurvives` | engine/engine/scheduler.py:143-167 | when all memory is held by active rows whose tokens so far each fit the pool, evictions stop before the last row |
| `StepTheorem.AdmitKeeps` | engine/engine/scheduler.py:88-102 | admission takes the front of the sorted queue, leaves the others as they were, and joins those it took behind the rows already running |
| `Eviction.EnsureKeeps` | engine/engine/scheduler.py:143-167 | every returned row owns exactly the blocks of its length, every other row of the batch is back in waiting with none, and every evicted row precedes every survivor in the order (evictions, newest admission first) at entry |
| `Eviction.ReserveNeverDry` | engine/engine/scheduler.py:157-158 | with preemption off a row that needs a block always finds one |
| `Eviction.DryUnchanged` | engine/engine/block_manager.py:95-103 | a failed append takes no block and happens only with preemption on |
| `Victims.EvictsShortestFront` | engine/engine/scheduler.py:143-167 | in the order fewest evictions and newest admission the rows fall into evicted and kept, and the evicted ones are the shortest front whose blocks, with the free ones, are enough for the rest |
| `Headroom.OldestFirst` | engine/engine/scheduler.py:143-151 | rows are served oldest admission first |
| `Headroom.DecodeEvictsNobodyIff` | engine/engine/scheduler.py:143-167 | decoding evicts nobody if and only if the free list has a block for every unfinished row whose next position opens one |
| `Headroom.HeadroomLeft` | engine/engine/scheduler.py:76-86 | optimistic admission leaves at least one block less than the rows running or just admitted |
| `Headroom.AdmissionEvictsAtMostOne` | engine/engine/scheduler.py:76-86 | a step that admits anybody evicts at most one row |
| `Headroom.StepEvictsNobodyIff` | engine/engine/scheduler.py:47-178 | a whole step leaves every eviction count as it was if and only if, once it has retired and admitted, there is a free block for every unfinished row whose next position opens one |
| `Headroom.RoomyEvictsNobody` | engine/engine/scheduler.py:76-86 | were each pop to leave one block more, for the newcomer itself, a step that admits anybody would evict nobody |
| `Headroom.FaultsIff` | engine/engine/scheduler.py:155-158 | with preemption off the out-of-blocks error is raised if and only if some row's next block is not there, whatever ids and commitments say |
| `HeadroomRun.RunsTight` | engine/engine/scheduler.py:36-178 | for every network, a fresh engine given one request, one step and a second request reaches the state with two free blocks and one row about to need one |
| `HeadroomRun.HeadroomFallsShort` | engine/engine/scheduler.py:76-81 | from there the next step admits the second request, hears its first token and evicts it |
| `Stuck.RunStaysBlocked` | engine/engine/block_manager.py:74-77 | once nothing runs and the first in line needs more blocks than there are, nobody says another token whatever arrives, as long as that one client stays |
| `Stuck.LoneEvicted` | engine/engine/scheduler.py:155-167 | a lone row that has the whole pool and needs one block more evicts itself into that state |
| `SizeLimit.AloneServedIff` | engine/engine/scheduler.py:36-178 | a request alone on a fresh engine of any kind says everything after finitely many steps if the pool can see it through, and otherwise ends up in that state |
| `SizeLimit.FinishersFit` | engine/engine/scheduler.py:52-69 | in every run, whatever has stopped by itself is a request the pool can see through: under optimistic admission, the blocks of prompt and output less one token are within the pool |
| `SizeLimit.ServedIff` | engine/engine/block_manager.py:74-77 | in an endless run that nobody leaves, with arrivals at any time, everybody finishes if and only if everybody is such a request |
| `SizeLimit.StepHoused` | engine/engine/block_manager.py:95-103 | every step keeps that what a request has stored so far is within the pool |
| `FrontDoor.OptimisticTest` | engine/engine/block_manager.py:74-77 | for requests that say their whole budget: the size condition is prompt + budget - 1 positions, the test wrongly refuses exactly those that fill the pool to the last position, and wrongly lets in exactly those whose prompt alone is too long |
| `FrontDoor.ExactUnlessOptimistic` | engine/engine/block_manager.py:74-77 | on slots and under worst-case admission the test is exact |
| `FrontDoor.LetInFits` | engine/engine/block_manager.py:74-77 | with or without end-of-text tokens, what the test lets in fits if the pool holds the prompt |
| `FrontDoor.RefusedThoughServed` | engine/engine/api.py:199-203 | on every optimistic pool smaller than the context there is a request that is refused though alone it would say everything it was asked for |
| `FrontDoor.LetInThoughBlocked` | engine/engine/api.py:199-203 | on every such pool there is a request with budget -1 that is let in and blocks the engine on arrival |
| `FrontDoor.TooBigAtOnce` | engine/engine/scheduler.py:256-265 | a request an empty pool would not take, given to an idle engine without the test, as a batch call does, blocks it at once |
| `Faults.PopFaultsIff` | engine/engine/block_manager.py:79-93 | `allocate`'s assertion fails if and only if some front of the queue is let in by the commitments, each overwriting what stood under its id, although it needs more blocks than are free |
| `Faults.StepFaultsIff` | engine/engine/scheduler.py:47-178 | with preemption off a step fails if and only if admission runs dry in this sense, or afterwards the unfinished rows whose next position opens a block outnumber the free blocks |
| `Faults.RunFaultsIff` | engine/engine/scheduler.py:36-178 | a run with any ids and any budgets fails if and only if it steps from such a state |
| `WorstCase.PossibleNeverDry` | engine/engine/block_manager.py:65-69 | with unused ids and covered prompts that never happens |
| `WorstCase.CoveredIff` | engine/engine/block_manager.py:79-93 | a request is safe on every fresh pool if and only if its commitment covers its prompt; if not, the pool its commitment asks for lets it in and fails |
| `WorstCase.ThirdPopFaults` | engine/engine/block_manager.py:86-93 | one id used twice: of three requests that each fit, the third is let in and `allocate`'s assertion fails |
| `DuplicateIds.DuplicateFaults` | engine/engine/block_manager.py:79-93 | one id used by two live requests under worst-case admission: three requests that each fit are admitted together and their first decode raises the out-of-blocks error |
| `StepSafety.RetireKeeps` | engine/engine/scheduler.py:52-69 | retirement keeps the invariant, leaves no finished row running, and drops from the queue exactly the cancelled requests |
| `Leaving.RetireExact` | engine/engine/scheduler.py:52-69 | what retirement makes of each request: stopped ones finish and give their blocks back, running ones whose client has left finish as "cancelled" and give theirs back, waiting ones are dropped, and the others are as they were |
| `Leaving.StepEndsCancelled` | engine/engine/scheduler.py:53-69 | the step after its client has left ends a request: it is neither waiting nor running, holds no block and has said nothing more, and if it was running it finishes with reason "cancelled" |
| `Leaving.StepRetiresDone` | engine/engine/scheduler.py:60-69 | the step after a request has stopped takes its blocks back |
| `Leaving.HangupEnds` | engine/engine/scheduler.py:52-69 | the same in every run from the first step after the disconnection on, whatever else happens |
| `Filling.AdmitsAllItCan` | engine/engine/scheduler.py:71-102 | admission stops only when the queue is empty, the batch is full, or the first in line does not fit: no free slot, fewer blocks than its tokens and one for each row, or a worst case beyond the pool; a static batch still running admits nobody |
| `Filling.StepFillsUp` | engine/engine/scheduler.py:1-9 | so in every step, with what retirement has just freed |
| `StepSafety.PopKeeps` | engine/engine/scheduler.py:71-86 | popping never fails the allocator's assertion and takes requests strictly from the front, so nothing overtakes the first one that does not fit |
| `StepSafety.PrefillPart` | engine/engine/scheduler.py:104-116 | prefilling some of the admitted requests keeps the invariant with the rest still pending |
| `StepSafety.EmitEvolved` | engine/engine/scheduler.py:180-192 | emitting follows the reference: same token, same stopping point, one draw |
| `Preservation.AllocationFits` | engine/engine/block_manager.py:86-90 | after `can_allocate` said yes, the blocks `allocate` asserts are there |
| `Preservation.UsedWithinCommitted` | engine/engine/block_manager.py:79-84 | with distinct ids the blocks in use never exceed the sum committed |
| `Preservation.EmitReqOk` | engine/engine/scheduler.py:180-192 | a row whose table covers its sequence still satisfies its invariant after saying a token, including what its sink has heard |
| `Liveness.StepProgress` | engine/engine/scheduler.py:47-178 | every step that has work after retirement makes some request say a token |
| `Liveness.HeadFits` | engine/engine/block_manager.py:74-84 | with the pool to itself the head of the queue is admitted, if its tokens so far fit (under worst-case admission, what it commits) |
| `Starvation.StepTowards` | engine/engine/scheduler.py:71-86 | a waiting request either says a token in this step or the tokens left to those ahead of it strictly shrink |
| `Fairness.NoStarvation` | engine/engine/scheduler.py:71-116 | with unlimited later arrivals a waiting request says its next token within R + 1 steps, R being the tokens left to those running or ahead of it |
| `Fairness.Finishes` | engine/engine/scheduler.py:71-178 | every request whose client stays finishes, however often it is evicted, if the pool can see every request through |
| `Alloc.GrowByOne` | engine/engine/block_manager.py:95-103 | growing by one takes the last free block or fails and takes none |
| `Alloc.FitsEverPositions` | engine/engine/block_manager.py:74-77 | the front door's test holds exactly if prompt and budget are within the positions of one slot, or of all blocks |
| `Alloc.ReleaseUndoesAllocate` | engine/engine/block_manager.py:86-109 | freeing what was allocated restores the free list, in order, and the commitments |
| `Alloc.LastInFirstOut` | engine/engine/block_manager.py:105-109 | the blocks freed last are handed out first, in the order of their table |
| `Alloc.TablesWithinCommitted` | engine/engine/block_manager.py:65-69 | tables within their commitments under distinct ids hold at most the committed sum |
| `BlockManager.CountdownAll` | engine/engine/block_manager.py:62-62 | the initial free list names every block once |
| `BlockManager.BlockManager.CanAllocate` | engine/engine/block_manager.py:79-84 | the answer is the value-level admission test, in both modes |
| `BlockManager.BlockManager.CommittedTotal` | engine/engine/block_manager.py:83-83 | summing the dictionary in any order gives its sum |
| `BlockManager.BlockManager.Allocate` | engine/engine/block_manager.py:86-93 | the blocks come off the end of the free list in order and the worst case is committed |
| `BlockManager.BlockManager.AppendSlot` | engine/engine/block_manager.py:95-103 | the loop grows the table as far as the free list allows and says whether that was enough |
| `BlockManager.BlockManager.Free` | engine/engine/block_manager.py:105-109 | the table goes back reversed onto the free list and the commitment is dropped |
| `BlockManager.SlotManager.Allocate` | engine/engine/block_manager.py:23-25 | the last free slot becomes the request's one-element table |
| `BlockManager.SlotManager.Free` | engine/engine/block_manager.py:33-36 | the slot goes back |
| `Seqs.RankSorts` | engine/engine/scheduler.py:74-74 | sorting by key puts the keys in non-decreasing order, and elements with equal keys keep theirs |
| `Seqs.SortKeepsElements` | engine/engine/scheduler.py:74-74 | sorting loses and invents nothing |
| `PassAtK.Compute` | bench/pipeline/stats.py:32-43 | the loop, the early return and the error case together compute 1 - C(n-c,k)/C(n,k), with an error exactly when k > n |
| `PassAtK.FractionOfSubsets` | bench/pipeline/stats.py:4-21 | the estimate is the fraction of the k-subsets of the samples drawn that contain a success |
| `PassAtK.Unbiased` | bench/pipeline/stats.py:32-43 | its expectation over n independent attempts is the chance that at least one of k succeeds |
| `PassAtK.RatioStep` | bench/pipeline/stats.py:18-20 | one factor of the product moves the ratio of binomials from i to i + 1 |
| `PassAtK.CountPicks` | bench/pipeline/stats.py:14-16 | C(n,k) counts the k-element subsets |
| `KafkaWorker.ExactlyOnce` | bench/scripts/kafka_worker.py:89-123 | in every interleaving with crashes, redelivery and rebalances: a row below every committed offset, rows never change and belong to enqueued jobs, and when all offsets are committed the row keys are exactly the enqueued keys |
| `KafkaWorker.StepKeeps` | bench/scripts/kafka_worker.py:103-118 | each step by anybody keeps the invariant and only adds to log and table |
| `KafkaWorker.CommitActor` | bench/scripts/kafka_worker.py:108-118 | when a worker commits, every message it has read of every partition it owns has its row |
| `KafkaWorker.Consumer.Consume` | bench/scripts/kafka_worker.py:103-118 | one worker left alone reads to the end, commits it, and leaves the table with exactly the rows of the jobs it read |
| `KafkaWorker.RecordAllOnce` | bench/scripts/kafka_worker.py:57-86 | existing rows stay, each new row is the first such job's own result, and no job lacks one |
| `KafkaWorker.SkipIsSafe` | bench/scripts/kafka_worker.py:108-111 | a job skipped because it had a row still has that very row in every later state, so committing past it loses nothing |
| `KafkaWorker.LoopBody` | bench/scripts/kafka_worker.py:103-118 | the loop body on one message is poll, check and commit if the row is there, and otherwise poll, check, run, insert, store and commit |
| `KafkaWorker.ConsumeIsARun` | bench/scripts/kafka_worker.py:103-118 | what one worker's sequential loop does to rows and offsets is one of the interleavings |
| `KafkaWorker.Results.WriteResult` | bench/scripts/kafka_worker.py:57-86 | the key has a row afterwards and no existing row changes |
| `Spend.CapHolds` | bench/humaneval/generate.py:91-103 | in every interleaving, if the guard let a call through, the total stays below cap - reserve + workers x dearest call (so below the cap with enough reserve); otherwise it has not moved; the ledger adds up to the total whenever the lock is free; every sample is accounted for |
| `Spend.StepKeeps` | bench/humaneval/spend.py:52-67 | each step of check, call, add, append and trip keeps the bound |
| `Spend.ReserveIff` | bench/humaneval/spend.py:43-67 | no interleaving that makes a call reaches the cap, whatever the ledger and the number of samples, if and only if the reserve is at least the number of workers times the dearest call |
| `Spend.ReserveIffCosts` | bench/humaneval/spend.py:36-67 | the same for ledgers of costs that are not negative, where a reserve as large as the cap also does because it trips the breaker at once |
| `Spend.RecordIsAddLogTrip` | bench/humaneval/spend.py:56-67 | recording on the guard's objects is the pool's add, append and trip with nobody in between |
| `Spend.SpendGuard.Record` | bench/humaneval/spend.py:56-67 | the cost is appended to the ledger and added to the total, and the breaker is tripped exactly if it was or the total with the reserve has reached the cap |
| `Spend.SpendGuard.Check` | bench/humaneval/spend.py:52-54 | a call is let through exactly when the breaker is open, and then the total with the reserve is below the cap |
| `Spend.SpendGuard.constructor` | bench/humaneval/spend.py:46-50 | a new guard resumes with the ledger's total |
| `Spend.Ledger.Sum` | bench/humaneval/spend.py:36-39 | the loop computes the ledger's total |
| `Spend.WorstCase` | bench/humaneval/spend.py:31-33 | a call within token limits costs at most what the limits cost |
| `Spend.PriceList` | bench/humaneval/spend.py:16-33 | a million tokens read cost 1, 2, 5 and 10 dollars for the four models, a million written 5, 10, 25 and 50, and no other model has a price |
| `Spend.CostAdds` | bench/humaneval/spend.py:31-33 | costs add up over the calls of a model, in both token counts |
| `Spend.WritingCostsFive` | bench/humaneval/spend.py:16-23 | a token written costs five times a token read |
| `Nucleus.NucleusExact` | engine/engine/sampling.py:33-52 | fast path or fallback, the result keeps the shortest descending prefix reaching top_p, renormalised to one, agrees position by position with the full-sort reference, and keeps the same tokens unless the boundary ties |
| `Nucleus.Defined` | engine/engine/sampling.py:50-52 | at least one token is always kept, so the renormalisation never divides by zero |
| `Nucleus.SameValues` | engine/engine/sampling.py:44-48 | however ties are broken, the i-th largest probability of a top-k and of a full sort is the same |
| `Nucleus.CutIsPrefix` | engine/engine/sampling.py:50-51 | the cumulative-sum test keeps exactly a prefix |
| `Nucleus.RangeIsExact` | engine/engine/sampling.py:23-26 | the parameters are accepted if and only if dividing by the temperature keeps the order of the logits and every distribution has a shortest prefix reaching top_p |
| `Detokenizer.Stream` | engine/engine/detokenizer.py:10-31 | pushes and the final flush concatenate to the plain decode of all tokens, and what has come out never ends in U+FFFD |
| `Detokenizer.IncrementalDetokenizer.Push` | engine/engine/detokenizer.py:17-24 | text is released exactly when the pending tokens decode to something that does not end in U+FFFD, and then all of it |
| `Detokenizer.IncrementalDetokenizer.Flush` | engine/engine/detokenizer.py:26-31 | whatever is left is released, so the total is the plain decode |
| `Detokenizer.DecodeSplit` | engine/engine/detokenizer.py:1-6 | bytes whose text does not end in U+FFFD can be decoded apart from what follows |
| `Detokenizer.DecodeEncode` | engine/engine/detokenizer.py:3-5 | UTF-8 decoding undoes encoding |
| `Detokenizer.TakeSound` | engine/engine/detokenizer.py:3-5 | a character is read only from its own shortest encoding |
| `Detokenizer.TakeExact` | engine/engine/detokenizer.py:3-5 | said with encoding alone: what is read first is the character that stands there encoded, or else one U+FFFD for the longest beginning of a character, or for a single byte that begins none |
| `Detokenizer.EncodeOrder` | engine/engine/detokenizer.py:3-5 | encodings compare byte by byte as the characters they stand for |

## Left out

- Transformer arithmetic, floating point and tensor layouts: one layer is an arbitrary deterministic function, and K and V of a position are stored as one pair instead of in two tensors.
- Slot and block pools share one class, `Cache.KVPool`: a slot pool is one block per request as long as the context; writing and reading follow each layout's own code.
- The sampler object: a request's generator state is a value in the request that is replaced when its token is emitted, instead of an object advanced inside the forward call.
- Wall-clock fields, metrics, allocator statistics and the `live` dictionaries that only feed them.
- `EngineLoop`, its inbox and threads, `max_queue` rejection and the HTTP layer: arrivals and disconnections are events between steps.
- The `run_schedule` helper: arrivals at given iterations are an instance of the events `Engine.Serve` takes.
- `NaiveScheduler` and the uncached reference: a baseline that would only add easy members.
- Identity of requests: `list.remove` and `list.index` compare by field values in the source; objects are compared here, which is the same because arrival times differ.
- A step that evicts reads the victims' tokens again later; what recomputation costs is not modelled.
- Spend.CapHolds: a call that raises is taken to cost nothing. The client retries twice under a timeout (bench/humaneval/generate.py:84), so an attempt can be billed and still end as an exception; what such attempts cost is in no ledger, and the cap says nothing about it.
- Crashes of the spend guard between adding to the total and appending to the ledger lose that call from the ledger; the model's restart is at a moment when the lock is free.
- Engine.Engine.GenerateBatch: the random ids are a parameter required to be unused and distinct, and the clock is a parameter later than all earlier arrivals.
- KafkaWorker.ExactlyOnce: the broker fences commits, so a worker commits only partitions it still owns; a commit that fails is a crash of that worker. That jobs are eventually delivered is not claimed.
- PassAtK.Unbiased: exact reals instead of floating point.
- Nucleus.NucleusExact: the softmax and the top-k selection are inputs with their defining properties; how torch breaks ties is left open; drawing from the result is the abstract draw of the network.
- Detokenizer.Stream: the tokenizer is a map from tokens to bytes; merges and special-token handling are not modelled.
- Bootstrap statistics, adapters, sandboxes, the eval runner, site builders and deployment files.
