# A verified model of the serving core

This project models the part of the inference engine that decides what is computed and
when, and proves what its design promises. Both of its cores are measured against one
specification, `Models.Greedy`: append the argmax of a forward pass to the context until
eos or the limit.

**Continuous batching over a paged cache** (`paged_cache.rs`, `scheduler.rs`, `engine.rs`).
`PagedCaches.PagedKVCache` keeps the free stack and the block tables.
`Schedulers.Scheduler` admits, preempts, commits and retires. `Engines.Engine` runs the
model on the decode batch, pushes the tokens back and loops to completion. These classes
change their fields in place, as the source does. Each method is proved equal to a function on
values (`CacheStates.Cache`, `Batching.Machine`). The theorems about whole runs
are stated on those functions: the output of a request does not depend on scheduling, the
engine drains exactly when every request fits the cache alone, an oversized request starves
exactly itself and those queued behind it, the recorded peak is the least capacity that
replays a run, first admissions are in submission order.

**Speculative decoding** (`speculative.rs`). The loops of `Speculative.Decoder` are proved
equal to rounds, and the rounds to a one-token-at-a-time reference, `Walk`. The reference
gives the exact condition under which speculation equals greedy decoding, and where it
departs from it.

How the modules build on one another:

| file | what it holds |
|---|---|
| `Arith.dfy` | counting blocks, sums over sequences |
| `Model.dfy` | argmax, greedy decoding, the tiny transformer |
| `PagedCache.dfy` | the cache on values and as a class |
| `Batching.dfy`, `BatchingLaws.dfy`, `ScheduleLaws.dfy` | the scheduler on values, its invariant, the law of one iteration |
| `Runs.dfy`, `Liveness.dfy`, `Stalls.dfy`, `Starvation.dfy`, `Capacity.dfy`, `Fifo.dfy` | whole runs: outputs, draining, stalling, starvation, capacity, order |
| `Scheduler.dfy`, `Engine.dfy` | the classes |
| `Speculative.dfy` | the decoder |

## Modelling choices

- A sequence and a block table are datatypes: the source moves or updates owned values
  inside its `VecDeque`, `Vec` and `HashMap`, so no two holders share one. The cache, the
  scheduler and the engine are classes. The decoder, whose fields never change, is a
  datatype with methods.
- The model trait is a datatype with an eos token and a forward function, since the source
  documents `forward` as a pure function of the context (`src/model.rs:80-90`). Logits are
  reals with a negative infinity and a not-a-number.
- `Batching.Machine` keeps, for each running sequence, the number of tokens cached for it.
  Which blocks hold them is the cache's business; `SchedulerLinks.Linked` ties the two.
- Ids are unique within an engine's lifetime (`wiki/Engine.md:112`): `Submit` asks that no
  live sequence carries the id, and runs ask that no two requests share one (`FreshIds`).
- `schedule` is one long method in the source; here each phase is a method of its own, and
  the body of each loop is another. `Machine.waiting`, `running` and `peak` describe the
  whole state a plan depends on.
- The speculative acceptance test, a draw compared with a ratio of softmax values, is an
  arbitrary function of context, position and token. Nothing is assumed about it.
- `generate` returns the two integer counts behind the acceptance rate, and the number of
  rounds as ghost information.
- The context hash of the tiny transformer is an arbitrary function of the last eight tokens.
- Hash maps are read in no fixed order: ties in `EvictLargest` are left open, and `SortById`
  picks the least remaining key, which is what sorting the entries by key yields.

## Where the documentation and the code disagree

The model follows the code.

- "It never deadlocks" (`src/scheduler.rs:22`, `wiki/Continuous-Batching.md:55`,
  `wiki/FAQ.md:35`). A request with a positive limit whose prompt exactly fills the cache is,
  alone in the engine, admitted and preempted in every iteration
  (`Stalls.FullPromptNeverDrains`), and a longer one is never admitted. The exact condition
  for draining is `Liveness.DrainsIffEverythingFits`; a request that does not fit is never
  finished (`Starvation.UnfitIsNeverServed`); and as long as nothing is submitted, one
  iteration without progress means that none will ever make any (`Stalls.StallIsPermanent`;
  `Stalls.SubmissionCanEndStall` shows why only as long as that).
- An oversized prompt must not starve other work (`src/scheduler.rs:400-401`). It starves
  exactly those that wait behind it, in every continuation, and nobody who runs or waits
  ahead of it (`Starvation.ServedIffAheadOfOversized`); `Starvation.OversizedPromptStarves` and
  `Starvation.OversizedPromptBehindIsHarmless` show both on that prompt and cache.
- The iteration guard "only matters if a caller sets an unbounded limit"
  (`wiki/Engine.md:117`). It is also what ends the runs above; `EngineLaws.GuardNeverFires`
  says when it is not reached. The loop is cut after 1,000,001 iterations.
- Speculation "never emits a token the target would not" (`wiki/Speculative-Decoding.md:79`).
  An accepted draft token need not be the target's argmax
  (`Speculative.DivergentDraftIsNotExact`); `Speculative.SpeculationExactness` is the exact
  condition for greedy equality.
- The bonus token "can be appended next round" (`src/speculative.rs:42`). The code appends it
  in the same round.
- `run_one` is documented to answer "the first request" (`src/engine.rs:75-79`). It answers
  the least id that produced a token. A request with limit 0 produces no entry at all.
- `evict_largest` is described as the scheduler's fallback (`src/paged_cache.rs:223-226`).
  The scheduler never calls it.

## Model

| member | source | states |
|---|---|---|
| Models.Argmax | src/model.rs:26-36 | the loop returns the first largest logit, modulo 4,294,967,296; for real logits no other is larger as a number and no earlier one is as large; index 0 when no logit is above negative infinity |
| Models.ArgmaxValues | src/model.rs:24-36 | real logits are compared as numbers, the first infinite one wins, and a NaN or negative infinity is picked only at index 0 when there is nothing else |
| Models.ArgmaxIsFirstLargest | src/model.rs:24-36 | the chosen index is below every other index that carries an equally large logit, and no logit exceeds it; not-a-number never wins |
| Models.GreedyCharacterised | src/speculative.rs:249-259 | greedy decoding is the one sequence whose every token is the argmax on what precedes it and which stops at the first eos or at the limit and nowhere else |
| TinyModels.NextTokenClosedForm | src/model.rs:174-203 | for every context and vocabulary size the argmax of a forward pass is the peak, or its neighbour when eos is masked; on a short context with at least two tokens in the vocabulary it is never eos |
| TinyModels.DraftAgreesExactly | src/model.rs:121-131 | on every usable context the draft agrees with the target if and only if the context is pinned, or the hash is not divisible by four, or the vocabulary has 1 or 7 tokens, where the shift by 7 is invisible, or the context is short and the two peaks are eos and the token that stands in for it |
| TinyModels.NextTokenByHash | src/model.rs:174-203 | from the hash of the last eight tokens alone: a pinned context gives its pin, a hash divisible by the period the hash plus seven, any other the hash, each modulo the vocabulary; on a short context eos gives way to its neighbour |
| TinyModels.ForwardByHash | src/model.rs:193-201 | the logits are six less the distance from that token, never below minus two, and negative infinity for eos on a short context |
| TinyModels.TinyTransformer.Pin | src/model.rs:138-142 | only the one context is repinned, and on a context of at least four tokens the next token becomes the pinned one modulo the vocabulary |
| TinyModels.TinyTransformer.Forward | src/model.rs:174-203 | the loops build exactly those logits, from the hash, the period, the pins and eos |
| Arith.DivCeilCountsBlocks | src/paged_cache.rs:151-164 | ceiling division counts block by block |
| Arith.BlocksGrow | src/paged_cache.rs:151-165 | the slack computation for more tokens agrees with recounting the blocks of the whole sequence |
| CacheStates.FreshValid | src/paged_cache.rs:92-104 | a new cache satisfies the invariant: free stack and tables partition the blocks, tables hold exactly the blocks their tokens need, the peak covers the use |
| CacheStates.AdmitKeepsValid | src/paged_cache.rs:139-141 | admission keeps the invariant, for known and unknown ids |
| CacheStates.AppendKeepsValid | src/paged_cache.rs:170-193 | a successful append keeps the partition, the exact block count and the peak |
| CacheStates.FreeKeepsValid | src/paged_cache.rs:197-203 | freeing keeps the invariant and gives back exactly the blocks the tokens needed |
| CacheStates.BlockHasOneOwner | src/paged_cache.rs:92-104 | under the invariant every block from 0 up to the number of blocks is free or in a table, never both, never in two tables, never twice in one place |
| CacheStates.AppendsCompose | src/paged_cache.rs:151-193 | two appends succeed if and only if one append of the sum does, and then leave the same blocks in the same order, the same free stack and the same peak |
| CacheStates.AdmitThenFree | src/scheduler.rs:186-203 | the rollback of a failed admission restores the cache exactly |
| CacheStates.PlaceThenFree | src/paged_cache.rs:139-203 | placing a sequence and freeing it restores the tables and the set of free blocks |
| CacheStates.SlotsAccountedFor | src/paged_cache.rs:62-75 | slots of used blocks are stored tokens plus slack, and the slack of all live sequences is at most block size minus one each |
| CacheStates.NeededIsLeast | src/paged_cache.rs:151-165 | the blocks needed are the fewest with which the table, or a new one, holds the tokens there will be |
| CacheStates.AppendGrows | src/paged_cache.rs:170-193 | the table keeps its blocks and gets the top of the free stack, top first, up to the ceiling of its new length; no other table moves, and the peak is the larger of the old one and the use |
| CacheStates.FreedBlocksComeBackFirst | src/paged_cache.rs:182-203 | an append after a free takes the blocks just freed, the last of them first, before any other |
| PagedCaches.PagedKVCache.constructor | src/paged_cache.rs:92-104 | the free stack is 0, 1, 2 and so on, there is no table and no use |
| PagedCaches.PagedKVCache.BlocksNeededFor | src/paged_cache.rs:151-165 | the answer of the slack formula, and that it is the fewest blocks that hold the tokens |
| CacheStates.CanAppendMeans | src/paged_cache.rs:170-180 | an append to a known sequence succeeds exactly when its blocks and the free ones together reach the ceiling of its new length |
| PagedCaches.PagedKVCache.Append | src/paged_cache.rs:170-193 | succeeds if and only if the sequence is known and enough blocks are free, pops them top first onto the table, and on either error changes nothing |
| PagedCaches.PagedKVCache.Free | src/paged_cache.rs:197-203 | the table's blocks go on top of the free stack in table order and the table is forgotten; nothing happens for an unknown id |
| PagedCaches.PagedKVCache.EvictLargest | src/paged_cache.rs:227-235 | frees a sequence no other holds more blocks than, and answers none exactly when there is none |
| PagedCaches.PagedKVCache.InternalFragmentation | src/paged_cache.rs:219-221 | the sum of the slacks, at most block size minus one for each live sequence |
| BatchingLaws.SubmitValid | src/scheduler.rs:146-148 | submission keeps the whole-state invariant: unique ids over queue and batch, right states, batch within its limit, use within peak within capacity |
| BatchingLaws.AdmittedValid | src/scheduler.rs:179-205 | admission keeps the invariant and every live sequence, and stops only where no further admission is possible |
| BatchingLaws.RelievedValid | src/scheduler.rs:210-244 | preemption keeps the invariant and every live sequence, and ends with room for one token each |
| BatchingLaws.CommitValid | src/scheduler.rs:247-258 | the commit keeps the invariant and uses exactly the blocks the aggregate check reckoned with |
| BatchingLaws.RetireValid | src/scheduler.rs:261-271 | retirement keeps the invariant and loses exactly the complete sequences |
| ScheduleLaws.ScheduleValid | src/scheduler.rs:174-274 | one iteration keeps the invariant; what was live is what stays live plus the retired, nobody lost or duplicated |
| Runs.StepValid | src/engine.rs:51-73 | between engine iterations every running sequence has cached exactly its prompt and output |
| Runs.ScheduledBatch | src/scheduler.rs:247-258 | between schedule and push each member of the batch has cached one token more than it holds, and is unfinished |
| ScheduleLaws.PlanSplitsBatch | src/scheduler.rs:174-274 | the old batch and the admitted are, without overlap, the decode batch, the preempted and the finished |
| ScheduleLaws.DecodeBatchRuns | src/scheduler.rs:247-271 | the batch left running is the decode batch, in order |
| ScheduleLaws.QueueAfterStep | src/scheduler.rs:179-241 | the admitted are a prefix of the queue, and the new queue is the preempted, last one first, before what was not admitted |
| BatchingLaws.VictimIsLeast | src/scheduler.rs:226-232 | nobody in the batch has less output than the victim, and nobody with as much has a larger id |
| ScheduleLaws.VictimsRanked | src/scheduler.rs:226-241 | of any two of k victims the earlier, and of a victim and a survivor the victim, has less output, or as much and the larger id; survivors keep their order |
| ScheduleLaws.PreemptionMinimal | src/scheduler.rs:210-244 | the number of preemptions is the least after which every remaining unfinished sequence can take one token |
| ScheduleLaws.PreemptsLeastProgressed | src/scheduler.rs:226-241 | that ranking for the preempted ids of a plan against each other and against those left in the batch |
| ScheduleLaws.MustPreemptMeans | src/scheduler.rs:210-220 | the loop goes on exactly while the blocks of the batch, each member below its limit counted with one token more, exceed the cache |
| ScheduleLaws.PreemptsForRoom | src/scheduler.rs:210-244 | with any fewer victims than a plan has, the batch with one token more for each unfinished member would overflow the cache; with those it has, it fits |
| ScheduleLaws.PlanKeepsBatchOrder | src/scheduler.rs:247-271 | the finished and the decode batch of a plan are each in batch order |
| SchedulerLinks.CommitHasRoom | src/scheduler.rs:211-258 | the aggregate check survives the sequential appends: the error branch of the commit loop is unreachable |
| SchedulerLinks.PlaceDecidesAdmission | src/scheduler.rs:186-203 | the temporary admit and append succeeds exactly when the blocks of the whole sequence are free |
| SchedulerLinks.NeededIsWanted | src/scheduler.rs:211-216 | the allocator's answer for one more token is what the tokens cached for that sequence call for |
| Schedulers.Scheduler.Submit | src/scheduler.rs:146-148 | the sequence joins the back of the queue |
| Schedulers.Scheduler.AdmitFront | src/scheduler.rs:186-204 | admits the head if the ceiling of its length is free in blocks, moving it from the front of the queue to the back of the batch, otherwise leaves the whole state as it was |
| Schedulers.Scheduler.FindVictim | src/scheduler.rs:226-232 | the running sequence found has the least output, and the largest id among those with as little; none exactly when nobody runs |
| Schedulers.Scheduler.PreemptOnce | src/scheduler.rs:210-244 | one turn of the loop: done when the demand fits, otherwise one victim moves to the front of the queue and its blocks are free |
| Schedulers.Scheduler.CommitBatch | src/scheduler.rs:247-258 | every unfinished running sequence gets its slot and its place in the decode batch |
| Schedulers.Scheduler.RetireBatch | src/scheduler.rs:261-271 | complete sequences leave with their blocks freed, the others stay in order |
| Schedulers.Scheduler.Schedule | src/scheduler.rs:174-274 | the four phases take the state and produce the plan the laws above describe, and keep tables and batch in agreement |
| Schedulers.Scheduler.FindRunning | src/scheduler.rs:165-167 | the first running sequence with the id, none exactly when no running sequence has it |
| Schedulers.Scheduler.PushToken | src/scheduler.rs:278-286 | the token joins that sequence's output, eos caps its limit, nothing else changes; an unknown id changes nothing |
| Runs.PushKeepsPromise | src/scheduler.rs:278-286 | pushing the argmax, eos or not, leaves output plus greedy continuation unchanged |
| Runs.IterateSound | src/engine.rs:51-73 | an iteration keeps the history invariant: live sequences are on their greedy path with all their tokens emitted, the others have been given all of theirs |
| Runs.RunSound | src/engine.rs:43-73 | so does any interleaving of submissions and iterations |
| Runs.Transparency | src/engine.rs:51-112 | at every point of every run a request has been given a prefix of greedy decoding of its own prompt, and all of it once it is no longer live |
| Runs.EnginesAgree | src/engine.rs:51-112 | engines of any two configurations and loads give the same answer to the same request |
| Liveness.StepPaysWork | src/scheduler.rs:210-271 | the work left falls by exactly one per decoded token and one per retired sequence, preemption costs none |
| Liveness.EveryStepProgresses | src/scheduler.rs:179-271 | with a batch slot and every live request fitting alone, an iteration with work decodes or retires something |
| Liveness.FittingWorkDrains | src/engine.rs:90-104 | such work is finished within as many iterations as there is work |
| Liveness.FreshRequestsAreReady | src/engine.rs:90-104 | prompt plus limit within the cache for each request suffices, and then the work is at most the sum of the limits plus one each |
| Liveness.DrainsIffEverythingFits | src/engine.rs:95-104 | from every reachable state the engine drains if and only if it is idle, or has a batch slot and every live request, prompt and greedy output, fits the cache alone |
| Stalls.StallsOnlyOnFullCache | src/scheduler.rs:179-244 | an iteration with work that neither decodes nor retires leaves an empty batch and a head of the queue at least as long as the cache |
| Stalls.BatchRepeats | src/scheduler.rs:179-244 | admission undoes preemption: admitting and preempting again at once yields the same batch up to order, the same queue and the same peak |
| Stalls.StallIsPermanent | src/scheduler.rs:179-271 | after an iteration that neither decodes nor retires every further iteration leaves the machine as it is, and stalls too |
| Stalls.SubmissionCanEndStall | src/scheduler.rs:179-244 | a submission can end a stall: a request with an empty prompt and a smaller id than a head that fills the cache without output is admitted with it, outranks it and decodes in its place |
| Stalls.FullPromptNeverDrains | src/scheduler.rs:218-241 | in any engine with a batch slot, a single request with a positive limit whose prompt exactly fills the cache is admitted and preempted in every iteration, and work remains |
| Stalls.FullPromptDrainsIffNothingAsked | src/scheduler.rs:211-271 | such a request is finished if and only if its limit is 0 |
| Starvation.ScheduleBehind | src/scheduler.rs:179-205 | with a sequence longer than the cache in the queue, an iteration makes the plan it would make without it and everyone behind it, and leaves them where they are |
| Starvation.OnlyTheFrontRuns | src/scheduler.rs:146-205 | over any run, later submissions included, the batch, the queue ahead and the output are those of a run without the oversized sequence and everyone behind it, who wait in order |
| Starvation.FrontDrains | src/scheduler.rs:179-205 | when those ahead fit, they are finished within as many iterations as they have work, and exactly the oversized sequence and those behind it are left |
| Starvation.BehindOversizedStarves | src/scheduler.rs:198-203 | whoever waits at or behind an oversized sequence stays live and is given no further token, in every run, whether those ahead fit or not |
| Starvation.ServedIffAheadOfOversized | src/scheduler.rs:198-203 | when those ahead fit, a live request can be finished in some continuation if and only if it is running or waits ahead of the oversized sequence |
| Starvation.OversizedHeadStuck | src/scheduler.rs:198-203 | an overflowing head with nobody running stops all output for good, whatever is submitted behind it |
| Starvation.OversizedPromptStarves | src/scheduler.rs:398-407 | a five-token prompt in a cache of two slots: the fitting request behind it is never served, in any run |
| Starvation.OversizedPromptBehindIsHarmless | src/scheduler.rs:398-407 | the same two requests in the other order: the fitting one is finished after two iterations |
| Starvation.UnfitIsNeverServed | src/scheduler.rs:179-271 | a request whose prompt and greedy output do not fit the cache together stays live in every continuation |
| Capacity.ScheduleLockstep | src/scheduler.rs:179-258 | a smaller cache that holds the peak makes the same plan and reaches the same state |
| Capacity.SamePlanSameState | src/scheduler.rs:179-258 | the plan determines the state reached, whatever the cache size |
| Capacity.PeakIsMinimumCapacity | src/paged_cache.rs:122-128 | among caches no larger than the original, exactly those with at least the recorded peak replay the whole run plan for plan |
| Capacity.RoomyCacheNeverPreempts | src/scheduler.rs:179-244 | with blocks for a full batch of the largest request nobody is preempted, and admission stops only at the batch limit or an empty queue |
| Capacity.PeakBoundedByBatch | src/paged_cache.rs:83-87 | over any run the peak is at most the batch limit times the largest request; a cache that large preempts nobody in any plan, and at every point of the run admission stops only at the batch limit or an empty queue |
| Fifo.IterateOrderly | src/scheduler.rs:179-241 | the queue stays a block of preempted sequences before the never admitted in submission order |
| Fifo.FirstAdmissionsAreFifo | src/scheduler.rs:146-241 | over any run the order of submission is the order of first admission followed by the never admitted part of the queue |
| Engines.Engine.Submit | src/engine.rs:43-46 | the new request waits behind all others |
| Engines.Engine.Decode | src/engine.rs:55-71 | the id is found, and it is given the argmax on its own prompt and output |
| Engines.Engine.Step | src/engine.rs:51-73 | schedules, then decodes every member of the batch once, in batch order; each emission is the id of its member, the last token of its output and whether that is eos |
| Engines.Engine.RunToCompletion | src/engine.rs:90-112 | answers in id order, and for each sequence exactly what it was owed before the call less what it is still owed after it; complete when the engine drained; fitting work of at most 1,000,001 units always drains, and when work is left the engine is where 1,000,001 iterations lead |
| Engines.Engine.RunOne | src/engine.rs:80-86 | of those answers the one with the least id, or nothing; with one sequence live and the engine drained, all it was owed |
| EngineLaws.CallsCompose | src/engine.rs:90-112 | a call that the guard cut short and the next one together answer each sequence with what it was owed at first, less what it is still owed |
| Engines.SortById | src/engine.rs:106-111 | every entry of the map once, in strictly ascending id order |
| EngineLaws.AnswersArePartial | src/engine.rs:95-104 | no answer goes beyond what its sequence was owed at the start, even when the guard cuts the run short |
| EngineLaws.AnswersAreFull | src/engine.rs:90-112 | a drained engine answers everyone that was owed a token, with all of it |
| EngineLaws.GuardNeverFires | src/engine.rs:100-103 | fitting work of at most 1,000,001 units is drained before the guard breaks the loop |
| Engines.DrainedEngineHoldsNothing | src/engine.rs:95-104 | an engine without work has every block free and no table |
| Speculative.DraftRun | src/speculative.rs:83-96 | the draft run is greedy decoding of the draft, limited by the lookahead and ending after the draft's eos |
| Speculative.Absorb | src/speculative.rs:187-201 | of a round's tokens those up to the limit or the first eos are kept, in output and context alike |
| Speculative.RoundMeans | src/speculative.rs:117-172 | the run proposed is the draft's greedy decoding and counts whole as drafted; the accepted are those the test takes one after another, ended by the target's eos, or else followed by the target's argmax because the next was refused or none is left |
| Speculative.Decoder.Step | src/speculative.rs:117-172 | the loop with its early returns computes that round: tokens, accepted and drafted are each determined by the two models and the test |
| Speculative.Decoder.Generate | src/speculative.rs:177-209 | the tokens are those of the one-token-at-a-time reference, and greedy decoding exactly when no disagreeing proposal is accepted on the greedy path; both counts are the sums over the rounds, each from where the one before ended, and the last may be cut at the limit |
| Speculative.GenerationIsTraced | src/speculative.rs:177-209 | such a sequence of rounds exists for every generation: as many as were made, the first from the prompt, their accepted and drafted adding up to the totals |
| Speculative.RoundsWalk | src/speculative.rs:117-209 | rounds, early returns, truncation and bonus add up to the one-token-at-a-time reference |
| Speculative.SpeculationExactness | src/speculative.rs:136-158 | the output equals the target's greedy decoding if and only if on the greedy path no proposal other than the target's own token is accepted |
| Speculative.AgreeingDraftIsExact | src/speculative.rs:239-260 | with a draft that agrees with the target's argmax everywhere the output is exact, whatever the acceptance test decides and for every lookahead |
| Speculative.TokenProvenance | src/speculative.rs:124-166 | every token is the target's argmax on what was emitted before it, or an accepted draft token |
| Speculative.FirstDivergence | src/speculative.rs:124-202 | the first position where the output leaves the greedy path holds an accepted draft token |
| Speculative.DivergentDraftIsNotExact | src/speculative.rs:136-138 | a draft that always accepts its own different token is followed instead of the target |
| Speculative.WalkLength | src/speculative.rs:183-202 | the output is non-empty for a positive limit, stops short of the limit only on eos, and holds no earlier eos |
| Speculative.RoundIsSized | src/speculative.rs:117-172 | a round emits one token more than it accepted, or exactly what it accepted when that ends in the target's eos, and drafts at most the lookahead |
| Speculative.FullAcceptanceRounds | src/speculative.rs:162-202 | when every round emits all it can and no eos comes out, the rounds number the limit over lookahead plus one, rounded up |
| Speculative.AcceptedRoundLands | src/speculative.rs:83-172 | with one eos for both models, a round that accepts its whole draft emits a full lookahead and the bonus, or ends in eos |
| Speculative.RoundArithmetic | src/speculative.rs:177-209 | at most one round per token, at most lookahead plus one tokens per round, accepted at most drafted; and the limit over lookahead plus one rounds when no eos comes out and either every lookahead was accepted in full, or the models share their eos and nothing drafted was rejected |

## Left out

- Server, binary, benchmark and tokeniser (`src/server.rs`, `src/main.rs`, `src/bin/bench.rs`, `src/tokeniser.rs`): transport, timing and text conversion around the core.
- Floating point (`prob_of`, `acceptance_rate`, `utilisation`): the acceptance test is an arbitrary decision and rates are their integer counts. The tiny transformer's logits are small integers, exact as reals.
- Bit mixing in `hash_context` and `acceptance_draw`: arbitrary deterministic functions.
- Distribution of sampled tokens: the draw is deterministic and a rejection takes the argmax, so no distribution is computed.
- Overflow of `usize` and `u64` counters: lengths, counts and ids are unbounded naturals. The truncation of a token id to 32 bits is modelled.
- Changes made from outside through `cache_mut` and `running_seq_mut`: the scheduler is assumed to be the only writer of its cache and its sequences.
- Duplicate ids among live requests: `Submit` asks the caller not to do it; the rollback of a failed admission would free a running namesake.
- The assertion that draft and target share a vocabulary (`src/speculative.rs:68-72`): no result needs it, so a model here has no vocabulary size of its own.
- Shared ownership, thread safety, display and debug implementations, capacity hints, `num_layers`.
