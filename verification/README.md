# Linux 2.6.28.2 block layer and crypto API: a verified model

This project models parts of the request queue of the Linux block layer and of the crypto API, and
proves what they are for. `dafny verify dfyconfig.toml` checks all of it.

| files | what they model |
|---|---|
| OrderedBarrier, BarrierSafety, BarrierTheorems, BarrierProgress, RequestQueueObject | write barriers on the dispatch queue (block/blk-barrier.c, block/elevator.c) |
| ChainIv, ChainIvTheorems, ChainIvOrder | the lock-free owner of a chained IV (crypto/chainiv.c) |
| BlkMerge, BlkMergeLimits, BlkMergeRequest | segment counting and scatterlists (block/blk-merge.c) |
| ElvTree, Deadline, DeadlineTheorems, DeadlineService, DeadlineQueueObject | the deadline scheduler (block/deadline-iosched.c) |
| Cfq, CfqQueues, CfqTheorems, CfqRuns, CfqOrder, CfqDataObject | the indices of CFQ and its forced drain (block/cfq-iosched.c) |
| PartialCompletion | completing part of a request (block/blk-core.c) |
| ThinkTime | the decaying averages (block/as-iosched.c, block/cfq-iosched.c) |
| Words, Camellia, CamelliaF, CamelliaSetup, CamelliaCrypt | Camellia with its absorbed schedule (crypto/camellia.c) |
| Gf, Aes, AesWords, AesKey | AES with the equivalent inverse cipher (crypto/aes_generic.c) |
| Bytes, Ccm, CcmBlocks, Cbc, CbcWalk, Cts, CtsCrypt, Increment, Ctr | CCM authentication, CBC, ciphertext stealing, counter mode |
| CryptoQueue, Cryptd, CryptdTheorems, CryptdObject | the bounded request queue and the crypto daemon |
| RemoveSpawns | invalidation of the users of an algorithm (crypto/algapi.c) |
| Arith, Collections | shared arithmetic, options and lists |

Every component has a specification by functions, theorems about it, and the source's own
imperative form (a class whose methods change its fields, or a method with loops over arrays) proved
against those functions. Protocols are transition systems: a theorem about every run speaks of every
legal list of actions from the initial state.

How the source was read:

- A locked section is one step. In crypto/chainiv.c each access to the shared state is a step of its
  own, and memory is sequentially consistent.
- A request is an identity; flag bits that live in a request are sets of identities or fields of a
  table. A list head pointer is `None`.
- Red-black trees are their in-order sequences. The descent that decides the leftmost flag of CFQ is
  proved for trees of every shape.
- Block ciphers, S-boxes and lookup tables are arbitrary functions, bijective where a theorem says so.
- jiffies, byte counts and sectors are unbounded; words of ciphers are bit-vectors of their width.
- The schedule array of AES has 64 words: for the longest key the last round of the expansion macro
  writes words 56 to 63, beyond the 60 that are used.
- blkcipher walks hand out chunks of at least a block, or what is left; each turn of a walk works on
  arrays that hold its chunk, the same array for source and destination or two.

## Findings

Properties the code does not have, each with an input and the exact condition under which it has them.

- A hard barrier that is not an fs request, or a queue switched to QUEUE_ORDERED_NONE for a moment,
  lets a later barrier overtake a write in flight that is requeued
  (`BarrierTheorems.SpecialBarrierOvertakes`, `BarrierTheorems.UnorderedBarrierOvertakes`); without
  both, barriers hold in every run (`BarrierTheorems.BarriersHoldExactlyWhenPlain`).
- When seeding the IV generator fails, a request postponed meanwhile is left in the queue with no work
  item (`ChainIvTheorems.FailedSeedLosesWork`); only then
  (`ChainIvTheorems.NothingLostExactlyWhenSeeded`).
- cryptd swaps the completion pointer before it asks the queue and does not put it back when the queue
  refuses. A caller that submits the same request again without setting its completion function makes
  the daemon call itself without end (`CryptdTheorems.RetryGetsStuck`); runs without such a caller
  complete everything, and only those (`CryptdTheorems.FinishesExactlyWhenDisciplined`).
- Without associated data, crypto_ccm_auth does not set ilen, and bytes left in idata are taken for
  the start of the payload (`Ccm.StaleMatters`, `Ccm.RightExactlyWhenClean`).
- set_msg_len accepts a length of exactly 256^csize in a field of two or three bytes and writes zero
  (`Ccm.LengthFaithful`).
- With writes_starved zero a read waits for ever while writes keep coming, however long it is overdue
  (`DeadlineService.ReadsStarveAtZero`); with any other value it is served in bounded time
  (`DeadlineService.PromptExactlyWhenTurns`).
- Completing zero bytes of a request whose first bio is empty ends that bio, so two calls are not one
  (`PartialCompletion.Resumes`).

## Model

| member | source | states |
|---|---|---|
| BarrierTheorems.BarrierOrder | linux-2.6.28.2/block/blk-barrier.c:154-252 | In every run of adds, dispatches, issues, dequeues, requeues and completions on a draining queue: once the proxy barrier has reached the driver, every fs request queued before the original barrier has ended; and nothing queued after a barrier that has not ended has been handed out, with any number of barriers waiting behind one colour bit |
| BarrierTheorems.BarriersHoldExactlyWhenPlain | linux-2.6.28.2/block/elevator.c:681-717 | That promise holds in every run if and only if the queue gets no hard barrier that is not an fs request and is never switched to QUEUE_ORDERED_NONE |
| BarrierTheorems.SpecialBarrierOvertakes | linux-2.6.28.2/block/elevator.c:681-717 | A concrete run in which a hard barrier that is not an fs request flips the colour, and the next barrier overtakes a requeued write |
| BarrierTheorems.UnorderedBarrierOvertakes | linux-2.6.28.2/block/blk-barrier.c:215-232 | A concrete run in which a barrier refused with EOPNOTSUPP leaves the write in flight with the wrong colour, and the next barrier overtakes it |
| BarrierTheorems.StagesOnce | linux-2.6.28.2/block/blk-barrier.c:91-112 | A proxy that ends completes a stage not completed before (the BUG_ON cannot fire); only the last stage ends the original barrier, once, with the first error since the sequence started |
| BarrierTheorems.EveryRequestEndsOnce | linux-2.6.28.2/block/blk-barrier.c:91-130 | In every run no request ends twice, and each is either still somewhere or has ended |
| BarrierTheorems.DrainSeesAHead | linux-2.6.28.2/block/elevator.c:923-949 | While a sequence waits for the drain the proxy barrier is queued, so the unguarded look at the first request of the queue is safe |
| BarrierSafety.WalkStops | linux-2.6.28.2/block/elevator.c:630-655 | The colour comparison of the requeue walk stops a proxy in front of every request it must stay ahead of, even where the colour repeats behind a second barrier |
| BarrierSafety.RequeueInv | linux-2.6.28.2/block/elevator.c:552-567 | Putting a request back where the walk says keeps the order of barriers and the whole invariant |
| BarrierSafety.AddInv | linux-2.6.28.2/block/elevator.c:583-717 | Adding a request, sorted, at the back behind a drained scheduler or at the front, keeps the whole invariant |
| BarrierSafety.CompleteInv | linux-2.6.28.2/block/elevator.c:923-949 | Completing a request keeps the invariant, whether or not it is the last one the drain waits for |
| BarrierSafety.NextInv | linux-2.6.28.2/block/elevator.c:730-831 | One turn of the hand-out loop, with start, hold, EOPNOTSUPP and empty barriers, keeps the invariant |
| RequestQueueObject.RequestQueue.CompleteStage | linux-2.6.28.2/block/blk-barrier.c:91-112 | In place: the stage bit, the first error, and with the last bit the end of the original barrier |
| RequestQueueObject.RequestQueue.ElvCompletedRequest | linux-2.6.28.2/block/elevator.c:923-949 | In place: in_flight falls for accounted requests, and the drain stage completes when the queue head is behind it |
| RequestQueueObject.RequestQueue.TakeBarrierRequest | linux-2.6.28.2/block/blk-barrier.c:157-167 | In place: the error and stage words are reset and the barrier leaves the queue |
| RequestQueueObject.RequestQueue.StackSequence | linux-2.6.28.2/block/blk-barrier.c:169-190 | In place: the proxies end up at the head in the order pre-flush, barrier, post-flush, and absent ones count as done |
| RequestQueueObject.RequestQueue.DoOrderedRequest | linux-2.6.28.2/block/blk-barrier.c:205-252 | In place: hand out, hold, start a sequence, or end the barrier, on every branch of the source |
| RequestQueueObject.RequestQueue.NextRequestTurn | linux-2.6.28.2/block/elevator.c:746-831 | In place: one turn of the loop, with the empty barrier completed on the spot |
| RequestQueueObject.RequestQueue.RequeueRequest | linux-2.6.28.2/block/elevator.c:552-567 | In place: the in_flight count and the position the stage walk finds |
| RequestQueueObject.RequestQueue.WalkQueue | linux-2.6.28.2/block/elevator.c:640-652 | The loop returns the first position whose stage is not before the given one |
| RequestQueueObject.RequestQueue.DispatchSort | linux-2.6.28.2/block/elevator.c:430-472 | In place: directly behind the last request of the other direction, or barred, soft-barred or started, or no later in a one-way scan from end_sector; no request behind that place is such |
| BarrierProgress.QueueRunsDry | linux-2.6.28.2/block/blk-barrier.c:91-252 | From every reachable state of a draining queue some continuation of hand-outs, dequeues and completions alone ends every request that is not with the scheduler, the original barrier among them, and leaves the queue and the driver empty with no sequence in progress |
| BarrierProgress.HeadProxyGoes | linux-2.6.28.2/block/blk-barrier.c:246-252 | A proxy at the head whose stage has come is handed out by the next turn, or its stage is complete after it |
| BarrierProgress.HeadReady | linux-2.6.28.2/block/blk-barrier.c:246-252 | With nothing at the driver the head of a running sequence never has to wait |
| BarrierProgress.SpecialPasses | linux-2.6.28.2/block/blk-barrier.c:235-238 | A request that is no fs request, added at the front, goes out at the next turn whatever sequence is in progress |
| BarrierProgress.SpecialRequeued | linux-2.6.28.2/block/elevator.c:630-655 | Requeued, such a request is at the head again |
| BarrierProgress.TagHoldsBarriers | linux-2.6.28.2/block/blk-barrier.c:240-244 | Ordered by tag, a sequence in progress lets everything through but the next barrier, which waits |
| BarrierProgress.TagStartsAtOnce | linux-2.6.28.2/block/blk-barrier.c:192-197 | Ordered by tag, a sequence starts with whatever is in flight: drained at once, its first proxy handed out |
| ChainIvTheorems.OneOwner | linux-2.6.28.2/crypto/chainiv.c:122-261 | In every interleaving of single accesses by any number of threads at most one of the threads and the work item owns the chained IV, and whoever schedules the work item finds it not pending, so BUG_ON(!queued) does not fire |
| ChainIvTheorems.ChainAndStatus | linux-2.6.28.2/crypto/chainiv.c:160-178 | Every request is given the IV the last successful request left, and every call returns the status of its own request although ctx->err is shared |
| ChainIvTheorems.QuietKeepsWork | linux-2.6.28.2/crypto/chainiv.c:122-141 | With a generator that succeeds, whenever no thread is inside, a non-empty queue has a scheduled work item |
| ChainIvTheorems.FailedSeedLosesWork | linux-2.6.28.2/crypto/chainiv.c:207-232 | A concrete interleaving in which the generator fails and a postponed request is left with nobody coming for it |
| ChainIvTheorems.NothingLostExactlyWhenSeeded | linux-2.6.28.2/crypto/chainiv.c:207-232 | No interleaving loses work if and only if the generator cannot fail |
| ChainIvTheorems.WorkItemServes | linux-2.6.28.2/crypto/chainiv.c:234-261 | One run of the work item serves the head of the queue and is scheduled again exactly if another request waits |
| ChainIvTheorems.PostponedAreServed | linux-2.6.28.2/crypto/chainiv.c:234-261 | From every quiet moment the postponed requests can all be served, in order, each with the IV its predecessor left |
| ChainIv.StepInv | linux-2.6.28.2/crypto/chainiv.c:122-261 | Every single access keeps ownership, knowledge of the other threads, the chain and the promise of a second look |
| ChainIvOrder.ServedInOrder | linux-2.6.28.2/crypto/chainiv.c:122-261 | In every interleaving the requests that have used the chained IV, the one that uses it now and those that wait are, in this order, the requests in the order they arrived, whether they were postponed or went straight on |
| ChainIvOrder.NobodyWaits | linux-2.6.28.2/crypto/chainiv.c:122-261 | From any state and in every interleaving, a call or a run of the work item is over after at most 18 accesses of its own: no thread waits for another |
| ChainIvOrder.PostponeTells | linux-2.6.28.2/crypto/chainiv.c:143-158 | In every interleaving a postponed caller is told -EINPROGRESS exactly when fewer than max_qlen requests waited, -EBUSY otherwise, and its request joins the end of the queue exactly then or if it may wait beyond the limit |
| ChainIvOrder.IdleCallServed | linux-2.6.28.2/crypto/chainiv.c:160-232 | A call that finds the generator idle is served before it returns, with the IV the chain has arrived at, or a fresh seed if it is the first, reports the status of the cipher and leaves the generator idle |
| BlkMerge.ScatterlistFits | linux-2.6.28.2/block/blk-merge.c:141-222 | After any tree of back, front and request merges, refused merges and recounts, the scatterlist has at most nr_phys_segments entries, covers the same bytes in the same order, and keeps every entry within the size and boundary limits |
| BlkMerge.GreedyStaysAhead | linux-2.6.28.2/block/blk-merge.c:41-95 | The one-pass segmentation never uses more segments than any legal one, and in a tie its open segment is no longer |
| BlkMerge.CountedJoin | linux-2.6.28.2/block/blk-merge.c:296-334 | Joining the segments that meet saves exactly one, with the outer sizes the source writes when a side is a single segment |
| BlkMerge.RecalcOk | linux-2.6.28.2/block/blk-merge.c:41-95 | A recount makes the counters bounds again whatever they were |
| BlkMerge.BackMergeOk | linux-2.6.28.2/block/blk-merge.c:247-269 | A back merge, accepted or not, keeps the counters bounds and appends the vectors or nothing |
| BlkMerge.FrontMergeOk | linux-2.6.28.2/block/blk-merge.c:271-294 | A front merge, accepted or not, keeps the counters bounds and prepends the vectors or nothing |
| BlkMerge.MergeRequestsOk | linux-2.6.28.2/block/blk-merge.c:296-334 | A refused request merge may already have rewritten the outer sizes; they still bound |
| BlkMerge.AttemptMergeOk | linux-2.6.28.2/block/blk-merge.c:339-403 | Merging two requests keeps the counters of whichever requests remain bounds |
| BlkMergeRequest.CountSegments | linux-2.6.28.2/block/blk-merge.c:41-95 | The loop counts the segments of the one-pass segmentation, with the sizes of the first and the last |
| BlkMergeRequest.MapVectors | linux-2.6.28.2/block/blk-merge.c:141-222 | The loop writes exactly the entries of the one-pass segmentation and nothing else |
| BlkMergeRequest.Request.RecalcSegments | linux-2.6.28.2/block/blk-merge.c:41-95 | In place: the recount and both outer sizes |
| BlkMergeRequest.Request.NewHwSegment | linux-2.6.28.2/block/blk-merge.c:225-245 | In place: the count grows within both limits, or the request is marked unmergeable |
| BlkMergeRequest.Request.BackMerge | linux-2.6.28.2/block/blk-merge.c:247-269 | In place: the accepted or refused back merge, with valid counters after either |
| BlkMergeRequest.Request.FrontMerge | linux-2.6.28.2/block/blk-merge.c:271-294 | In place: the accepted or refused front merge, with valid counters after either |
| BlkMergeRequest.Request.MergeRequests | linux-2.6.28.2/block/blk-merge.c:296-334 | In place: both requests' sizes and the total, on every path |
| BlkMergeRequest.Request.AttemptMerge | linux-2.6.28.2/block/blk-merge.c:339-403 | In place: the whole merge, leaving valid requests |
| BlkMergeRequest.Request.MapSg | linux-2.6.28.2/block/blk-merge.c:141-222 | A list of nr_phys_segments entries is enough, and the rest of the list is untouched |
| BlkMergeLimits.BackMergeExactly | linux-2.6.28.2/block/blk-merge.c:225-269 | A bio is merged at the back exactly when sectors and both segment limits leave room for what was counted for it; a refusal marks the request and leaves vectors and counters |
| BlkMergeLimits.FrontMergeExactly | linux-2.6.28.2/block/blk-merge.c:271-294 | The same at the front |
| BlkMergeLimits.MergeExactly | linux-2.6.28.2/block/blk-merge.c:296-403 | Two requests become one exactly when neither is barred, the sectors fit and the segments fit, one saved where they meet |
| BlkMergeLimits.SectorsAdd | linux-2.6.28.2/block/blk-merge.c:247-403 | After any tree of merges, refused merges and recounts a request is as long as its bios together |
| BlkMergeLimits.BounceKeepsCount | linux-2.6.28.2/block/blk-merge.c:41-95 | Wherever bouncing moves the high pages afterwards, the scatterlist has at most as many entries as were counted before |
| BlkMergeLimits.BoundaryNotCrossed | linux-2.6.28.2/include/linux/bio.h:251-254 | The boundary test holds exactly when no multiple of the boundary lies inside the two vectors |
| DeadlineTheorems.WritesNotStarved | linux-2.6.28.2/block/deadline-iosched.c:245-327 | Once a write is queued, of any (writes_starved + 1) * max(1, fifo_batch) + 1 dispatch calls at least one picks a write, whatever arrives or merges meanwhile |
| DeadlineTheorems.Starvation | linux-2.6.28.2/block/deadline-iosched.c:245-327 | The sharper bound from the current counters, and every call meanwhile picks a request |
| DeadlineTheorems.ReadCosts | linux-2.6.28.2/block/deadline-iosched.c:245-327 | Each read picked uses up one unit of what the batch and the starvation counter still allow |
| DeadlineTheorems.IndicesAgree | linux-2.6.28.2/block/deadline-iosched.c:76-222 | In every run tree and FIFO hold the same requests, in sector and deadline order, at most one direction has a cached next request and it is on its tree, nr_sorted is the number held, and no request is lost or dispatched twice |
| DeadlineTheorems.ChoiceHeld | linux-2.6.28.2/block/deadline-iosched.c:245-327 | Whatever a dispatch call settles on is on the tree it is taken from, so neither BUG_ON can fire |
| DeadlineTheorems.DrainEmpties | linux-2.6.28.2/block/elevator.c:569-581 | Draining dispatches everything held exactly once and leaves nr_sorted zero |
| Deadline.MergedRequestsOk | linux-2.6.28.2/block/deadline-iosched.c:170-189 | A request merge keeps the FIFO in deadline order with the survivor in the older place |
| Deadline.FrontMergedOk | linux-2.6.28.2/block/deadline-iosched.c:156-168 | A front merge moves the request in the tree and sends a request of the same sector to dispatch |
| DeadlineQueueObject.DeadlineQueue.AddRequest | linux-2.6.28.2/block/deadline-iosched.c:100-113 | In place: tree, FIFO and deadline of the new request, after any request of its sector has gone to dispatch |
| DeadlineQueueObject.DeadlineQueue.RemoveRequest | linux-2.6.28.2/block/deadline-iosched.c:118-124 | In place: off FIFO and tree, with the cached next request moved on |
| DeadlineQueueObject.DeadlineQueue.MoveRequest | linux-2.6.28.2/block/deadline-iosched.c:206-222 | In place: caches, last sector, and the dispatch queue |
| DeadlineQueueObject.DeadlineQueue.AddRqRb | linux-2.6.28.2/block/deadline-iosched.c:76-84 | The loop sends every request of the same sector to dispatch before the insertion |
| DeadlineQueueObject.DeadlineQueue.MergedRequest | linux-2.6.28.2/block/deadline-iosched.c:156-168 | In place: the repositioning after a front merge |
| DeadlineQueueObject.DeadlineQueue.MergedRequests | linux-2.6.28.2/block/deadline-iosched.c:170-189 | In place: deadline, FIFO place and removal of the absorbed request |
| DeadlineQueueObject.DeadlineQueue.Select | linux-2.6.28.2/block/deadline-iosched.c:252-309 | The branches of the choice: continue a batch, expire or go on with reads, or turn to writes, with the starvation counter |
| DeadlineQueueObject.DeadlineQueue.DispatchRequests | linux-2.6.28.2/block/deadline-iosched.c:245-327 | In place: the choice, the batch count and the move to dispatch |
| DeadlineQueueObject.DeadlineQueue.DrainElevator | linux-2.6.28.2/block/elevator.c:569-581 | The loop ends with nothing held and nr_sorted zero |
| DeadlineService.ExpiredFirst | linux-2.6.28.2/block/deadline-iosched.c:225-242 | A call that starts a batch dispatches the first request of the FIFO if it has expired or no next request is cached, and the cached next request otherwise |
| DeadlineService.DeadlineHonoured | linux-2.6.28.2/block/deadline-iosched.c:245-327 | In every run a request whose deadline has passed goes out, or is merged, within as many batches of its direction as requests stand before it, and its own |
| DeadlineService.ServedInTime | linux-2.6.28.2/block/deadline-iosched.c:245-327 | It does so within that many times (writes_starved + 1) * max(1, fifo_batch) + 1 dispatch calls if it is a write, 2 * max(1, fifo_batch) + 1 if it is a read and writes_starved is not zero, whatever arrives or merges meanwhile |
| DeadlineService.PromptExactlyWhenTurns | linux-2.6.28.2/block/deadline-iosched.c:271-296 | There is such a bound for writes always, for reads if and only if writes_starved is not zero |
| DeadlineService.ReadsStarveAtZero | linux-2.6.28.2/block/deadline-iosched.c:271-296 | With writes_starved zero, for any number of calls a run in which a read stays overdue through all of them |
| DeadlineService.SurvivorCovers | linux-2.6.28.2/block/deadline-iosched.c:170-189 | A merge of neighbours leaves one request with exactly the sectors of both and the earlier of the deadlines |
| DeadlineService.BatchIsSweep | linux-2.6.28.2/block/deadline-iosched.c:252-270 | With nothing arriving in between, a batch dispatches consecutive requests of its direction in sector order from the one it starts with, as many as fifo_batch allows |
| DeadlineService.ReadsFirst | linux-2.6.28.2/block/deadline-iosched.c:271-296 | Between two batches of writes that start while a read waits, at least writes_starved batches of reads start |
| ElvTree.RbAddSorted | linux-2.6.28.2/block/elevator.c:373-395 | Insertion in the sector tree keeps it sorted, or names the request of the same sector |
| CfqRuns.IndicesAgree | linux-2.6.28.2/block/cfq-iosched.c:407-693 | In every run a queue is on the service tree, once, exactly when it has requests, and then has a valid next request; tree and FIFO agree; busy_queues, rq_queued, queued[] and meta_pending are the real counts; the cached first node is empty or the first; no request is lost or dispatched twice |
| CfqRuns.ForcedDispatchEmpties | linux-2.6.28.2/block/cfq-iosched.c:1103-1117 | Forced dispatch ends with every held request dispatched once and busy_queues and rq_queued zero |
| CfqRuns.ForcedQueueEmpties | linux-2.6.28.2/block/cfq-iosched.c:1086-1097 | Emptying one queue leaves its FIFO empty, so the BUG_ON behind the loop cannot fire |
| CfqRuns.CountersPositive | linux-2.6.28.2/block/cfq-iosched.c:573-602 | Every counter the removal decrements is positive, so its BUG_ONs and WARN_ON cannot fire |
| CfqTheorems.FirstOk | linux-2.6.28.2/block/cfq-iosched.c:407-416 | The cached leftmost node, filled in on demand, is the first of the tree and has a request to dispatch |
| CfqQueues.LeftFlagIsFirst | linux-2.6.28.2/block/cfq-iosched.c:469-541 | For a tree of any shape and any comparisons, the descent inserts at its in-order place, and the left flag survives exactly when that place is the first |
| CfqOrder.FifoIsArrivalOrder | linux-2.6.28.2/block/cfq-iosched.c:1877-1894 | In every run each queue's FIFO holds its requests in the order they were inserted, through merges and repositioning |
| CfqOrder.NextGivesWay | linux-2.6.28.2/block/cfq-iosched.c:604-627 | Until it leaves, the next request gives way only to a new one, and the better of the two is kept |
| CfqOrder.AddedAtPlace | linux-2.6.28.2/block/cfq-iosched.c:469-541 | A queue goes to the place where the descent ended, and the cache is set exactly when that is the first |
| CfqOrder.RepositionMoves | linux-2.6.28.2/block/cfq-iosched.c:629-634 | Repositioning puts the request back on the tree at its new sector and changes no other |
| CfqOrder.NextIsNeighbour | linux-2.6.28.2/block/cfq-iosched.c:430-453 | The next request after one leaves is its successor in sector order, around the end, or its predecessor, whichever ranks better; there is none exactly when it was the last |
| CfqOrder.DispatchedIsCount | linux-2.6.28.2/block/cfq-iosched.c:937-950 | In every run the dispatched counter of a queue is the number of its requests that went to the dispatch queue |
| CfqOrder.SurvivorCovers | linux-2.6.28.2/block/blk-merge.c:339-403 | A merged request covers exactly the sectors of both and is as old as the older |
| Cfq.ChoiceIsBest | linux-2.6.28.2/block/cfq-iosched.c:314-402 | The choice between two requests is one that ranks best by sync, meta, wrap and distance, independent of the order they are given in |
| Cfq.FifoPlaceKept | linux-2.6.28.2/block/cfq-iosched.c:720-732 | Because attempt_merge evens out start times first, the FIFO move for an older absorbed request never happens |
| CfqTheorems.InsertOk | linux-2.6.28.2/block/cfq-iosched.c:604-627 | Adding a request, with the aliases it displaces, keeps every index and counter |
| CfqTheorems.RepositionOk | linux-2.6.28.2/block/cfq-iosched.c:629-634 | Repositioning after a front merge keeps every index and counter |
| CfqTheorems.ResortOk | linux-2.6.28.2/block/cfq-iosched.c:546-553 | Moving a queue on the service tree keeps the cached first node right |
| CfqDataObject.CfqData.RbErase | linux-2.6.28.2/block/cfq-iosched.c:418-425 | In place: the cached first node is dropped when it leaves the tree |
| CfqDataObject.CfqData.ServiceTreeAdd | linux-2.6.28.2/block/cfq-iosched.c:469-541 | In place: the queue at its new place, and the cache set when that is the first |
| CfqDataObject.CfqData.DelCfqqRr | linux-2.6.28.2/block/cfq-iosched.c:573-584 | In place: off the tree, flag cleared, busy_queues down |
| CfqDataObject.CfqData.RemoveRequest | linux-2.6.28.2/block/cfq-iosched.c:678-693 | In place: next request, FIFO, tree and all counters |
| CfqDataObject.CfqData.DispatchInsert | linux-2.6.28.2/block/cfq-iosched.c:937-950 | In place: removal and the dispatch queue |
| CfqDataObject.CfqData.InsertRequest | linux-2.6.28.2/block/cfq-iosched.c:1877-1894 | In place: aliases dispatched, the request on tree and FIFO, the queue on the service tree |
| CfqDataObject.CfqData.RepositionRqRb | linux-2.6.28.2/block/cfq-iosched.c:629-634 | In place: off the tree and on again at the new sector |
| CfqDataObject.CfqData.ForcedDispatchCfqq | linux-2.6.28.2/block/cfq-iosched.c:1086-1097 | The loop dispatches until the queue has no next request |
| CfqDataObject.CfqData.ForcedDispatch | linux-2.6.28.2/block/cfq-iosched.c:1103-1117 | The loop over the service tree dispatches everything |
| PartialCompletion.CompleteDrops | linux-2.6.28.2/block/blk-core.c:1675-1786 | Completing n bytes leaves the byte stream without its first n bytes, with sizes that still fit |
| PartialCompletion.CompleteEnds | linux-2.6.28.2/block/blk-core.c:1675-1786 | The bios ended are the first ones, each once and in order, with the error due; the others are untouched but for the first if it is done in part |
| PartialCompletion.Resumes | linux-2.6.28.2/block/blk-core.c:1675-1786 | Completing n and then m bytes is completing n + m at once, with the same ends and errors, if and only if m > 0 or no empty bio is left in front |
| PartialCompletion.ErrorsStick | linux-2.6.28.2/block/blk-core.c:125-159 | Over any series of calls a bio ends with an error if and only if it came with one or some call that completed any of it carried one |
| PartialCompletion.RunInOrder | linux-2.6.28.2/block/blk-core.c:1675-1786 | Over any series of calls each bio ends once, in the order of the request, or is left |
| PartialCompletion.Walk | linux-2.6.28.2/block/blk-core.c:1690-1758 | The nested loop stops at the right vector and byte, having ended what it should |
| PartialCompletion.Request.EndThatRequestFirst | linux-2.6.28.2/block/blk-core.c:1675-1786 | In place: zero is returned exactly when no bio is left, and the position is resumable |
| Camellia.EncryptIsTextbook | linux-2.6.28.2/crypto/camellia.c:899-952 | For any tables and subkeys, encryption under the absorbed and pre-inverted schedule is the textbook cipher of sections 2.3 and 2.4 of RFC 3713 |
| CamelliaF.EncryptIsRfc | linux-2.6.28.2/crypto/camellia.c:393-590 | For any S-boxes and subkeys, encryption under the absorbed schedule with the code's tables is the cipher of sections 2.3 and 2.4 of RFC 3713 with its own F, FL and FLINV, and decryption takes it back |
| Camellia.FLIsRfc | linux-2.6.28.2/crypto/camellia.c:866-880 | FL and FLINV with the code's rotation are those of sections 2.4.2 and 2.4.3 of RFC 3713 with a rotation by one |
| Camellia.DecryptUndoes | linux-2.6.28.2/crypto/camellia.c:954-1007 | For any subkey table at all, decryption with the half swaps undoes encryption |
| Camellia.RoundShifts | linux-2.6.28.2/crypto/camellia.c:882-897 | A round under a pre-inverted key difference moves the absorbed key from one half to the other |
| Camellia.FLCarriesBack | linux-2.6.28.2/crypto/camellia.c:866-880 | The difference the schedule carries through FLINV is the one FL carries back |
| CamelliaF.TablesComputeF | linux-2.6.28.2/crypto/camellia.c:371-389 | For any S-boxes the tables and the last half of P compute the F-function of RFC 3713 byte by byte |
| CamelliaSetup.SetupTail | linux-2.6.28.2/crypto/camellia.c:393-590 | In place: the whole of the schedule transformation, for both key sizes |
| CamelliaCrypt.Encrypt | linux-2.6.28.2/crypto/camellia.c:899-952 | In place on io: the unrolled rounds for either number of blocks |
| CamelliaCrypt.Decrypt | linux-2.6.28.2/crypto/camellia.c:954-1007 | In place on io: the unrolled rounds backwards |
| CamelliaCrypt.DecryptsTextbook | linux-2.6.28.2/crypto/camellia.c:1045-1091 | Decryption under the schedule undoes the textbook cipher |
| Aes.ForwardIsRound | linux-2.6.28.2/crypto/aes_generic.c:329-356 | A round of table lookups is SubBytes, ShiftRows, MixColumns and AddRoundKey by bytes over GF(2^8) |
| Aes.InverseIsRound | linux-2.6.28.2/crypto/aes_generic.c:400-428 | An inverse round of table lookups is the inverse round by bytes |
| Aes.EncryptIsCipher | linux-2.6.28.2/crypto/aes_generic.c:358-397 | The table-driven cipher is the cipher of section 5.1 of FIPS 197 |
| Aes.DecryptUndoes | linux-2.6.28.2/crypto/aes_generic.c:430-469 | For any S-box bijection and any round keys the equivalent inverse cipher (section 5.3.5 of FIPS 197) undoes the cipher |
| Aes.MixRoundTrip | linux-2.6.28.2/crypto/aes_generic.c:122-158 | The inverse column mixing undoes the column mixing |
| AesWords.StarIsDouble | linux-2.6.28.2/crypto/aes_generic.c:160-162 | The word-parallel doubling doubles each byte in GF(2^8) |
| AesWords.ImixIsInvMix | linux-2.6.28.2/crypto/aes_generic.c:164-173 | The word-parallel key mixing is InvMixColumns |
| AesKey.LsBoxIsSubWord | linux-2.6.28.2/crypto/aes_generic.c:175-179 | The last-round tables substitute the bytes of a word |
| AesKey.RotWordIsRor | linux-2.6.28.2/crypto/aes_generic.c:181-183 | ror32(t, 8) on a little-endian word is RotWord of section 5.2 of FIPS 197 |
| AesKey.FirstWordBytes | linux-2.6.28.2/crypto/aes_generic.c:181-186 | Byte r of the first word of a round is byte r of the word nk before, plus the S-box of byte r + 1 modulo 4 of the word before, plus the round constant in byte 0 |
| AesKey.RoundConstants | linux-2.6.28.2/crypto/aes_generic.c:105-110 | The ten round constants are those of FIPS 197 |
| AesKey.RoundKeyIs | linux-2.6.28.2/crypto/aes_generic.c:246-297 | Round key i is words 4i to 4i + 3 of the schedule of FIPS 197; keys have 16, 24 or 32 bytes, with 10, 12 and 14 rounds |
| AesKey.ExpandKey | linux-2.6.28.2/crypto/aes_generic.c:246-297 | In place, for each key length: key_enc is the schedule of section 5.2 of FIPS 197 and key_dec its reversed, inverse-mixed form; any other length is refused and changes nothing |
| AesKey.MixKeys | linux-2.6.28.2/crypto/aes_generic.c:292-295 | The last loop puts every inner key, mixed, at its place from the end |
| AesKey.AesEncrypt | linux-2.6.28.2/crypto/aes_generic.c:358-397 | For each key length the unrolled rounds are the cipher of FIPS 197 on the schedule |
| AesKey.AesDecrypt | linux-2.6.28.2/crypto/aes_generic.c:430-469 | For each key length the unrolled inverse rounds on key_dec undo the cipher |
| CryptoQueue.EnqueueGood | linux-2.6.28.2/crypto/algapi.c:670-689 | Who is refused, who is told to wait, and that the backlog pointer designates the request at index max_qlen or none |
| CryptoQueue.DequeueGood | linux-2.6.28.2/crypto/algapi.c:691-708 | The first request leaves, the pointer moves on by one, and what it designated before stops waiting |
| CryptoQueue.RequestQueue.Enqueue | linux-2.6.28.2/crypto/algapi.c:670-689 | In place: list, pointer and count |
| CryptoQueue.RequestQueue.Dequeue | linux-2.6.28.2/crypto/algapi.c:691-708 | In place: list, pointer and count |
| CryptdTheorems.EveryStory | linux-2.6.28.2/crypto/cryptd.c:560-596 | In every run requests finish in the order accepted, notices follow the order of the -EBUSY answers, and each accepted request is finished once through its caller's function, after one -EINPROGRESS notice if it was answered -EBUSY and none otherwise |
| CryptdTheorems.CompletesExactlyWhenDisciplined | linux-2.6.28.2/crypto/cryptd.c:80-108 | Every pending request keeps a completion function of its caller if and only if no caller submits again after a rejection without setting the function; and then the daemon never calls itself |
| CryptdTheorems.FinishesExactlyWhenDisciplined | linux-2.6.28.2/crypto/cryptd.c:560-596 | Every accepted request can still be finished by the daemon alone if and only if the callers kept that rule |
| CryptdTheorems.DoomedForEver | linux-2.6.28.2/crypto/cryptd.c:80-108 | A request accepted with the daemon's own pointer is never finished, whatever happens |
| CryptdTheorems.RetryDooms | linux-2.6.28.2/crypto/cryptd.c:128-146 | Submitting again after a rejection, without setting the function, dooms the request once accepted |
| CryptdTheorems.RetryGetsStuck | linux-2.6.28.2/crypto/cryptd.c:128-146 | A concrete run with a queue of one in which that makes the daemon call itself for ever |
| CryptdTheorems.DrainFinishesAll | linux-2.6.28.2/crypto/cryptd.c:560-596 | Left alone the daemon finishes everything accepted and has notified everyone told to wait |
| CryptdObject.CryptdState.EnqueueRequest | linux-2.6.28.2/crypto/cryptd.c:128-146 | In place: the pointers are swapped even when the queue then refuses |
| CryptdObject.CryptdState.TakeRequest | linux-2.6.28.2/crypto/cryptd.c:573-576 | In place: backlog read and head taken under one lock |
| CryptdObject.CryptdState.CompleteRequest | linux-2.6.28.2/crypto/cryptd.c:580-588 | In place: the notice, then the work, the restored pointer and the completion |
| RemoveSpawns.WalkComplete | linux-2.6.28.2/crypto/algapi.c:112-131 | When the worklist is empty, what was removed is exactly what a chain of live registered instances reaches, diamonds included |
| RemoveSpawns.RemoveWalks | linux-2.6.28.2/crypto/algapi.c:84-110 | Each removal splices exactly what the spawn leads to and is not yet covered |
| RemoveSpawns.SparedAre | linux-2.6.28.2/crypto/algapi.c:118-120 | What stays on the list is exactly what is not selected |
| RemoveSpawns.SelectedAgrees | linux-2.6.28.2/crypto/algapi.c:118-120 | A spawn is removed exactly if the new type agrees with the algorithm's flags wherever its mask looks |
| RemoveSpawns.RootNotReached | linux-2.6.28.2/crypto/algapi.c:112-131 | With instances built after what they use, the walk does not come back to its root |
| RemoveSpawns.CryptoRegistry.RemoveSpawn | linux-2.6.28.2/crypto/algapi.c:84-110 | In place: dead flag, output list, registration and users, on every branch |
| RemoveSpawns.CryptoRegistry.RemoveSpawns | linux-2.6.28.2/crypto/algapi.c:112-131 | In place: the worklist ends; exactly the reachable instances become dead, each registered one whose template can be held moves to the output once, the selected spawns are detached and the others stay in order |
| Increment.CryptoInc | linux-2.6.28.2/crypto/algapi.c:723-750 | In place: adds one modulo 256^size to the big-endian number, for every size, words and byte tail together |
| Increment.Carry | linux-2.6.28.2/crypto/algapi.c:736-750 | A carry through trailing ones is the increment of the whole number |
| Bytes.CryptoXor | linux-2.6.28.2/crypto/algapi.c:752-767 | In place: words and byte tail combine every byte of the stretch and no other |
| Bytes.BitsCombine | linux-2.6.28.2/crypto/algapi.c:752-767 | Each bit of the combined number says whether the two bits differ |
| Bytes.XorBytesTwice | linux-2.6.28.2/crypto/algapi.c:758-767 | Combining twice with the same bytes restores the first |
| Ccm.Context.Auth | linux-2.6.28.2/crypto/ccm.c:245-276 | However the scatterlists are fragmented, the result is the CBC-MAC of section 2.2 of RFC 3610 over the first block, the length-prefixed padded associated data and the padded payload, with what was left in idata in front of the payload when there is no associated data |
| Ccm.RightExactlyWhenClean | linux-2.6.28.2/crypto/ccm.c:265-272 | For every accepted length size, tag size and nonce: the MAC is that of RFC 3610 for every injective cipher and payload if and only if there is associated data or ilen is zero |
| Ccm.StaleMatters | linux-2.6.28.2/crypto/ccm.c:265-272 | Whatever is left in idata, some injective cipher gives the empty payload a wrong MAC on a first block the code builds |
| Ccm.LengthFaithful | linux-2.6.28.2/crypto/ccm.c:58-74 | Of the lengths set_msg_len accepts, the field holds the length for all but 256^csize itself, for fields under four bytes |
| CcmBlocks.BlocksDecode | linux-2.6.28.2/crypto/ccm.c:123-276 | No two messages are authenticated as the same blocks: tag size, length size, nonce, associated data and payload can be read back from the first block and the padded, length-prefixed data |
| CcmBlocks.MacOfBlocks | linux-2.6.28.2/crypto/ccm.c:245-276 | The MAC is the chain over exactly these blocks |
| CcmBlocks.AdataLengthDecodes | linux-2.6.28.2/crypto/ccm.c:145-162 | The length prefix determines the length, whatever follows it |
| CcmBlocks.FirstVector | linux-2.6.28.2/crypto/ccm.c:123-143 | The first block of packet vector 1 of section 8 of RFC 3610 |
| CcmBlocks.PrefixVectors | linux-2.6.28.2/crypto/ccm.c:145-162 | The length prefix on both sides of its threshold of 65280 |
| CcmBlocks.Accepted | linux-2.6.28.2/crypto/ccm.c:104-121 | Exactly the tag sizes 4, 6, 8, 10, 12, 14 and 16 are accepted, length fields of 2 to 8 bytes, and lengths up to and including 256^csize for fields under four bytes |
| Ccm.Absorb | linux-2.6.28.2/crypto/ccm.c:164-201 | Absorbing in two parts is absorbing at once: the chain value and the unfinished block agree |
| Ccm.PadRest | linux-2.6.28.2/crypto/ccm.c:231-242 | Padding the leftover is padding the whole |
| Ccm.MacConcat | linux-2.6.28.2/crypto/ccm.c:164-201 | The chain over two stretches of whole blocks is the chain over both |
| Ccm.Context.ComputeMac | linux-2.6.28.2/crypto/ccm.c:164-201 | In place: chain value and leftover for data of any length and any leftover before |
| Ccm.Context.GetDataToCompute | linux-2.6.28.2/crypto/ccm.c:203-243 | The walk over fragments, with the padding at the end, absorbs exactly the first len bytes |
| Ccm.Context.FormatInput | linux-2.6.28.2/crypto/ccm.c:123-143 | In place: the first block of RFC 3610, flags, nonce and length, or the overflow error |
| Ccm.Context.FormatAdata | linux-2.6.28.2/crypto/ccm.c:145-162 | In place: the length prefix of RFC 3610 on both sides of 65280 |
| Ccm.Context.SetMsgLen | linux-2.6.28.2/crypto/ccm.c:58-74 | In place: the length field, or the error with the field cleared |
| Cbc.DecryptUndoes | linux-2.6.28.2/crypto/cbc.c:42-191 | Decryption undoes encryption of whole blocks for any block cipher |
| Cbc.EncryptConcat | linux-2.6.28.2/crypto/cbc.c:90-112 | Encrypting a message in two parts, the value passed on, is encrypting it at once, with the same final value |
| Cbc.DecryptConcat | linux-2.6.28.2/crypto/cbc.c:169-191 | The same for decryption |
| Cbc.EncryptSegment | linux-2.6.28.2/crypto/cbc.c:42-64 | The copying loop writes the CBC encryption of the whole blocks and leaves the chaining value |
| Cbc.EncryptInplace | linux-2.6.28.2/crypto/cbc.c:66-88 | The loop in place, chained to the block just written, does the same and leaves the rest alone |
| Cbc.DecryptSegment | linux-2.6.28.2/crypto/cbc.c:114-138 | The copying loop writes the CBC decryption |
| Cbc.DecryptInplace | linux-2.6.28.2/crypto/cbc.c:140-167 | The backward loop in place, from the last block, does the same, although it overwrites the ciphertext it chains on |
| CbcWalk.CryptoEncrypt | linux-2.6.28.2/crypto/cbc.c:90-112 | However memory is cut and shared, the output is the encryption of the whole blocks; the error says that a part of a block was left |
| CbcWalk.CryptoDecrypt | linux-2.6.28.2/crypto/cbc.c:169-191 | The same for decryption |
| CbcWalk.RoundTrip | linux-2.6.28.2/crypto/cbc.c:90-191 | Sent in any pieces and received in any others, a message of whole blocks comes back, and both sides keep the same chaining value |
| Cts.CtsRoundTrip | linux-2.6.28.2/crypto/cts.c:125-250 | For every message of a block or more and any block permutation, decryption undoes encryption and the length is kept |
| Cts.CtsIsSwapped | linux-2.6.28.2/crypto/cts.c:73-123 | What is sent is the CBC encryption of the zero-padded message with its last two blocks swapped and the length cut back (section 8 of RFC 2040, section 5 of RFC 3962) |
| Cts.TailRoundTrip | linux-2.6.28.2/crypto/cts.c:73-217 | The last two blocks, the second of any length up to a block, come back |
| CtsCrypt.CtsCbcEncrypt | linux-2.6.28.2/crypto/cts.c:73-123 | The local buffers of the two stolen blocks, and the value left for the next message |
| CtsCrypt.CtsCbcDecrypt | linux-2.6.28.2/crypto/cts.c:159-217 | The six numbered steps on local buffers |
| CtsCrypt.CryptoCtsEncrypt | linux-2.6.28.2/crypto/cts.c:125-157 | Which blocks go through plain CBC and which through stealing, for every length the source handles |
| CtsCrypt.CryptoCtsDecrypt | linux-2.6.28.2/crypto/cts.c:219-250 | The same for decryption |
| CtsCrypt.RoundTrip | linux-2.6.28.2/crypto/cts.c:125-250 | Sent and received in any pieces, the message comes back and both sides chain the same value into the next one |
| Ctr.CryptTwice | linux-2.6.28.2/crypto/ctr.c:49-150 | Applying the mode twice restores every message, a partial last block included |
| Ctr.CryptConcat | linux-2.6.28.2/crypto/ctr.c:121-150 | The part of a message behind k blocks uses the initial counter plus k |
| Ctr.CryptoCtrCrypt | linux-2.6.28.2/crypto/ctr.c:121-150 | However the walk cuts the message, byte j meets the key stream of counter plus j / bsize, and the counter moves on by the blocks begun |
| Ctr.CryptSegment | linux-2.6.28.2/crypto/ctr.c:68-92 | The copying loop on whole blocks |
| Ctr.CryptInplace | linux-2.6.28.2/crypto/ctr.c:94-119 | The loop in place on whole blocks |
| Ctr.CryptFinal | linux-2.6.28.2/crypto/ctr.c:49-66 | The last bytes, fewer than a block |
| ThinkTime.MeanBounds | linux-2.6.28.2/block/as-iosched.c:501-514 | Over any unbounded series of think times from lo to hi: the weight is in 32..249, the total at most hi * (weight + 7), and the mean from lo to hi + (7 * hi + 128) / weight |
| ThinkTime.TotalIsDecayed | linux-2.6.28.2/block/as-iosched.c:501-514 | Over any unbounded series the total and the weight stay within 7 below the averages without rounding, in which each sample counts 32 and then 7/8 as much with every further one, and the mean is their quotient rounded |
| ThinkTime.NewcomersDecay | linux-2.6.28.2/block/as-iosched.c:504-510 | Only the first sample of a process moves the averages for new processes, by the same decay rounded down |
| ThinkTime.WeightGrows | linux-2.6.28.2/block/as-iosched.c:511-513 | The weight never decreases and no division is by zero |
| ThinkTime.Fits | linux-2.6.28.2/block/as-iosched.c:501-514 | No intermediate value exceeds 2048 times the greatest think time |
| ThinkTime.NewcomersBound | linux-2.6.28.2/block/as-iosched.c:504-510 | The average for new processes stays within the greatest think time, and exit_prob only falls |
| ThinkTime.AsData.UpdateThinktime | linux-2.6.28.2/block/as-iosched.c:501-514 | In place: both averages, the second only for a new process |
| ThinkTime.AsData.UpdateIohist | linux-2.6.28.2/block/as-iosched.c:547-576 | In place: which requests count, and with what think time |
| ThinkTime.AsIoContext.UpdateIoThinktime | linux-2.6.28.2/block/cfq-iosched.c:1687-1696 | In place: the same update with the clipped idle time |

## Left out

- Barriers: discard requests, whole runs ordered by tag (the run theorems are for draining queues; of
  the tag branches only what one turn does is stated), elv_abort_queue, and merging while barriers wait. It is assumed that fs
  requests are not inserted at the front, that prepare_flush_fn leaves the proxies non-fs, and that a
  forced dispatch empties the scheduler, which the two schedulers here are proved to do.
- The hand-out loop of elv_next_request is modelled turn by turn; prep_rq_fn and the dma drain are left out.
- Drivers that never complete a request: what is proved is that completing is always enough.
- Segment merging: discard and data-less bios, drain padding and the chaining of scatterlist pages.
- CFQ: time slices, priorities, preemption and idling decide only which queue goes next, so every place
  on the service tree and every choice of active queue is allowed instead. Anticipation and seek
  statistics are left out likewise.
- cfq_prio_boost may change the class of a linked queue, so no order of the service tree is claimed.
- Partial completion: bi_sector, the accounting of bytes, vectors consumed before bi_idx, empty vectors,
  and the special case of the proxy barrier.
- The generator argument for the GF(2^8) tables in gen_tabs; products are by repeated doubling instead.
- The raw subkeys of Camellia (camellia_setup128 to camellia_setup256) are arbitrary, as are its S-boxes.
- CCM: encryption of the tag and the payload, and the comparison of tags on decryption. A tag size other
  than those crypto_ccm_setauthsize accepts, and an ilen of 16 or more on entry, are not modelled.
- Ciphertext stealing of a message shorter than a block, for which the source reads beyond its input.
- The in-place methods of CBC and counter mode use `nbytes % bsize` where the source masks with
  `bsize - 1`; they agree for the block sizes in use, powers of two.
- Allocation failures, page mapping, slow paths that only copy, and the fast path on unaligned memory.
- cryptd: only the queue, the pointers and the daemon; the child cipher's result is not modelled, and
  the request body is one of the cipher and hash bodies, which differ only in the child operation.
- RemoveSpawns: after list_splice the head of a dead instance's list still points at the moved spawns;
  the model empties it, and nothing reads it again. Notifications and reference counts are left out;
  the instances whose template reference can be taken are a parameter.
- crypto_register_alg, larvals, lookup by name, kobjects and /proc.
- Blowfish, CAST5, CAST6, Anubis, ARC4, deflate, null ciphers and ansi_cprng: easier repeats, or no crisp law.
