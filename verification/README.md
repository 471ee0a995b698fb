# Block layer and crypto layer of the 2.6.29 kernel, in Dafny

A model of the most intricate parts of `kernel/2.6.29/block` and `kernel/2.6.29/crypto`, with proofs of
what they are for. Every entry point of the block layer runs under the queue lock and is one atomic step;
the asynchronous chain-IV generator runs without a lock and is modelled one bit or queue operation at a
time. Where the source changes things in place, so do the classes and methods here, and each method is
proved equal to a specification about which the properties are proved.

`dafny verify dfyconfig.toml` checks everything.

| files | part |
|---|---|
| `Barrier*` | I/O barriers: draining, pre-flush, proxy, post-flush, one colour bit per request |
| `Segment*`, `MergeHash`, `MergeTiling` | merging: segment counts, the scatterlist bound, the merge hash, tiling of sectors |
| `Completion*` | partial completion of a chain of bios |
| `Deadline*`, `Anticipatory*`, `Cfq*` | the three schedulers: agreeing indexes, cached choices, starvation, draining |
| `Camellia*`, `Aes*`, `Bits32` | two fast ciphers against RFC 3713 and FIPS 197 |
| `Cbc*`, `Ccm*` | chaining and authentication over memory in pieces, against NIST SP 800-38A and RFC 3610 |
| `ChainIv*`, `CryptoQueue` | the lock-free ownership of the IV chain |
| `Registry`, `Name*` | removal of dependent algorithms, and the parser of instance names |

## Findings

Places where the code does not do what it, or its comments, suggest. Each has a lemma with a concrete
input and one that says exactly when it happens.

- **A request that is not a file-system request must not carry REQ_HARDBARRIER.** It toggles the colour
  without opening an epoch, so the next request has the colour of the barrier in progress and is issued
  early (`LateWriteIssued`, `RunSoundIff`, `DisorderNeedsCommand`, `OneColourBitIff`). `kernel/2.6.29/drivers/block/pktcdvd.c:783`
  sets the flag on a packet command.
- **A failing random number generator strands a queued request.** The first caller of the asynchronous
  chain-IV generator releases the bit without looking at the queue (`Stranded`, `QuietLeftIff`), and later
  callers are served from an IV that was never seeded (`ServedUnseeded`, `SeededIff`).
- **A payload of exactly 256^L bytes passes `set_msg_len`.** Its length field wraps to zero, so it is
  formatted like an empty payload followed by the data (`TooLong`, `PrefixFreeIff`).
- **A second completion of no bytes is not always nothing.** It ends a bio without data that the first
  one left in front (`NoBytesEndEmptyBio`, `CompleteTwice`, `EndTwice`).
- **The anticipatory scheduler's next request is not the best one when requests overlap**
  (`OverlapMisleads`, `DispatchBestIff`), nor after some front merges, as its comment admits
  (`UnluckyFrontMerge`, `StepKeepsIff`). A front merge onto the sector of the only other request leaves
  none cached, and a forced dispatch then finds nothing (`FrontMergeLosesNext`, `FrontMergedCachedIff`).
- **A CFQ queue that preempts is not always served next,** as the comment at
  `kernel/2.6.29/block/cfq-iosched.c:1862-1865` has it. A real-time queue stays first when a queue of
  another class preempts it (`RealTimeStays`), an idle queue can preempt, for a used slice is looked at
  before its class, and goes to the back (`IdleGoesLast`), and of two that preempt the earlier one with
  key 0 is first (`KeyZeroFirst`). `PreemptFirstIff` and `PreemptingNextIff` say exactly when it is.
- **`writes_starved` is compared as an unsigned number,** so the negative values its attribute accepts are
  bounds of more than two thousand million (`NegativeStarves`, `WriteServedIff`).
- **A number in an instance name with a zero in front is octal,** and one of more than 32 bits is cut
  (`OctalLost`, `NumberKeptIff`).

## Model

| member | source | states |
|---|---|---|
| BarrierTheorems.OrderingHolds | kernel/2.6.29/block/blk-barrier.c:91-283 | Over every run of submit, dispatch, fetch, dequeue, complete, partial bar error and requeue on a draining queue, each event obeys the ordering: the pre-flush is issued only after all file-system requests queued before the barrier ended, the proxy only after the pre-flush, the post-flush only after the proxy, later requests only after the barrier; every request is held in exactly one place or has ended; no BUG_ON and no sequence warning is met |
| BarrierTheorems.EndsOnce | kernel/2.6.29/block/blk-barrier.c:91-113 | In every run no request, and so no barrier, ends twice |
| BarrierTheorems.EarlierEnded | kernel/2.6.29/block/blk-barrier.c:91-126 | When a barrier ends, every file-system request queued before it has ended, and it carries the first error its stages reported |
| BarrierTheorems.LaterWait | kernel/2.6.29/block/blk-barrier.c:238-283 | No file-system request queued after a barrier reaches the driver before that barrier has ended |
| BarrierTheorems.NeverWedged | kernel/2.6.29/block/blk-barrier.c:238-283 | In every reachable state with a sequence in progress and nothing at the driver, the queue has a request to hand out |
| BarrierTheorems.PendingStage | kernel/2.6.29/block/blk-barrier.c:62-89 | Once drained, the proxy of the current stage is at the head and may go, so the stages follow one another |
| BarrierTheorems.RequeueColour | kernel/2.6.29/block/elevator.c:559-574 | A file-system request requeued during a sequence carries the colour of the barrier and was queued before it |
| BarrierTheorems.StepSound | kernel/2.6.29/block/elevator.c:590-686 | Every enabled step keeps the invariant from which the ordering follows |
| BarrierTheorems.RunSound | kernel/2.6.29/block/elevator.c:590-686 | So does every run |
| BarrierTheorems.StepSoundIff | kernel/2.6.29/block/elevator.c:688-701 | One step keeps the invariant if and only if it does not queue a request that is marked a hard barrier without being a file-system request |
| BarrierTheorems.RunSoundIff | kernel/2.6.29/block/elevator.c:688-701 | A run keeps it at every point if and only if none of its steps queues such a request |
| BarrierTheorems.DisorderNeedsCommand | kernel/2.6.29/block/elevator.c:688-701 | A given run warns, meets a BUG_ON, breaks the ordering or loses a request only if one of its steps queued such a request |
| BarrierTheorems.LateWriteIssued | kernel/2.6.29/block/elevator.c:688-701 | A run with such a request: the warning fires and a write queued after the barrier is issued before the barrier ends |
| BarrierTheorems.OneColourBitIff | kernel/2.6.29/block/elevator.c:688-701 | The warning stays silent in every run of every draining queue if and only if nobody marks such requests |
| BarrierFetch.OneColourBit | kernel/2.6.29/block/blk-barrier.c:62-89 | During a sequence a file-system request at the head of the list carries the colour of the barrier exactly if it was queued before it, even with further barriers waiting |
| BarrierFetch.HeadEpoch | kernel/2.6.29/block/blk-barrier.c:62-89 | A file-system request at the head of the list has passed no pending barrier |
| BarrierFetch.MidSequence | kernel/2.6.29/block/blk-barrier.c:238-283 | The comparison with the current stage never finds a request of an earlier stage |
| BarrierFetch.StartOrderedKeeps | kernel/2.6.29/block/blk-barrier.c:156-236 | Starting a sequence, with all the stages that are skipped for the mode and for an empty barrier, keeps the invariant |
| BarrierFetch.PendingBarrier | kernel/2.6.29/block/elevator.c:590-686 | A barrier that was not taken yet is in the dispatch list |
| BarrierSequence.CompleteSeqKeeps | kernel/2.6.29/block/blk-barrier.c:91-113 | Completing the current stages keeps the invariant, and ends the barrier exactly when all are done |
| BarrierSequence.EndOriginalKeeps | kernel/2.6.29/block/blk-barrier.c:108-113 | Ending the stashed barrier keeps the invariant and leaves the queue idle |
| BarrierSteps.CompleteOriginalKeeps | kernel/2.6.29/block/elevator.c:922-952 | A completion that empties the driver ends the drain stage, and only when no request of the barrier's epoch is left |
| BarrierSteps.CompleteStageKeeps | kernel/2.6.29/block/blk-barrier.c:116-132 | The end of a flush or of the proxy completes its stage with its error |
| BarrierSteps.MarkStartedKeeps | kernel/2.6.29/block/elevator.c:753-790 | Handing a request to the driver is always allowed by the ordering |
| BarrierSteps.BarErrorKeeps | kernel/2.6.29/block/blk-core.c:140-177 | A partial error of the proxy is recorded as the sequence's error |
| BarrierQueueing.RequeueKeeps | kernel/2.6.29/block/elevator.c:643-671 | Requeueing during a sequence keeps the invariant |
| BarrierQueueing.RequeuePlaces | kernel/2.6.29/block/elevator.c:643-671 | The place found for a requeued request keeps the list in the order of the stages |
| BarrierQueueing.DispatchKeeps | kernel/2.6.29/block/elevator.c:437-473 | A sorted dispatch that passes no barrier and no started request keeps the invariant |
| BarrierQueueing.DrainKeeps | kernel/2.6.29/block/elevator.c:576-588 | So does draining the scheduler before a barrier is queued |
| BarrierArrival.AddRequestKeeps | kernel/2.6.29/block/elevator.c:688-723 | Queueing a request at the front, in the back or with the scheduler, with the colour it is given, keeps the invariant |
| BarrierModel.DroppedHead | kernel/2.6.29/block/elevator.c:737-751 | A barrier that is refused or over at once leaves the list shorter, so looking for a request ends |
| BarrierQueue.RequestQueue.constructor | kernel/2.6.29/block/blk-barrier.c:24-49 | An idle queue in a mode |
| BarrierQueue.RequestQueue.CompleteOrdered | kernel/2.6.29/block/blk-barrier.c:91-113 | The in-place update equals the specification the invariant is proved about |
| BarrierQueue.RequestQueue.EndStashed | kernel/2.6.29/block/blk-barrier.c:108-113 | The stashed barrier ends with the recorded error, and the sequence is reset |
| BarrierQueue.RequestQueue.OrderedReqSeq | kernel/2.6.29/block/blk-barrier.c:62-89 | The stage of a request equals the specification |
| BarrierQueue.RequestQueue.CompletedRequest | kernel/2.6.29/block/elevator.c:922-952 | Completion with the drain check equals the specification |
| BarrierQueue.RequestQueue.Start | kernel/2.6.29/block/blk-barrier.c:156-236 | start_ordered equals the specification: result, list, stages skipped |
| BarrierQueue.RequestQueue.OrderHead | kernel/2.6.29/block/blk-barrier.c:238-283 | blk_do_ordered equals the specification, including the refusal when barriers are not supported |
| BarrierQueue.RequestQueue.NextRequest | kernel/2.6.29/block/elevator.c:737-751 | The loop hands out what the specification says and marks it started |
| BarrierQueue.RequestQueue.DequeueRequest | kernel/2.6.29/block/elevator.c:832-846 | The dequeued request counts as in flight if it is accounted |
| BarrierQueue.RequestQueue.EndRequest | kernel/2.6.29/block/blk-core.c:1829-1852 | The end of each kind of request equals the specification |
| BarrierQueue.RequestQueue.RequeueRequest | kernel/2.6.29/block/elevator.c:559-574 | Requeueing equals the specification |
| BarrierQueue.RequestQueue.ScanPos | kernel/2.6.29/block/elevator.c:663-669 | The scan finds the first place whose stage is not below the request's |
| BarrierQueue.RequestQueue.DrainElevator | kernel/2.6.29/block/elevator.c:576-588 | Draining appends what the scheduler dispatches |
| BarrierQueue.RequestQueue.AddElvRequest | kernel/2.6.29/block/elevator.c:688-723 | Colouring and inserting equal the specification |
| BarrierQueue.RequestQueue.ColorRequest | kernel/2.6.29/block/elevator.c:688-701 | The colour of the request and the toggle after a hard barrier |
| BarrierQueue.RequestQueue.InsertRequest | kernel/2.6.29/block/elevator.c:590-686 | The three insertion points |
| SegmentModel.GreedyOk | kernel/2.6.29/block/blk-merge.c:41-98 | The greedy pass cuts the bvecs into parts that each obey the segment limits, losing none |
| SegmentModel.GreedyMinimal | kernel/2.6.29/block/blk-merge.c:41-98 | No valid cut of the same bvecs has fewer parts than the greedy one, and with as many parts its last part is no smaller than the greedy one's |
| SegmentModel.GlueOk | kernel/2.6.29/block/blk-merge.c:301-339 | Two valid cuts joined at a contiguous boundary are a valid cut of both, with the outer sizes the code keeps |
| SegmentModel.EntriesCover | kernel/2.6.29/block/blk-merge.c:147-199 | The entries made from a valid cut cover exactly the bytes of the bvecs, in order |
| SegmentModel.EntryInWindow | kernel/2.6.29/block/blk-merge.c:147-199 | An entry of several bvecs stays within the maximum size and one boundary window |
| SegmentMerge.CountSegments | kernel/2.6.29/block/blk-merge.c:41-98 | The loop yields the number of parts of the greedy cut and raises the outer sizes to its first and last part |
| SegmentMerge.CountBio | kernel/2.6.29/block/blk-merge.c:50-80 | The inner loop extends the greedy cut by the bvecs of one bio |
| SegmentMerge.Recount | kernel/2.6.29/block/blk-merge.c:105-113 | The count cached in a bio is that of its own greedy cut |
| SegmentMerge.PhysSegments | kernel/2.6.29/block/blk-merge.c:105-113 | A bio is counted once |
| SegmentMerge.Request.NewSegment | kernel/2.6.29/block/blk-merge.c:230-250 | The segment count grows by the bio's, or the request is closed to merging |
| SegmentMerge.Request.BackMerge | kernel/2.6.29/block/blk-merge.c:252-274 | A back merge keeps the request valid: sectors tiled, segment count that of some valid cut whose outer parts fit the cached sizes |
| SegmentMerge.Request.FrontMerge | kernel/2.6.29/block/blk-merge.c:276-299 | A front merge does, too |
| SegmentMerge.Request.MergeFn | kernel/2.6.29/block/blk-merge.c:301-339 | The limits checked for joining two requests, and the count after it |
| SegmentMerge.Request.AttemptMerge | kernel/2.6.29/block/blk-merge.c:344-408 | Joining two requests keeps the request valid and appends the other's bios; the cases in which it is refused are those of the code |
| SegmentMerge.Request.RecalcSegments | kernel/2.6.29/block/blk-merge.c:100-103 | Counting anew makes a chain that was cut short a valid request, its count that of the greedy cut |
| SegmentMerge.Rest | kernel/2.6.29/block/blk-core.c:1762-1795 | The bvecs behind the first n bytes hold exactly the bytes behind them |
| SegmentMerge.Request.Advance | kernel/2.6.29/block/blk-core.c:1798-1810 | After whole bios and some sectors of the next are done, the request holds exactly the bytes behind them, its sectors follow, and the new count makes it valid |
| SegmentMerge.Request.MapSg | kernel/2.6.29/block/blk-merge.c:147-199 | The scatterlist has at most nr_phys_segments entries and covers the bytes of the request in order |
| SegmentMerge.Request.constructor | kernel/2.6.29/block/blk-core.c:1097-1138 | A request made from one bio is valid |
| MergeHash.ScanBucket | kernel/2.6.29/block/elevator.c:354-374 | Searching the bucket of a sector finds what a scan of all hashed requests finds |
| MergeHash.ScanIs | kernel/2.6.29/block/elevator.c:354-374 | The scan finds a mergeable request that ends at the sector, if there is one |
| MergeHash.Elevator.HashDel | kernel/2.6.29/block/elevator.c:329-338 | A request leaves its bucket even after its end has moved |
| MergeHash.Elevator.HashAdd | kernel/2.6.29/block/elevator.c:340-346 | A request is hashed by its end |
| MergeHash.Elevator.Reposition | kernel/2.6.29/block/elevator.c:348-352 | After its end has moved, a request is in the bucket of its new end |
| MergeHash.Elevator.Find | kernel/2.6.29/block/elevator.c:354-374 | A lookup equals the linear scan, and unhashes only requests that are not mergeable |
| MergeHash.Elevator.Insert | kernel/2.6.29/block/elevator.c:590-641 | A mergeable request is hashed when the scheduler takes it |
| MergeHash.Elevator.Dispatch | kernel/2.6.29/block/elevator.c:437-493 | A dispatched request is unhashed and no longer the one-hit cache |
| MergeHash.Elevator.BackMerged | kernel/2.6.29/block/elevator.c:531-542 | A back merge rehashes the request |
| MergeHash.Elevator.FrontMerged | kernel/2.6.29/block/elevator.c:531-542 | A front merge leaves it where it is, rightly |
| MergeHash.Elevator.MergeRequests | kernel/2.6.29/block/elevator.c:544-557 | The joined request is hashed by the end of the absorbed one, which is gone |
| MergeHash.Elevator.Merge | kernel/2.6.29/block/elevator.c:496-529 | A merge that is found joins the bio to the right end of a request that allows it; none is found only if the latest hashed request that ends there does not |
| MergeTiling.OneHolder | kernel/2.6.29/block/blk-core.c:1163-1211 | In a chain that tiles a stretch, every sector of it lies in exactly one bio and no other does |
| MergeTiling.RequestList.BackMerge | kernel/2.6.29/block/blk-core.c:1163-1183 | The chain of every request tiles its sectors, while it is hashed by its end, after a back merge |
| MergeTiling.RequestList.FrontMerge | kernel/2.6.29/block/blk-core.c:1185-1210 | and after a front merge |
| MergeTiling.RequestList.Absorb | kernel/2.6.29/block/blk-merge.c:344-408 | and after one request has absorbed the next |
| MergeTiling.RequestList.FindFront | kernel/2.6.29/block/elevator.c:412-429 | The request that begins at a sector is found if there is one |
| MergeTiling.RequestList.AttemptBackMerge | kernel/2.6.29/block/blk-merge.c:410-418 | A request is as before or has taken in one that continues it |
| MergeTiling.RequestList.AttemptFrontMerge | kernel/2.6.29/block/blk-merge.c:420-428 | A request is as before or was appended to one it continues |
| MergeTiling.RequestList.Lookup | kernel/2.6.29/block/elevator.c:496-529 | A merge that is found fits the tiling of its request, and no request is changed |
| MergeTiling.RequestList.MakeRequest | kernel/2.6.29/block/blk-core.c:1140-1245 | The tiling of every request is kept; the bio is alone in a request, at the end of one or at the beginning of one, which may then be joined to a neighbour, and nothing else changes |
| MergeTiling.RequestList.Continues | kernel/2.6.29/block/elevator.c:354-374 | A lookup finds a request whose tiling ends at the sector asked for |
| CompletionModel.CompleteRemoves | kernel/2.6.29/block/blk-core.c:1730-1824 | Completing n bytes removes exactly the first min(n, total) bytes of the chain |
| CompletionModel.CompleteEnds | kernel/2.6.29/block/blk-core.c:1730-1824 | Each bio ends once, in order, with the right error, when its last byte goes; exactly when nothing is left |
| CompletionModel.CompleteTwice | kernel/2.6.29/block/blk-core.c:1730-1824 | Completing a and then b is completing a + b if and only if b is positive, nothing is left after a, or the first bio left has data; sector fields included for whole sectors |
| CompletionModel.NoBytesEndEmptyBio | kernel/2.6.29/block/blk-core.c:1730-1824 | A chain on which it is not |
| CompletionModel.DropTwice | kernel/2.6.29/block/blk-core.c:1798-1806 | The bvecs left compose |
| Completion.RecalcTwice | kernel/2.6.29/block/blk-merge.c:12-39 | The sector fields compose |
| Completion.EndTwice | kernel/2.6.29/block/blk-core.c:1730-1824 | Two calls leave a request that is not done exactly as one call does, chain, sector fields and ended bios |
| Completion.Request.BioEndio | kernel/2.6.29/block/blk-core.c:140-177 | A bio shrinks by the bytes done and ends when none is left, with the error kept |
| Completion.Request.RecalcSectors | kernel/2.6.29/block/blk-merge.c:12-39 | The sector fields after some sectors |
| Completion.Request.Walk | kernel/2.6.29/block/blk-core.c:1755-1795 | The loop stops with whole bios ended and part of the next done, as the specification says |
| Completion.Request.AdvanceBio | kernel/2.6.29/block/blk-core.c:1798-1806 | The update of the bio that is done in part |
| Completion.Request.EndFirst | kernel/2.6.29/block/blk-core.c:1730-1824 | The new state equals the specification, and the result says whether anything is left |
| DeadlineSteps.RunKeeps | kernel/2.6.29/block/deadline-iosched.c:76-222 | Over every run of adds, merges, alias moves and dispatches: tree and list hold the same requests per direction with distinct sectors, next_rq is null or a member with at most one direction set, deadlines are in order, nr_sorted is the number held |
| DeadlineSteps.DispatchKeeps | kernel/2.6.29/block/deadline-iosched.c:245-327 | A dispatch moves exactly one request if any is held and none otherwise |
| DeadlineSteps.MergedRequestsKeeps | kernel/2.6.29/block/deadline-iosched.c:170-189 | A request that takes over an earlier deadline also takes its place, so the list stays sorted |
| DeadlineSteps.FrontMergedKeeps | kernel/2.6.29/block/deadline-iosched.c:156-168 | A front merge keeps the indexes |
| DeadlineSteps.AddKeeps | kernel/2.6.29/block/deadline-iosched.c:76-113 | An add keeps them, pushing out whoever is at the sector |
| DeadlineSteps.Chosen | kernel/2.6.29/block/deadline-iosched.c:245-327 | What a dispatch takes is held in the direction it chose, so no BUG_ON is met |
| DeadlineStarvation.StarvationBound | kernel/2.6.29/block/deadline-iosched.c:245-327 | While a write waits, at most max(0, fifo_batch - batching) + max(0, writes_starved - starved) * max(1, fifo_batch) reads are dispatched before it, whatever happens in between |
| DeadlineStarvation.DefaultBound | kernel/2.6.29/block/deadline-iosched.c:350-368 | At most 48 with the default settings |
| DeadlineStarvation.ReadCosts | kernel/2.6.29/block/deadline-iosched.c:245-327 | Each read served uses up one of the allowance |
| DeadlineStarvation.OthersFree | kernel/2.6.29/block/deadline-iosched.c:76-222 | Nothing else changes the allowance |
| DeadlineStarvation.ServesIsServed | kernel/2.6.29/block/deadline-iosched.c:245-327 | The direction the choice names is the direction of the request that goes out |
| DeadlineStarvation.WriteServedIff | kernel/2.6.29/block/deadline-iosched.c:266-282 | A waiting write is served first if and only if it was passed writes_starved times, read as an unsigned number |
| DeadlineScheduler.Scheduler.AddRequest | kernel/2.6.29/block/deadline-iosched.c:100-113 | Equals the specification |
| DeadlineScheduler.Scheduler.AddRqRb | kernel/2.6.29/block/deadline-iosched.c:76-84 | The alias loop equals the specification |
| DeadlineScheduler.Scheduler.RemoveRequest | kernel/2.6.29/block/deadline-iosched.c:86-124 | Equals the specification, next_rq included |
| DeadlineScheduler.Scheduler.Move | kernel/2.6.29/block/deadline-iosched.c:194-222 | Equals the specification |
| DeadlineScheduler.Scheduler.MergedRequest | kernel/2.6.29/block/deadline-iosched.c:156-168 | Equals the specification |
| DeadlineScheduler.Scheduler.MergeRequests | kernel/2.6.29/block/deadline-iosched.c:170-189 | Equals the specification |
| DeadlineScheduler.Scheduler.CheckFifo | kernel/2.6.29/block/deadline-iosched.c:228-239 | Whether the oldest request is due |
| DeadlineScheduler.Scheduler.DispatchRequests | kernel/2.6.29/block/deadline-iosched.c:245-327 | Equals the specification; the BUG_ONs cannot fire |
| DeadlineScheduler.Scheduler.Drain | kernel/2.6.29/block/elevator.c:576-588 | Dispatching until nothing comes ends and leaves nothing, with every request moved out |
| AnticipatoryChoice.NextIsBest | kernel/2.6.29/block/as-iosched.c:296-394 | In every state reached by adds of non-overlapping requests, dispatches, back, request and harmless front merges, the cached next request is the one as_choose_req prefers to every other one held |
| AnticipatoryChoice.RunKeeps | kernel/2.6.29/block/as-iosched.c:371-394 | The invariant behind it holds over every such run |
| AnticipatoryChoice.StepKeepsIff | kernel/2.6.29/block/as-iosched.c:1264-1304 | One step keeps it if and only if it is not a front merge that moves a request to a better place, or the cached one to a worse place than its neighbours |
| AnticipatoryChoice.FrontMergedKeepsIff | kernel/2.6.29/block/as-iosched.c:1264-1281 | That case, decided by as_choose_req against as_find_next_rq |
| AnticipatoryChoice.DispatchBest | kernel/2.6.29/block/as-iosched.c:974-1018 | With requests apart, the neighbours suffice |
| AnticipatoryChoice.DispatchBestIff | kernel/2.6.29/block/as-iosched.c:371-394 | For any sorted tree, overlapping or not, the request cached by a dispatch is the best of the rest if and only if neither the second behind it, nor the first, nor the last of the tree is better |
| AnticipatoryChoice.OverlapMisleads | kernel/2.6.29/block/as-iosched.c:371-394 | Three adds of overlapping requests and a dispatch after which it is not the best |
| AnticipatoryChoice.MergedRequestsKeeps | kernel/2.6.29/block/as-iosched.c:1283-1304 | Removing an absorbed request keeps the best one cached |
| AnticipatoryChoice.BackMergedKeeps | kernel/2.6.29/block/blk-core.c:1163-1183 | So does growing a request at its end |
| AnticipatoryChoice.AddCached | kernel/2.6.29/block/as-iosched.c:266-274 | Overlapping or not, an add leaves a next request cached |
| AnticipatoryChoice.FrontMergedCachedIff | kernel/2.6.29/block/as-iosched.c:1264-1281 | A front merge leaves one cached unless the only other request sits at the sector it moves to |
| AnticipatoryScheduler.Direction.FindNextRq | kernel/2.6.29/block/as-iosched.c:371-394 | Equals the specification |
| AnticipatoryScheduler.Direction.RemoveQueuedRequest | kernel/2.6.29/block/as-iosched.c:899-923 | Equals the specification |
| AnticipatoryScheduler.Direction.Move | kernel/2.6.29/block/as-iosched.c:974-1018 | Equals the specification |
| AnticipatoryScheduler.Direction.AddRqRb | kernel/2.6.29/block/as-iosched.c:266-274 | The alias loop equals the specification |
| AnticipatoryScheduler.Direction.AddRequest | kernel/2.6.29/block/as-iosched.c:1187-1213 | Equals the specification |
| AnticipatoryScheduler.Direction.MergedRequest | kernel/2.6.29/block/as-iosched.c:1264-1281 | Equals the specification |
| AnticipatoryScheduler.Direction.ForceDispatch | kernel/2.6.29/block/as-iosched.c:1032-1059 | With a next request cached, every request held goes out once |
| CfqTree.FirstIsMin | kernel/2.6.29/block/cfq-iosched.c:412-421 | The cached leftmost pointer yields a busy queue that none is ahead of by (real time first, idle last, key) |
| CfqTree.ServiceAddOk | kernel/2.6.29/block/cfq-iosched.c:474-546 | Inserting or moving a queue keeps the tree sorted and the cache right, although only a walk that never went right sets it |
| CfqTree.ServiceAddFirst | kernel/2.6.29/block/cfq-iosched.c:474-546 | A queue that gets a new key comes first if and only if it was first and the key is the old one, or it is ahead of every other with the new key |
| CfqSteps.PreemptFirstIff | kernel/2.6.29/block/cfq-iosched.c:1857-1872 | For any busy queue, idle class and key 0 included: the queue that preempts is the one selected next if and only if, with the active queue back in the tree, it comes first with the key it gets; the comment promises it always |
| CfqRuns.PreemptingNextIff | kernel/2.6.29/block/cfq-iosched.c:1878-1931 | The same of the call that inserts a request and makes its queue preempt |
| CfqRuns.RealTimeStays | kernel/2.6.29/block/cfq-iosched.c:1801-1872 | A run from an empty scheduler in which a queue of reads preempts a real-time queue of writes, which is selected again |
| CfqRuns.IdleGoesLast | kernel/2.6.29/block/cfq-iosched.c:1801-1872 | It goes on so that an idle queue preempts a queue whose slice is used up, for the slice is looked at before the class, and goes behind all others |
| CfqRuns.KeyZeroFirst | kernel/2.6.29/block/cfq-iosched.c:1801-1872 | and so that a queue preempts an empty one but goes behind an earlier preempter with key 0 |
| CfqRuns.RunKeeps | kernel/2.6.29/block/cfq-iosched.c:1149-1184 | Over every run of new queues, insertions, merges, selections, dispatches, expiries and completions all indexes and counts agree, no BUG_ON is met, and every request that came was dispatched, was merged into another or is queued and counted |
| CfqRuns.StepKeeps | kernel/2.6.29/block/cfq-iosched.c:1918-1931 | Each step does |
| CfqTree.AddRrOk | kernel/2.6.29/block/cfq-iosched.c:564-574 | busy_queues and busy_rt_queues count the queues in the tree when one is added |
| CfqTree.DelRrOk | kernel/2.6.29/block/cfq-iosched.c:580-593 | and when one is taken out, and no BUG_ON is met |
| CfqQueues.RemoveKeeps | kernel/2.6.29/block/cfq-iosched.c:687-702 | Removing a request keeps every index of every queue, takes a queue without requests out of the tree and meets no BUG_ON |
| CfqSteps.InsertKeeps | kernel/2.6.29/block/cfq-iosched.c:1918-1931 | Inserting a request keeps them, and conserves requests when an alias is pushed out |
| CfqSteps.FrontKeeps | kernel/2.6.29/block/cfq-iosched.c:719-727 | Repositioning after a front merge keeps them, also when it empties the tree in between |
| CfqSteps.MergedKeeps | kernel/2.6.29/block/cfq-iosched.c:729-741 | Absorbing a request keeps them |
| CfqSteps.BackKeeps | kernel/2.6.29/block/blk-core.c:1163-1183 | Growing a request keeps them |
| CfqSteps.ExpireKeeps | kernel/2.6.29/block/cfq-iosched.c:789-826 | Expiring a slice keeps them |
| CfqSteps.PreemptKeeps | kernel/2.6.29/block/cfq-iosched.c:1857-1872 | Preempting keeps them and meets no BUG_ON |
| CfqSteps.EnqueueKeeps | kernel/2.6.29/block/cfq-iosched.c:1878-1931 | Inserting a request, with or without preempting, keeps them and loses none |
| CfqSteps.CompletedKeeps | kernel/2.6.29/block/cfq-iosched.c:1958-2001 | A completion, with or without expiring the active queue, keeps them |
| CfqSteps.SetActiveKeeps | kernel/2.6.29/block/cfq-iosched.c:832-851 | The queue made active is busy and none in the tree is ahead of it |
| CfqSteps.SelectKeeps | kernel/2.6.29/block/cfq-iosched.c:1002-1054 | The queue selected has requests; it is the active one, if its slice is not used and it is real-time or no real-time queue is busy, or one none is ahead of; none is selected only if none is busy or the active one waits |
| CfqSteps.RealTimeFirst | kernel/2.6.29/block/cfq-iosched.c:1016-1027 | While a real-time queue is busy, only real-time queues are selected or waited for |
| CfqScheduler.CfqData.RbFirst | kernel/2.6.29/block/cfq-iosched.c:412-421 | Equals the specification |
| CfqScheduler.CfqData.RbErase | kernel/2.6.29/block/cfq-iosched.c:423-430 | Equals the specification |
| CfqScheduler.CfqData.ServiceTreeAdd | kernel/2.6.29/block/cfq-iosched.c:474-546 | Equals the specification |
| CfqScheduler.CfqData.AddCfqqRr | kernel/2.6.29/block/cfq-iosched.c:564-574 | Equals the specification |
| CfqScheduler.CfqData.DelCfqqRr | kernel/2.6.29/block/cfq-iosched.c:580-593 | Equals the specification |
| CfqScheduler.CfqData.RemoveRequest | kernel/2.6.29/block/cfq-iosched.c:687-702 | Equals the specification |
| CfqScheduler.CfqData.AddRequest | kernel/2.6.29/block/cfq-iosched.c:613-636 | Equals the specification; the loop pushes out at most one alias |
| CfqScheduler.CfqData.InsertRq | kernel/2.6.29/block/cfq-iosched.c:1878-1931 | Equals the specification, with the decision to preempt, and keeps the invariant |
| CfqScheduler.CfqData.FrontMerge | kernel/2.6.29/block/cfq-iosched.c:638-643 | Equals the specification and keeps the invariant |
| CfqScheduler.CfqData.MergeRequests | kernel/2.6.29/block/cfq-iosched.c:729-741 | Equals the specification and keeps the invariant |
| CfqScheduler.CfqData.PreemptQueue | kernel/2.6.29/block/cfq-iosched.c:1857-1872 | Equals the specification and keeps the invariant |
| CfqScheduler.CfqData.AddAndList | kernel/2.6.29/block/cfq-iosched.c:1918-1931 | The part without preemption |
| CfqScheduler.CfqData.Expire | kernel/2.6.29/block/cfq-iosched.c:789-826 | Equals the specification and keeps the invariant |
| CfqScheduler.CfqData.Dispatch | kernel/2.6.29/block/cfq-iosched.c:946-959 | Equals the specification, the counts of requests in flight included |
| CfqScheduler.CfqData.CompletedRequest | kernel/2.6.29/block/cfq-iosched.c:1958-2001 | Equals the specification and keeps the invariant |
| CfqScheduler.CfqData.SetActiveQueue | kernel/2.6.29/block/cfq-iosched.c:832-851 | Equals the specification |
| CfqScheduler.CfqData.SelectQueue | kernel/2.6.29/block/cfq-iosched.c:1002-1054 | State and result equal the specification, for whatever times say |
| CfqScheduler.CfqData.DispatchNext | kernel/2.6.29/block/cfq-iosched.c:964-985 | The request that goes out is the oldest or the cached one of the queue |
| CfqScheduler.CfqData.DispatchSome | kernel/2.6.29/block/cfq-iosched.c:1060-1099 | Only requests of the queue go out, at least one and at most max_dispatch, and fewer only if none is left or a real-time queue waits |
| CfqScheduler.CfqData.DispatchFrom | kernel/2.6.29/block/cfq-iosched.c:1060-1114 | The same, and the active queue expires exactly if others are busy and it is idle or asynchronous with its share used |
| CfqScheduler.CfqData.NextQueue | kernel/2.6.29/block/cfq-iosched.c:1002-1054 | The active queue is one that may dispatch, or nothing is left or it waits for a request |
| CfqScheduler.CfqData.ForcedDispatchQueue | kernel/2.6.29/block/cfq-iosched.c:1116-1127 | Every request of a queue goes out and the BUG_ON is not met |
| CfqScheduler.CfqData.ForcedDispatch | kernel/2.6.29/block/cfq-iosched.c:1133-1147 | Every request of every queue goes out, once, and the BUG_ON is not met |
| CfqScheduler.CfqData.DispatchRequests | kernel/2.6.29/block/cfq-iosched.c:1149-1184 | By force everything goes out; otherwise the loop ends only when nothing is left, the active queue waits for a request, has enough in flight while others are busy, or is asynchronous with synchronous requests in flight; requests are conserved and every index is kept |
| AnticipatoryChoice.UnluckyFrontMerge | kernel/2.6.29/block/as-iosched.c:1264-1281 | A run from the start, two requests added after one was dispatched, and a front merge of the cached one after which the other would be better |
| AnticipatoryChoice.FrontMergeLosesNext | kernel/2.6.29/block/as-iosched.c:1264-1281 | A run from the start and a front merge after which no request is cached although one is held |
| DeadlineStarvation.NegativeStarves | kernel/2.6.29/block/deadline-iosched.c:266-282 | With the setting -1 a write passed a million times waits on |
| NameRoundTrip.OctalLost | kernel/2.6.29/crypto/algboss.c:155-161 | The argument 010 becomes 8 |
| CamelliaFast.SPIs | kernel/2.6.29/crypto/camellia.c:359-376 | The combined tables compute S and P of RFC 3713 |
| CamelliaFast.RoundSmIs | kernel/2.6.29/crypto/camellia.c:869-884 | A fast round adds S and P of its input and what its key contributes |
| CamelliaFast.HalfUndo | kernel/2.6.29/crypto/camellia.c:561-577 | Applying the inverse of the last half of P to a key undoes what a round does to it |
| CamelliaCipher.EncryptsAsPublished | kernel/2.6.29/crypto/camellia.c:887-915 | With a table related to the subkeys as camellia_setup_tail leaves it, encryption is the cipher of sections 2.3 and 2.4 of RFC 3713 |
| CamelliaCipher.DecryptUndoes | kernel/2.6.29/crypto/camellia.c:942-970 | For any table, decryption undoes encryption |
| CamelliaCode.AbsorbKw2 | kernel/2.6.29/crypto/camellia.c:387-415 | Every round key that sees kw2, and kw3, holds the sum with what kw2 has become at its place; kw1, kw4, the other round keys and the layer keys are as before |
| CamelliaCode.AbsorbKw4 | kernel/2.6.29/crypto/camellia.c:416-469 | and every round key that sees kw4, and kw1, that with what kw4 has become, seen from the other end |
| CamelliaCode.MoveAllKeys | kernel/2.6.29/crypto/camellia.c:470-560 | Keys are moved to the end of F |
| CamelliaCode.InvertHalf | kernel/2.6.29/crypto/camellia.c:561-577 | Half of P is undone in every round key |
| CamelliaCode.SetupTail | kernel/2.6.29/crypto/camellia.c:381-578 | The table left in place makes the fast form the published cipher, for arbitrary subkeys |
| CamelliaCode.FLS | kernel/2.6.29/crypto/camellia.c:854-867 | The layer between groups of rounds |
| CamelliaCode.DoEncrypt | kernel/2.6.29/crypto/camellia.c:887-915 | Equals the specification of the fast form |
| CamelliaCode.DoDecrypt | kernel/2.6.29/crypto/camellia.c:942-970 | Equals its inverse |
| CamelliaCode.EncryptThenDecrypt | kernel/2.6.29/crypto/camellia.c:1033-1079 | Encrypting gives the published cipher text and decrypting gives the block back |
| AesColumns.MixIsMixColumn | kernel/2.6.29/crypto/aes_generic.c:1295-1322 | The table entries built by rotating one table are MixColumns of section 5.1.3 of FIPS 197 |
| AesColumns.IMixIsInvMixColumn | kernel/2.6.29/crypto/aes_generic.c:1128-1139 | imix_col is the inverse matrix of section 5.3.3 |
| AesColumns.IMixMix | kernel/2.6.29/crypto/aes_generic.c:1128-1139 | imix_col undoes MixColumns |
| AesCipher.DecryptUndoes | kernel/2.6.29/crypto/aes_generic.c:1396-1435 | With a reversed schedule whose inner keys went through imix_col, the equivalent inverse cipher of section 5.3.5 undoes the cipher |
| AesCipher.InvRoundsAre | kernel/2.6.29/crypto/aes_generic.c:1396-1435 | Its rounds pass through the states of encryption in reverse |
| AesCipher.TablesAre | kernel/2.6.29/crypto/aes_generic.c:1295-1322 | A table round is SubBytes, ShiftRows and MixColumns |
| AesCipher.InverseTablesAre | kernel/2.6.29/crypto/aes_generic.c:1367-1394 | An inverse table round is their inverses |
| AesCode.ExpandGroup | kernel/2.6.29/crypto/aes_generic.c:1141-1210 | One group of words of the schedule |
| AesCode.ExpandKey | kernel/2.6.29/crypto/aes_generic.c:1212-1263 | For every key length the schedules are those of section 5.2, and the decryption schedule is the reversed one |
| AesCode.ReverseKey | kernel/2.6.29/crypto/aes_generic.c:1253-1261 | The reversal with imix_col, in place |
| AesCode.FNround | kernel/2.6.29/crypto/aes_generic.c:1295-1308 | A round |
| AesCode.INround | kernel/2.6.29/crypto/aes_generic.c:1367-1382 | An inverse round |
| AesCode.Encrypt | kernel/2.6.29/crypto/aes_generic.c:1324-1363 | aes_encrypt is the published cipher |
| AesCode.Decrypt | kernel/2.6.29/crypto/aes_generic.c:1396-1435 | aes_decrypt is the equivalent inverse cipher |
| AesCode.EncryptThenDecrypt | kernel/2.6.29/crypto/aes_generic.c:1212-1435 | For every key size, key and block, encrypting and decrypting gives the block back |
| ChainIvTheorems.ChainHolds | kernel/2.6.29/crypto/chainiv.c:122-261 | For any number of callers and the worker, interleaved at each operation, whether the random numbers fail or not: at most one owner, none while work is queued, no work queued twice, every request in exactly one place, every IV the one the request before left |
| ChainIvTheorems.QuietIsEmpty | kernel/2.6.29/crypto/chainiv.c:275-282 | If random numbers do not fail, when nobody is under way the queue is empty, the bit clear, every request served or refused, and each caller has its own request's error |
| ChainIvTheorems.QuietState | kernel/2.6.29/crypto/chainiv.c:275-282 | This follows from the invariant |
| ChainIvTheorems.MoveKeepsIff | kernel/2.6.29/crypto/chainiv.c:207-232 | One operation keeps everything if and only if it is not a first caller giving up on a random number error with requests queued and nobody else on the way |
| ChainIvTheorems.StepLeft | kernel/2.6.29/crypto/chainiv.c:122-261 | Which steps leave a request behind, and which take it up again |
| ChainIvTheorems.QuietLeftIff | kernel/2.6.29/crypto/chainiv.c:207-232 | A run that ends quiet leaves a request in the queue if and only if its last step is that one |
| ChainIvTheorems.NobodyLeftIff | kernel/2.6.29/crypto/chainiv.c:207-232 | No quiet run leaves one if and only if random numbers cannot fail |
| ChainIvTheorems.Stranded | kernel/2.6.29/crypto/chainiv.c:207-232 | A run that leaves one |
| ChainIvTheorems.SeededIff | kernel/2.6.29/crypto/chainiv.c:207-232 | Every request is served from seeded random numbers if and only if the one call of the generator succeeds or nobody is served |
| ChainIvTheorems.ServedUnseeded | kernel/2.6.29/crypto/chainiv.c:207-232 | A run in which the generator fails and the next caller is served |
| ChainIvProtocol.MoveOneOwner | kernel/2.6.29/crypto/chainiv.c:122-141 | The owner is counted once, so schedule_work never finds the work queued |
| ChainIvProtocol.MoveNobodyWaits | kernel/2.6.29/crypto/chainiv.c:122-158 | While requests are queued and the bit is clear, somebody is on the way, unless the one operation happens |
| ChainIvProtocol.MoveChain | kernel/2.6.29/crypto/chainiv.c:160-178 | Only the owner changes the IV, and what a caller remembers of it stays true |
| ChainIvProtocol.MoveConserves | kernel/2.6.29/crypto/chainiv.c:143-261 | No operation loses or makes a request |
| CryptoQueue.RequestList.Enqueue | kernel/2.6.29/crypto/algapi.c:674-692 | First in, first out; EBUSY beyond the bound, where only a request that may wait on the backlog is queued |
| CryptoQueue.RequestList.Next | kernel/2.6.29/crypto/algapi.c:695-711 | The first request of the backlog |
| CryptoQueue.RequestList.Dequeue | kernel/2.6.29/crypto/algapi.c:695-711 | The oldest request, the backlog moving up by one |
| CryptoQueue.AdmitAsQueue | kernel/2.6.29/crypto/algapi.c:674-692 | The queue step of the protocol is this enqueue |
| CbcModel.DecryptUndoes | kernel/2.6.29/crypto/cbc.c:42-167 | CBC decryption of section 6.2 of NIST SP 800-38A undoes encryption |
| CbcModel.EncryptConcat | kernel/2.6.29/crypto/cbc.c:90-112 | Stretches encrypted one after the other are encrypted as one |
| CbcModel.DecryptConcat | kernel/2.6.29/crypto/cbc.c:169-191 | and decrypted likewise |
| CbcWalk.OutConcat | kernel/2.6.29/crypto/cbc.c:90-191 | With the chaining value carried along, in either direction |
| CbcSegments.XorInto | kernel/2.6.29/crypto/algapi.c:762-771 | Exclusive or in place |
| CbcSegments.EncryptSegment | kernel/2.6.29/crypto/cbc.c:42-64 | Textbook CBC out of place, the chaining value left for the next piece |
| CbcSegments.EncryptInplace | kernel/2.6.29/crypto/cbc.c:66-88 | Textbook CBC in place |
| CbcSegments.DecryptSegment | kernel/2.6.29/crypto/cbc.c:114-138 | Textbook CBC out of place |
| CbcSegments.DecryptInplace | kernel/2.6.29/crypto/cbc.c:140-167 | The backward loop computes textbook CBC although it overwrites what it chains from |
| CbcWalk.WalkNext | kernel/2.6.29/crypto/blkcipher.c:224-276 | A piece has at least a block, at most what is left and, unless it is one block through buffers, at most what lies together in both memories; it goes through a page of its own exactly if it is not aligned |
| CbcWalk.Piece | kernel/2.6.29/crypto/blkcipher.c:103-144 | Whatever way a piece is reached, its whole blocks are chained and less than a block is left over |
| CbcWalk.OnCopy | kernel/2.6.29/crypto/blkcipher.c:84-101 | Through a page of its own |
| CbcWalk.OnBuffers | kernel/2.6.29/crypto/blkcipher.c:71-82 | Through two buffers for a block that straddles pages |
| CbcWalk.Crypt | kernel/2.6.29/crypto/cbc.c:90-191 | For every way the walk slices the memory the output is the whole blocks chained as one message, the chaining value is left behind, and bytes that make no block are refused at the end; the remaining length decreases |
| CcmModel.PrefixFreeIff | kernel/2.6.29/crypto/ccm.c:58-162 | Of two accepted messages one is formatted as a prefix of the other if and only if the longer is one byte too long for its length field and the shorter is the same without payload |
| CcmModel.PrefixFree | kernel/2.6.29/crypto/ccm.c:123-162 | Within the length field the formatting of section 2.2 of RFC 3610 is injective and prefix-free over nonce, tag size, associated data and payload |
| CcmModel.TooLong | kernel/2.6.29/crypto/ccm.c:58-74 | set_msg_len accepts a payload of exactly 256^L bytes and formats it like an empty one |
| CcmModel.FirstBlockSame | kernel/2.6.29/crypto/ccm.c:123-143 | The first block determines nonce, tag size, presence of associated data and length |
| CcmModel.PrefixRead | kernel/2.6.29/crypto/ccm.c:145-162 | The length prefix of associated data can be read back |
| CcmMac.MacConcat | kernel/2.6.29/crypto/ccm.c:164-201 | Bytes in two pieces are authenticated as if in one |
| CcmMac.MacPadded | kernel/2.6.29/crypto/ccm.c:231-242 | What is left over is padded with zeros |
| CcmMac.Request.ComputeMac | kernel/2.6.29/crypto/ccm.c:164-201 | The running code absorbs a piece, whatever was pending |
| CcmMac.Request.Blocks | kernel/2.6.29/crypto/ccm.c:182-190 | The loop over whole blocks |
| CcmMac.Request.GetDataToCompute | kernel/2.6.29/crypto/ccm.c:203-243 | The code depends on the bytes only, never on how entries and pages cut them |
| CcmMac.Request.WalkList | kernel/2.6.29/crypto/scatterwalk.c:33-73 | The walk visits exactly the bytes asked for |
| CcmTemplate.SetMsgLen | kernel/2.6.29/crypto/ccm.c:58-74 | The length field, and exactly when it is refused |
| CcmTemplate.FormatInput | kernel/2.6.29/crypto/ccm.c:123-143 | The first block |
| CcmTemplate.FormatAdata | kernel/2.6.29/crypto/ccm.c:145-162 | The length prefix |
| CcmTemplate.Auth | kernel/2.6.29/crypto/ccm.c:245-278 | The authentication value of RFC 3610 of the formatted message |
| CcmTemplate.OpensIff | kernel/2.6.29/crypto/ccm.c:302-429 | A cipher text opens to a payload if and only if the payload is sealed as that cipher text |
| CcmCrypt.Encrypt | kernel/2.6.29/crypto/ccm.c:302-353 | Encryption over scatterlists writes what sections 2.3 and 2.4 of RFC 3610 say, or fails with the same error |
| CcmCrypt.Decrypt | kernel/2.6.29/crypto/ccm.c:372-429 | Decryption accepts exactly what the specification opens, and writes the plain text |
| CcmCrypt.Written | kernel/2.6.29/crypto/scatterwalk.c:103-125 | Writing at a position of a scatterlist changes those bytes and no others |
| Registry.AlgorithmList.RemoveSpawns | kernel/2.6.29/crypto/algapi.c:112-129 | Exactly the instances reachable through spawns are marked dead, none of their spawns stays attached, each is removed once, and the worklist that splices into itself ends |
| Registry.AlgorithmList.Pass | kernel/2.6.29/crypto/algapi.c:118-128 | One pass of the worklist |
| Registry.AlgorithmList.Remove | kernel/2.6.29/crypto/algapi.c:84-110 | One spawn |
| Registry.RemoveSpawnProgress | kernel/2.6.29/crypto/algapi.c:84-110 | One spawn more is dealt with |
| Registry.AllReached | kernel/2.6.29/crypto/algapi.c:112-129 | When nothing is left to do, everything reachable is dead |
| Registry.DoneMeansRemoved | kernel/2.6.29/crypto/algapi.c:112-129 | and nothing else is, with every spawn detached |
| NameRoundTrip.ParsePrint | kernel/2.6.29/crypto/algboss.c:108-171 | Parsing a printed name returns its template and its printed arguments, nested to any depth, if and only if there are fewer than CRYPTO_MAX_ATTRS; what follows is not looked at |
| NameRoundTrip.ParsedText | kernel/2.6.29/crypto/algboss.c:108-171 | Whatever is parsed is what the text says |
| NameRoundTrip.ParsePlain | kernel/2.6.29/crypto/algboss.c:108-114 | A plain name is no instance |
| NameRoundTrip.NumberKeptIff | kernel/2.6.29/crypto/algboss.c:155-161 | A number argument printed again gives its text if and only if it fits 32 bits and has no zero in front |
| NameRoundTrip.SkipName | kernel/2.6.29/crypto/algboss.c:129-144 | A printed name is balanced |
| NameParser.SkipId | kernel/2.6.29/crypto/algboss.c:108-109 | A run of name characters |
| NameParser.SkipGroup | kernel/2.6.29/crypto/algboss.c:129-144 | The recursion counter finds the closing parenthesis |
| NameParser.SkipArg | kernel/2.6.29/crypto/algboss.c:120-147 | One argument |
| NameParser.ScheduleProbe | kernel/2.6.29/crypto/algboss.c:92-171 | Equals the specification |
| NameParser.Strtol | kernel/2.6.29/lib/vsprintf.c:54-91 | The number in an unsigned long, cut to 32 bits, equals the specification |
## Left out

- Barriers ordered by tag are modelled only as far as the branches of `blk_do_ordered` go; the ordering is proved for queues that drain.
- Requests are not merged while the barrier protocol runs on them; merging has its own model.
- BarrierQueueing.DispatchKeeps: where a scheduler's dispatch puts a request is any place that passes no barrier, no started request and no discard boundary, of which `elv_dispatch_sort` picks one by sector.
- Plugging, congestion, `prep_rq_fn`, tagged queues, accounting and statistics are not modelled.
- Allocation does not fail; red-black trees are sorted sequences, memory is sequentially consistent and jiffies do not wrap.
- SegmentMerge.Request.MapSg: does not model padding and draining for DMA, which add an entry after the bound is met.
- Sums of sizes in the segment code do not wrap at 32 bits; bounce buffers appear only as the flag that keeps a page in a part of its own.
- MergeTiling.RequestList.MakeRequest: whether the limits of the queue, the flags and the data directions allow a merge or a join is left open, and so is which request that ends in front of a merged one is tried.
- SegmentMerge.Request.Advance: some bytes of a bio are done in whole sectors; the model of completion covers other numbers.
- Completion.Request.EndFirst: a completion of a request's bvecs that overruns its bio's count, which the code reports and stops at, is excluded by the validity of the bio.
- DeadlineSteps.RunKeeps: the expiry settings are constant and time does not go back; `last_sector` is written and never read and is not modelled.
- Anticipation itself is not modelled: timers, think times, seek statistics and the batch switch of the anticipatory scheduler, nor which of the two directions it serves.
- AnticipatoryChoice.NextIsBest: holds of non-overlapping requests and of front merges that are not unlucky; `DispatchBestIff` and `StepKeepsIff` say what happens otherwise.
- CFQ: the service key of a queue that is not idle, whether a slice is used up, whether a queue may idle, whether a request is overdue and whether one is close to the head come from times and priorities and are left open; priority changes of a busy queue are excluded; `meta_pending` is read off the requests held.
- CfqScheduler.CfqData.DispatchRequests: how much an asynchronous queue may dispatch, which follows from its priority, is left open.
- Camellia: the key schedules before `camellia_setup_tail` are left out, the theorem holds of arbitrary subkeys; the S-boxes are four arbitrary byte functions.
- AES: the S-box is an arbitrary byte function with an inverse; the table entries are derived from it as the table generator does.
- `key_enc` is given room for the words the eight-word expansion writes past the 60 that are used.
- Byte order of loads and stores in the ciphers is left out; words are given.
- CBC and CCM work on byte memory; `crypto_xor` works byte by byte; page allocation in the walk succeeds.
- CcmCrypt.Encrypt: the counter mode child is a key stream, one byte per position and counter block, that leaves the nonce in `iv` alone; destinations that partly overlap the source are not modelled.
- CcmCrypt.Decrypt: the same, and completion through a callback is left out.
- ChainIvTheorems.ChainHolds: the encryption of a request is one operation with any result; completion callbacks run outside the protocol.
- Registry.AlgorithmList.RemoveSpawns: models the removal of an algorithm; the type filter of `crypto_remove_spawns` when a better implementation is registered is left out, and so is the stale list head `list_splice` leaves behind, which nothing reads.
- The name parser's lookup of templates, larvals and the probing thread are left out; a byte of the text is a character of Latin-1.
- sysfs, ioctl, tracing, registration, RCU and reference counts, and the smaller ciphers and schedulers would only add easy members.
