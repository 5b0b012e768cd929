# Linux block layer and two ciphers, modelled in Dafny

This project models parts of a Linux 4.9-era kernel: the FLUSH/FUA sequencer, segment counting,
splitting and merging, bio chaining, the CFQ group hierarchy, the blk-mq software-queue hand-off, the
bad-block table, the deadline scheduler, the submission loop, discard tiling, and the AES and ARC4
ciphers. Code that changes fields or arrays step by step is a class or a method with loops. Each such
method is tied to a function on values, and the properties are proved about those functions, for all
inputs, all runs or all reachable states.

`dafny verify dfyconfig.toml` checks the whole project.

## Files

- `BlkFlush.dfy`: the flush sequencer, an independent observer of its event log, and durability over every run
- `Segments.dfy`: the greedy physical segmentation, its minimality, and the loops that compute it
- `ScatterLists.dfy`: the physical bytes a scatter list covers
- `Requests.dfy`: requests under bio merges, request merges, recounts and partial completion
- `RequestRuns.dfy`: every run of these over any number of requests, the segment limit, and the fate of every bio
- `SplitRuns.dfy`: the pieces of a split bio in these runs
- `BioSplit.dfy`: splitting a bio at the queue limits, and the tiling repeated splits give
- `BioChain.dfy`: chained bios and their completion
- `CfqGroups.dfy`: activation, deactivation and weights over a group tree of any depth
- `BlkMq.dfy`: inserters, queue runners and the CPU-dead callback as interleaved steps
- `BadBlocks.dfy`: the packed interval table, call by call
- `BadBlockRuns.dfy`: every run of calls on it against a set of sectors
- `Deadline.dfy`: the deadline scheduler and its bounds on bypassing
- `MakeRequest.dfy`: generic_make_request against a recursive walk
- `Discard.dfy`: discard tiling and discard splitting
- `Aes.dfy`: table-driven AES against FIPS-197
- `Arc4.dfy`: the pipelined ARC4 loop against the textbook generator
- `Common.dfy`: optional values, a maximum and division facts that several modules use

## What became a parameter

- The clock: `now` and `clock` stand for jiffies where blk_kick_flush, flush_end_io and the deadline
  scheduler read it.
- The device and other threads: completions, failures and the outcome of queue_rq are events or
  parameters chosen freely, and every theorem about runs is for every choice.
- BIOVEC_PHYS_MERGEABLE, BIOVEC_SEG_BOUNDARY, bvec_gap_to_prev, blk_max_size_offset and
  blk_rq_get_max_sectors are arbitrary functions in the queue limits. Only `RequestRuns.NarrowInEveryRun`
  asks something of the first two, and `RequestRuns.WithinInEveryRun` of the last;
  `RequestRuns.MacrosAdvance` and `RequestRuns.ChunksRecede` show that the kernel's own definitions meet it.
- make_request_fn is the tree of bios it submits. blk_queue_enter and generic_make_request_checks are
  free booleans of each bio.
- The AES tables are functions that meet their definition from an S-box with an inverse.

## Where the code does not do what it is for

- badblocks_set loses sectors or breaks the order of the table on some calls: it combines with the
  following range as if that one were not swallowed, and it inserts the chunks of a long range at a
  fixed index. `BadBlocks.SetCanLose` is a concrete call. `BadBlocks.SetExact` gives the exact
  condition, `Clean`, for every call of at least one sector.
- badblocks_set without acknowledgement leaves a maximal acknowledged range acknowledged although the
  new range overlaps it. `BadBlocks.UnackedSet` gives the exact condition, `Stuck`.
- blk_mq_hctx_notify_dead is invoked for every hardware queue, also for one that the software queue of
  the dead CPU is not mapped to, and fails there in two ways. Its bit in that queue may belong to another
  software queue, whose requests then lose their mark: `BlkMq.ForeignCallbackHides` builds such a run. Or
  that queue has no software queue at all: then the requests go to its dispatch list, blk_mq_run_hw_queue
  drops the run because the queue is not mapped (block/blk-mq.c:904-906), and they stay there for ever:
  `BlkMq.UnmappedStrands` builds such a run and `BlkMq.StrandedForever` shows that nothing later takes
  them off. `BlkMq.CallbackExact` gives the exact condition: every run keeps every request in sight if and
  only if the device has one hardware queue (or no software queue is mapped).
- blk_bio_segment_split does not count the part of a vector it cuts off in the cached sizes of the piece,
  so they can be too small, both front and back. `BioSplit.CutCanMisreport` is a concrete bio.
  `BioSplit.CutCaches` gives the exact condition: they are sound if and only if that part is no longer
  than the last segment before it. blk_queue_split marks the piece REQ_NOMERGE, and
  `RequestRuns.EveryRequestFits` shows that this is enough.

## Model

| member | source | states |
|---|---|---|
| `BlkFlush.CurSeq` | block/blk-flush.c:115-118 | DONE exactly when all steps are done, otherwise the first one that is not |
| `BlkFlush.KickKeeps` | block/blk-flush.c:291-338 | issuing or deferring the flush keeps the invariant, also inside the completion loop, and leaves no stall |
| `BlkFlush.AdvanceKeeps` | block/blk-flush.c:167-219 | beginning the next step puts a detached request on the one list its step needs |
| `BlkFlush.CompleteKeeps` | block/blk-flush.c:167-219 | completing steps of one request keeps the invariant and removes only that request from the walked list |
| `BlkFlush.HeadDetached` | block/blk-flush.c:250-255 | the head of the walked list waits for exactly the flush step that was served and has not recorded it, so the BUG_ONs at lines 175 and 253 do not fire |
| `BlkFlush.DrainKeeps` | block/blk-flush.c:221-275 | the loop over the running list keeps the invariant at every turn although each turn may issue the next flush |
| `BlkFlush.FlushKeeps` | block/blk-flush.c:221-275 | flush_end_io as a whole restores the full invariant |
| `BlkFlush.InsertKeeps` | block/blk-flush.c:413-477 | blk_insert_flush keeps the invariant, for every policy |
| `BlkFlush.DataKeeps` | block/blk-flush.c:340-399 | a DATA completion keeps the invariant, and DATA was not recorded before |
| `BlkFlush.StructureInEveryRun` | block/blk-flush.c:221-338 | in every run never two flushes at once; one out exactly when the indices differ, so the BUG_ON at line 241 does not fire; nothing waits when neither a flush nor DATA is out |
| `BlkFlush.PlacedInEveryRun` | block/blk-flush.c:167-219 | in every run each request is on exactly the list of its current step, as an observer of the log alone sees it |
| `BlkFlush.DurableInEveryRun` | block/blk-flush.c:167-275 | in every run a request that ended without error ran each step of its policy once, in order, each flush step by a flush issued after it was queued for it |
| `BlkFlush.ArrivesAsSubmitted` | block/blk-flush.c:413-477 | a request in the log arrived with the policy of the flags it was submitted with |
| `BlkFlush.FlagsAreHonoured` | block/blk-flush.c:98-275 | of the flags alone: PREFLUSH means a whole flush before the data goes out, FUA on a device without it a flush issued after the data was written; no flush without a volatile cache |
| `BlkFlush.OnlyWhatIsCalledFor` | block/blk-flush.c:98-113 | in every run, on flags and log alone: a request is queued for a flush before its data only with a write cache and REQ_PREFLUSH, after its data only with a write cache, REQ_FUA and no native FUA; data is issued only if there is any |
| `BlkFlush.BypassedExactly` | block/blk-flush.c:434-456 | in every run a request goes to the driver directly exactly when it was submitted with data and neither flush is called for; with neither data nor flush it is ended at once |
| `BlkFlush.DataIsActedOn` | block/blk-flush.c:340-399 | in every run, when DATA completes the request moves on at once: ended with the error, queued for the flush still to come, or ended |
| `BlkFlush.TimelyInEveryRun` | block/blk-flush.c:291-312 | in every run, at every DATA completion and every submission that needs a flush: a flush that could go out is held back exactly while DATA is in flight and the pending list has not been non-empty for the timeout |
| `BlkFlush.ErrorsHaveACause` | block/blk-flush.c:167-275 | a request ends with an error only after a flush or its own data failed |
| `BlkFlush.AwaitsOne` | block/blk-flush.c:221-338 | while a request is queued for a flush at most one flush completes, the one that was out when it was queued |
| `BlkFlush.ServedByTheSecond` | block/blk-flush.c:221-338 | in every run a queued flush step is served by the second flush completion after that at the latest, and by nothing else |
| `BlkFlush.FlushQueue.constructor` | block/blk-flush.c:533-562 | the new queue is empty and satisfies the invariant |
| `BlkFlush.FlushQueue.KickFlush` | block/blk-flush.c:291-338 | does what Kick says, and returns whether it issued a flush |
| `BlkFlush.FlushQueue.BeginNext` | block/blk-flush.c:183-215 | the switch does what Advance says |
| `BlkFlush.FlushQueue.FlushCompleteSeq` | block/blk-flush.c:167-219 | does what CompleteSeq says |
| `BlkFlush.FlushQueue.InsertRequest` | block/blk-flush.c:413-477 | is the Submit step of a run |
| `BlkFlush.FlushQueue.DataEnd` | block/blk-flush.c:340-399 | is the DataCompletes step of a run |
| `BlkFlush.FlushQueue.ServeOne` | block/blk-flush.c:250-255 | one turn of the loop: serves the head, keeps the loop invariant, and leaves the rest of the walked list as it was |
| `BlkFlush.FlushQueue.WalkServed` | block/blk-flush.c:250-255 | the safe list walk equals the recursion Drain |
| `BlkFlush.FlushQueue.FlushEnd` | block/blk-flush.c:221-275 | is the FlushCompletes step of a run |
| `Segments.GreedyCuts` | block/blk-merge.c:228-296 | the greedy segmentation is a valid one of the same vectors |
| `Segments.GreedyMinimal` | block/blk-merge.c:228-296 | no valid segmentation of the same vectors has fewer segments |
| `Segments.CountedBounds` | block/blk-merge.c:228-296 | a count backed by some valid segmentation bounds the greedy count |
| `Segments.CountedConcat` | block/blk-merge.c:500-571 | counts add when a merge starts a new segment |
| `Segments.CountedJoin` | block/blk-merge.c:584-626 | a merge across ends that share a segment saves one, and the joined segment fits the cached sizes |
| `Segments.ScanStep` | block/blk-merge.c:256-286 | one more vector extends the last greedy segment or starts one, by the test of the code |
| `Segments.RecalcSegments` | block/blk-merge.c:228-296 | counts the greedy segments of a bio list and raises the cached sizes to those of its ends |
| `Segments.MapVec` | block/blk-merge.c:363-404 | one vector extends the scatter list as the greedy segmentation does |
| `Segments.MapSg` | block/blk-merge.c:406-449 | one entry per greedy segment, in order, with its page, offset and length |
| `ScatterLists.MapCovers` | block/blk-merge.c:363-449 | the scatter list covers exactly the physical bytes of the vectors, in order |
| `Requests.RecountSegments` | block/blk-merge.c:307-329 | the counted bio, with the count flagged valid |
| `Requests.TryMergeAdjacent` | block/blk-merge.c:844-851 | blk_try_merge calls for a merge exactly when the bio continues the bios of the request without a gap at that end |
| `Requests.RefreshKeeps` | block/blk-merge.c:526-571 | raising cached sizes keeps the request invariant |
| `Requests.FrontRaisedKeeps` | block/blk-merge.c:608-618 | the sizes raised for a merge that is then refused are still sound |
| `Requests.JoinMergeKeeps` | block/blk-merge.c:584-626 | a request merge across contiguous ends keeps the invariant with one segment less |
| `Requests.BackMergedKeeps` | block/blk-core.c:1512-1532 | a back merge keeps sector, length, bio positions and the segment bound |
| `Requests.FrontMergedKeeps` | block/blk-core.c:1534-1556 | a front merge keeps the same |
| `Requests.PairMergedKeeps` | block/blk-merge.c:701-779 | merged or refused, both requests keep the invariant |
| `Requests.PairMergedConserves` | block/blk-merge.c:701-779 | a merge loses and reorders no vector and no bio |
| `Requests.ConsumeDrops` | block/blk-core.c:2571-2683 | completing n bytes drops exactly the first n bytes, whatever the bio boundaries |
| `Requests.ConsumeEnds` | block/blk-core.c:2628-2643 | a bio is ended exactly when its last byte is among those completed, in list order |
| `Requests.ConsumeContiguous` | block/blk-core.c:2571-2683 | what is left is again a run of bios, n bytes further on |
| `Requests.ConsumeTwice` | block/blk-core.c:2571-2683 | completing in two steps is completing once |
| `Requests.PiecesAreOne` | block/blk-core.c:2628-2643 | on one bio list, completing in any pieces ends the same bios in the same order and leaves the same bytes as completing at once |
| `Requests.UpdateKeeps` | block/blk-core.c:2571-2683 | partial completion keeps the request invariant |
| `Requests.BioStepKeeps` | block/blk-merge.c:500-571 | a bio taken or refused, for a gap, for size or for lack of segments, leaves the request sound |
| `Requests.TakesExactly` | block/blk-merge.c:526-572 | on fields: exactly when a bio is merged, when the request is barred for good, and what sector and length it has then |
| `Requests.AbsorbsExactly` | block/blk-merge.c:584-626 | on fields: exactly when two requests are merged, and sector, length and count then |
| `Requests.BarredKeeps` | block/blk-merge.c:519-524 | so does setting REQ_NOMERGE, which asks less of the cached sizes |
| `RequestRuns.EveryRequestFits` | block/blk-merge.c:228-449 | in every run of submissions, bio merges, request merges and completions, of every request, also one made of a piece cut inside a vector: length, sector and bio positions agree, greedy mapping needs at most nr_phys_segments entries, and the first vector is within the length; while it may still be merged nr_phys_segments is the size of a valid segmentation whose outer segments are within the cached end sizes |
| `RequestRuns.OfferMerges` | block/blk-core.c:1512-1556 | in a run, a new bio that a request can take is taken in and the request grows by it, with all other requests as they were |
| `RequestRuns.JoinMerges` | block/blk-merge.c:701-779 | in a run, a request that can absorb another one does, with all others as they were |
| `RequestRuns.GreedyDrop` | block/blk-core.c:2679-2680 | what is left of a request after any number of bytes needs no more segments than the whole |
| `RequestRuns.NarrowInEveryRun` | block/blk-merge.c:448-680 | in every run nr_phys_segments is at most max_segments, if the bios submitted are counted within it, through merges and partial completions |
| `RequestRuns.WithinInEveryRun` | block/blk-merge.c:526-626 | in every run no request has more sectors than blk_rq_get_max_sectors allows where it starts, if the bios submitted have not, through merges and partial completions |
| `RequestRuns.ChunksRecede` | include/linux/blkdev.h:911-926 | blk_rq_get_max_sectors meets the one condition this needs, with chunk_sectors or without: starting later costs at most the sectors skipped |
| `RequestRuns.MacrosAdvance` | include/linux/bio.h:144-158 | the neighbour relations of the headers meet the one condition this needs: a vector that starts later joins what follows it as before |
| `RequestRuns.ConsumeIds` | block/blk-core.c:2628-2643 | the bios ended and the bios left are the bios there were, in order |
| `RequestRuns.EachBioOnce` | block/blk-core.c:1512-1556 | in every run each bio taken in is either ended or on the list of one request, exactly once, and no other bio is |
| `RequestRuns.EndedWithLastByte` | block/blk-core.c:2571-2683 | in every run, whatever is merged in between, a bio has been ended exactly when all its bytes are completed; until then some request holds exactly what follows the completed ones |
| `Requests.Request.constructor` | block/blk-core.c:1655-1667 | a request of one bio, counted if need be, that inherits its REQ_NOMERGE |
| `Requests.Request.NewHwSegment` | block/blk-merge.c:500-524 | the count grows exactly when it stays within max_segments, and a refusal sets REQ_NOMERGE |
| `Requests.Request.AttemptBackMerge` | block/blk-merge.c:526-547 | merges exactly when there is no gap and the sector limit at the start of the request and the segment limit allow it; the request is then as BackStep says |
| `Requests.Request.AttemptFrontMerge` | block/blk-merge.c:549-572 | merges exactly when there is no gap and the sector limit at the start of the bio and the segment limit allow it; the request is then as FrontStep says |
| `Requests.Request.MergeBio` | block/blk-core.c:1512-1556 | merges exactly when the bio is adjacent, neither is barred, and gap, sector and segment limits allow it; a merged request is within the sector limit where it starts; one refused for a limit alone is barred from merging |
| `Requests.Request.AttemptMerge` | block/blk-merge.c:584-779 | absorbs the next request exactly when it follows, neither is barred, and sector and segment limits allow it, with one segment less when the inner ends share one; otherwise both keep sector, length and count |
| `Requests.Request.MapToSg` | block/blk-merge.c:455-497 | never yields more entries than nr_phys_segments |
| `Requests.Request.EndFirst` | block/blk-core.c:2630-2642 | one turn completes what the first bio can take, and the list shrinks unless all bytes are used |
| `Requests.Request.EndBios` | block/blk-core.c:2628-2643 | the loop ends and leaves what completing all the bytes at once does |
| `Requests.Request.Update` | block/blk-core.c:2571-2683 | ended bios and the request that is left; the "request botched" repair is not needed |
| `Requests.Request.Recount` | block/blk-merge.c:298-305 | the count and the cached end sizes of the bios that are left |
| `BioSplit.SplitBytes` | block/bio.c:1809-1837 | the first n bytes and the rest, byte for byte |
| `BioSplit.GrowKeeps` | block/blk-merge.c:144-172 | the counters of the loop are those of the greedy segmentation so far, within all limits |
| `BioSplit.CutBefore` | block/blk-merge.c:119-140 | a cut before a vector gives a non-empty proper prefix within the segment, vector and sector limits |
| `BioSplit.CutInside` | block/blk-merge.c:129-140 | so does a cut inside a vector, at exactly max_sectors |
| `BioSplit.SegmentSplit` | block/blk-merge.c:86-190 | cuts exactly when the whole bio is not within the limits, and then as late as can be: in the first vector that cannot be taken whole if a part of it can, at exactly max_sectors, or just before it; with the count and sizes it records |
| `BioSplit.VisitLatest` | block/blk-merge.c:129-172 | each cut the loop makes is the latest possible one |
| `BioSplit.CutCaches` | block/blk-merge.c:129-190 | the sizes recorded for a piece can be relied on if and only if the part cut off a vector is no longer than the last segment before it; so always for a cut before a vector |
| `BioSplit.CutCanMisreport` | block/blk-merge.c:129-190 | one 8192-byte vector cut at 8 sectors is recorded with sizes 0 and 0 |
| `BioSplit.PieceCaches` | block/blk-merge.c:129-190 | the same condition on the piece alone: its last vector is no longer than its back size |
| `BioSplit.SplitConserves` | block/bio.c:1809-1837 | both halves non-empty and consecutive, with the bytes of the whole in order |
| `BioSplit.QueueSplit` | block/blk-merge.c:192-225 | the piece to issue is within the limits, its count can be relied on, and a piece cut off is marked REQ_NOMERGE, with sizes that can be relied on exactly when its last vector is within its back size; the rest, if any, is smaller, follows it and has the remaining bytes |
| `BioSplit.MakePiece` | block/blk-core.c:1655-1667 | a request made of whatever blk_queue_split issues is sound and within max_segments |
| `BioSplit.SplitAll` | block/blk-merge.c:192-225 | repeated splitting ends, and tiles the bio with consecutive non-empty pieces within the limits and the same bytes; all but the last are clones with ids of their own |
| `SplitRuns.PiecesEnter` | block/blk-merge.c:192-225 | submitted one after the other, the pieces of a bio that is not in the system yet are all taken in |
| `SplitRuns.SplitEndsWithLastByte` | block/blk-core.c:2571-2683 | in every run that submits the pieces of a split bio, whatever happens before and after, all pieces are ended if and only if as many bytes of them are completed as the bio has |
| `BioChain.WaitKeeps` | block/bio.c:1743-1760 | a bio that still waits keeps the invariant |
| `BioChain.PassKeeps` | block/bio.c:303-316 | handing the error and the call on to the parent keeps it |
| `BioChain.EndIoKeeps` | block/bio.c:1771-1792 | bio_endio settles the call that was due, up the whole chain |
| `BioChain.CounterPositive` | block/bio.c:1752 | the counter is positive when bio_remaining_done tests it |
| `BioChain.ChainedKeeps` | block/bio.c:329-337 | bio_chain keeps the invariant |
| `BioChain.InvInEveryRun` | block/bio.c:303-337 | the counter of each bio equals its own pending completion plus its children that have not ended, in every run |
| `BioChain.RootFiresOnce` | block/bio.c:1743-1792 | in every run the bi_end_io of a root runs at most once, and has run exactly when every bio below it was completed |
| `BioChain.RootSeesErrors` | block/bio.c:303-311 | a root that has run shows an error exactly when it or a bio below it failed |
| `BioChain.CompletedAsReported` | block/bio.c:1771-1792 | in every run a bio is completed exactly when the driver has reported it, and failed exactly when that report was an error |
| `BioChain.ChainedAsAsked` | block/bio.c:329-336 | in every run a bio is chained by bio_chain, to the bio given, by nothing else, and for good |
| `BioChain.ChainsWhenever` | block/bio.c:329-336 | bio_chain takes a bio that is not chained and not completed, below one that has not ended and is not below it |
| `BioChain.ErrorsAreReported` | block/bio.c:303-311 | in every run the error a bio shows is one the driver reported for it or for a bio below it |
| `BioChain.FirstErrorSticks` | block/bio.c:307-308 | an error once shown is replaced only by the driver's own report for that bio |
| `BioChain.TidyInEveryRun` | block/bio.c:1743-1760 | in every run BIO_CHAIN is set exactly while a bio that others were chained to has not ended; at its end its counter is 0, and that of another bio as it was |
| `BioChain.EndedBelow` | block/bio.c:1743-1792 | below a bio that has ended everything has ended |
| `BioChain.WaitsBelow` | block/bio.c:1743-1792 | a bio that has not ended waits for the driver, itself or below |
| `BioChain.BioSet.ChainBio` | block/bio.c:329-337 | is the Chain step of a run |
| `BioChain.BioSet.CompleteBio` | block/bio.c:1771-1792 | is the Complete step of a run |
| `BioChain.BioSet.Endio` | block/bio.c:1771-1792 | the loop up the chain equals the recursion EndIo |
| `CfqGroups.EnteredKeeps` | block/cfq-iosched.c:1327-1356 | joining the tree makes the loads of the group right and leaves at most its activation to pass up |
| `CfqGroups.RaisedKeeps` | block/cfq-iosched.c:1364-1372 | one turn of the activation loop moves the one wrong load up by a level |
| `CfqGroups.RiseKeeps` | block/cfq-iosched.c:1364-1372 | the loop leaves no wrong load, for every depth |
| `CfqGroups.LoweredKeeps` | block/cfq-iosched.c:1421-1437 | one turn of the deactivation loop moves the one wrong load up by a level |
| `CfqGroups.SinkKeeps` | block/cfq-iosched.c:1421-1437 | the loop leaves no wrong load |
| `CfqGroups.IdleWeighsNothing` | block/cfq-iosched.c:1427-1428 | a group with nothing active has no weight left, so the WARN_ON_ONCE does not fire |
| `CfqGroups.AddedKeeps` | block/cfq-iosched.c:1327-1375 | activation keeps every load equal to itself plus its active children |
| `CfqGroups.RemovedKeeps` | block/cfq-iosched.c:1411-1442 | so does deactivation |
| `CfqGroups.AddedFraction` | block/cfq-iosched.c:1354-1375 | the fraction recorded on activation is the one the new loads give, at least 1 |
| `CfqGroups.UpFloor` | block/cfq-iosched.c:1364-1372 | rounding at every level only loses against the exact share |
| `CfqGroups.SharesSumUpTo` | block/cfq-iosched.c:1327-1375 | the exact shares of the groups on the tree sum to at most 1 |
| `CfqGroups.FractionsFit` | block/cfq-iosched.c:1327-1375 | the rounded fractions, before the clamp to 1, sum to at most 1 << 12 |
| `CfqGroups.LoadsInEveryRun` | block/cfq-iosched.c:1306-1442 | in every run of activations, deactivations and weight changes over every tree, all loads are right and the fractions the current loads give fit |
| `CfqGroups.RecordedFractionsGoStale` | block/cfq-iosched.c:1374 | the fractions recorded on activation need not fit together later: a run after which they are 4096 and 2048 |
| `CfqGroups.StepWeights` | block/cfq-iosched.c:1306-1325 | no step changes the weight of an active group or of any group above it, whatever weight changes wait |
| `CfqGroups.RecordedFraction` | block/cfq-iosched.c:1306-1442 | in every run, from an activation until the removal: the recorded fraction is the one given at the activation, and still the one the current loads give as long as the loads on the path to the root weigh the same |
| `CfqGroups.WeightInForce` | block/cfq-iosched.c:1306-1314 | in every run the weight of a group that counts with its parent is the one last asked for before it became active, or its initial one |
| `CfqGroups.LeafWeightInForce` | block/cfq-iosched.c:1316-1325 | the same for the leaf weight of a group on the service tree |
| `CfqGroups.AskedSinceWaits` | block/cfq-iosched.c:1829-1830 | in every run the weight waiting for an active group is the one last asked for since it became active, or none |
| `CfqGroups.LeafAskedSinceWaits` | block/cfq-iosched.c:1832-1833 | the same for the leaf weight of a group on the service tree |
| `CfqGroups.IdleHasNoFraction` | block/cfq-iosched.c:1421-1437 | in every run a group with nothing active has no fraction |
| `CfqGroups.PendingWeightCounts` | block/cfq-iosched.c:1364-1372 | a group of weight 500 for which 100 was asked counts with 100: fraction 682 |
| `CfqGroups.CfqTree.ServiceTreeAdd` | block/cfq-iosched.c:1327-1375 | the loop equals the recursion Added, keeps the loads right, and records the fraction they give |
| `CfqGroups.CfqTree.Climb` | block/cfq-iosched.c:1364-1372 | one turn, with the compounded fraction so far |
| `CfqGroups.CfqTree.ServiceTreeDel` | block/cfq-iosched.c:1411-1442 | the loop equals the recursion Removed and keeps the loads right |
| `BlkMq.MapSwqueue` | block/blk-mq.c:1726-1757 | within a hardware queue, bits and software queues correspond one to one |
| `BlkMq.NextInsert` | block/blk-mq.c:1018-1084 | one step of an inserter moves only its own thread and keeps the shape of the state; which end it inserts at is in FirstComeFirstServed and HeadFirst |
| `BlkMq.NextRun` | block/blk-mq.c:731-925 | the same for a queue runner, which starts only on a hardware queue with software queues |
| `BlkMq.NextDead` | block/blk-mq.c:1555-1580 | the same for the CPU-dead callback |
| `BlkMq.NextKeeps` | block/blk-mq.c:731-925 | every careful step of every thread keeps: a non-empty software queue has its bit set, or a runner between clearing and splicing, or an inserter that holds the lock; and whoever puts requests on a list will ask for a run that is not dropped |
| `BlkMq.PendingInEveryRun` | block/blk-mq.c:48-59 | no careful interleaving loses sight of a queued request; careful: the callback clears no bit another queue needs and takes requests to mapped hardware queues only |
| `BlkMq.NothingLeft` | block/blk-mq.c:772-925 | then, when all threads are done and no run is wanted, no request of that hardware queue is left on a list |
| `BlkMq.DeadClearExact` | block/blk-mq.c:1564-1569 | one step of the callback keeps the invariant if and only if the software queue whose bit it clears is empty or covered by another thread |
| `BlkMq.UnsharedIsSingle` | block/blk-mq.c:1747-1755 | bits are handed out from 0 in every hardware queue, so no bit is shared across queues only if one queue is in use |
| `BlkMq.CallbackExact` | block/blk-mq.c:1555-1580 | every run of every number of threads keeps the pending invariant if and only if the device has one hardware queue, or no software queue is mapped |
| `BlkMq.OwnIsSafe` | block/blk-mq.c:1555-1580 | for the hardware queue the software queue is mapped to, it is |
| `BlkMq.OwnRunsAreCareful` | block/blk-mq.c:1555-1580 | runs in which the callback is invoked for that hardware queue only keep the invariant throughout |
| `BlkMq.ForeignCallbackHides` | block/blk-mq.c:1555-1580 | whenever two software queues share a bit index in different hardware queues, some run hides a queued request |
| `BlkMq.UnmappedStrands` | block/blk-mq.c:902-906 | whenever a hardware queue has no software queue, some run leaves a request on its dispatch list with all threads done and no run wanted |
| `BlkMq.StrandedForever` | block/blk-mq.c:902-906 | in every continuation of every run, what is on the dispatch list of such a queue stays there |
| `BlkMq.OneQueueIs` | block/blk-mq.c:1726-1757 | with two hardware queues or more, one has no software queue or two software queues share a bit, and with one neither happens |
| `BlkMq.EachInOnePlace` | block/blk-mq.c:731-875 | in every run each request is in exactly one place, once: software queue, runner list, dispatch list, driver or ended |
| `BlkMq.TrackedInEveryRun` | block/blk-mq.c:1041-1084 | every run that inserts no request twice is one of which this is said, of exactly the requests inserted |
| `BlkMq.InsertedAreTracked` | block/blk-mq.c:1041-1084 | every inserted request is among those located |
| `BlkMq.EveryRequestGetsThrough` | block/blk-mq.c:731-925 | in every careful run, once everything is quiet, each request ever inserted was given to the driver or ended, exactly once |
| `BlkMq.OrderInEveryRun` | block/blk-mq.c:731-875 | in every run a request never overtakes one that stands before it on the same list: they stay together in that order until the first is issued |
| `BlkMq.AheadForGood` | block/blk-mq.c:731-875 | in every run, whenever two lists are put together, the right one is in front for good and is issued first: what is on a software queue before what is added to its tail, software queues in the order of their bits, left-over requests before new ones, given-back ones before those on the dispatch list, and that before the requests of a dead CPU |
| `BlkMq.FirstComeFirstServed` | block/blk-mq.c:1018-1030 | in every run, of two requests put at the tail of one software queue the first stands first while both are there, and is issued first if they met there |
| `BlkMq.HeadFirst` | block/blk-mq.c:1026-1027 | in every run a request put at the head stands first right after, with the others behind it as they stood |
| `BlkMq.EndedHaveCause` | block/blk-mq.c:812-829 | in every run something is ended only after the driver completed or refused something |
| `BlkMq.MarksMove` | block/blk-mq.c:48-59 | a mark appears only when an inserter that found it missing sets it, and goes only when a runner has seen it, before it takes the list, or by the callback |
| `BlkMq.StepsEnd` | block/blk-mq.c:731-875 | every step of a thread brings it nearer to its end or issues a request it holds, so no call goes on for ever |
| `BadBlocks.PackRoundTrip` | include/linux/badblocks.h:10-17 | packing and unpacking a range, in 64 bits, is the identity |
| `BadBlocks.MacrosRoundTrip` | include/linux/badblocks.h:10-17 | BB_OFFSET, BB_LEN and BB_ACK read back what BB_MAKE packed, on bit-vectors |
| `BadBlocks.MakeIsPack` | include/linux/badblocks.h:17 | on 64-bit words BB_MAKE is the sum that the model packs |
| `BadBlocks.ReadIsUnpack` | include/linux/badblocks.h:10-16 | BB_OFFSET, BB_LEN and BB_ACK are the quotient, remainder and comparison that the model unpacks with |
| `BadBlocks.MakeIsMade` | include/linux/badblocks.h:17 | a length below 1 fills the word with ones, as the model says |
| `BadBlocks.MadeIs` | include/linux/badblocks.h:17 | which, for a length of 1 - m with m at most 512, is an acknowledged range of 513 - m sectors at the last sector there is |
| `BadBlocks.CombinedLengths` | block/badblocks.c:273-290 | every length ranges are combined to is one for which that holds |
| `BadBlocks.SetExact` | block/badblocks.c:171-322 | for every call of at least one sector, the table after a successful set is well formed and covers exactly old and new, if and only if the call is Clean |
| `BadBlocks.PlainSetIsClean` | block/badblocks.c:171-322 | at most BB_MAX_LEN sectors and no overlap with a later range is Clean |
| `BadBlocks.SetCanLose` | block/badblocks.c:273-290 | a call after which a sector just marked is not in the table |
| `BadBlocks.UnackedSet` | block/badblocks.c:219-241 | after a plain set without acknowledgement all new sectors are unacknowledged, if and only if the call is not Stuck |
| `BadBlocks.SetCanStick` | block/badblocks.c:232-239 | a call after which a sector just marked unacknowledged is acknowledged |
| `BadBlocks.StepsArePlan` | block/badblocks.c:211-312 | merging low, merging high, combining and inserting in place give the planned patch of the table |
| `BadBlocks.ClearedHas` | block/badblocks.c:339-431 | clearing removes exactly the given sectors and leaves every other acknowledgement |
| `BadBlocks.ClearedForms` | block/badblocks.c:339-431 | the cleared table is well formed |
| `BadBlocks.ClearedAcked` | block/badblocks.c:339-431 | clearing makes nothing unacknowledged |
| `BadBlocks.VerdictEnds` | block/badblocks.c:61-133 | no range before one that ends at or before the start overlaps |
| `BadBlocks.BadBlockTable.Search` | block/badblocks.c:82-106 | finds the last range that starts before the target |
| `BadBlocks.BadBlockTable.Check` | block/badblocks.c:61-133 | equals the naive scan: 0, 1 or -1, with the lowest overlapping range |
| `BadBlocks.BadBlockTable.UpdateAcked` | block/badblocks.c:136-154 | the flag stays set only if some range is unacknowledged |
| `BadBlocks.BadBlockTable.Set` | block/badblocks.c:171-322 | succeeds exactly when the planned table fits the page, and then the table is that one |
| `BadBlocks.BadBlockTable.MergeLow` | block/badblocks.c:211-242 | the attempt to merge with the range before |
| `BadBlocks.BadBlockTable.MergeHigh` | block/badblocks.c:243-272 | the attempt to merge with the range after |
| `BadBlocks.BadBlockTable.TryCombine` | block/badblocks.c:273-290 | combines two touching ranges in place |
| `BadBlocks.BadBlockTable.InsertChunks` | block/badblocks.c:291-312 | inserts chunks of at most BB_MAX_LEN sectors at one index, and fails exactly when they do not fit |
| `BadBlocks.BadBlockTable.Clear` | block/badblocks.c:339-431 | the cleared table, or on -ENOSPC nothing changed |
| `BadBlocks.BadBlockTable.ClearDown` | block/badblocks.c:402-423 | the loop over the ranges that end in the target, and the memmove |
| `BadBlocks.BadBlockTable.AckAll` | block/badblocks.c:441-463 | acknowledges every range unless the table has changed |
| `BadBlocks.MoveUp` | block/badblocks.c:302-308 | the memmove that opens one slot, on the array |
| `BadBlocks.MoveDown` | block/badblocks.c:420-423 | the memmove that closes slots |
| `BadBlockRuns.BeforeUnique` | block/badblocks.c:195-209 | the place badblocks_set searches for is unique |
| `BadBlockRuns.TableIsSet` | block/badblocks.c:171-463 | in every run of sets, clears and ack-alls from the empty table, the table is well formed and covers exactly the sectors marked and not cleared since, after every call, if and only if every set was Clean |
| `Deadline.AddedKeeps` | block/deadline-iosched.c:98-110 | adding keeps the lists consistent; which requests they hold is in QueuedInEveryRun |
| `Deadline.RemovedKeeps` | block/deadline-iosched.c:115-121 | so does removing, and next_rq moves on |
| `Deadline.FrontKeeps` | block/deadline-iosched.c:153-165 | so does the reinsertion after a front merge |
| `Deadline.MergedKeeps` | block/deadline-iosched.c:168-187 | so does merging two requests, with the earlier expiry and its place |
| `Deadline.MergeTimely` | block/deadline-iosched.c:168-187 | the FIFO stays in the order of expiry times |
| `Deadline.TimelyKeeps` | block/deadline-iosched.c:98-218 | every event keeps the FIFOs in the order of expiry times |
| `Deadline.LatterAbove` | block/deadline-iosched.c:65-73 | the batch goes on upwards |
| `Deadline.ChosenQueued` | block/deadline-iosched.c:241-323 | the dispatched request is queued in the chosen direction |
| `Deadline.DispatchedKeeps` | block/deadline-iosched.c:241-323 | dispatching keeps the invariant |
| `Deadline.StructureInEveryRun` | block/deadline-iosched.c:83-323 | in every run sort list and FIFO of a direction hold the same requests, and at most one next_rq is set, to a queued request |
| `Deadline.QueuedInEveryRun` | block/deadline-iosched.c:98-218 | in every run, against a plain book kept from the events and from what is reported as sent: a request is on the sort list and on the FIFO of its direction exactly when it was added and not since removed, merged away or sent, with the sector and the expiry the book says |
| `Deadline.SentOnce` | block/deadline-iosched.c:98-323 | in every run a request is sent, removed or merged away once for every time it was added, or still waits |
| `Deadline.FifoInOrder` | block/deadline-iosched.c:98-218 | every event keeps the order of two requests in a FIFO; one that is merged into takes the place of the other if that expires first |
| `Deadline.AddedLast` | block/deadline-iosched.c:98-110 | a new request is behind all others of its direction |
| `Deadline.AddedInSectorOrder` | block/deadline-iosched.c:75-81 | a new or moved request stands behind all that start at or before its sector and before the others |
| `Deadline.DispatchGoesUp` | block/deadline-iosched.c:204-218 | after a dispatch next_rq is the queued request next above the one sent, none exactly when none is above it, and the other direction has none |
| `Deadline.RemoveGoesUp` | block/deadline-iosched.c:83-92 | removing next_rq makes the next one above it next_rq; removing another leaves it |
| `Deadline.SendsWhenever` | block/deadline-iosched.c:241-323 | something is sent exactly when something waits |
| `Deadline.SendsWhat` | block/deadline-iosched.c:241-323 | with both directions waiting: a batch goes on with next_rq while it has a share left; otherwise writes go exactly when they are starved, and an expired FIFO head starts the batch in either direction |
| `Deadline.SendsOnly` | block/deadline-iosched.c:241-323 | with one direction waiting, that one, next_rq or FIFO head as the batch and the head's expiry say |
| `Deadline.CountersInEveryRun` | block/deadline-iosched.c:241-323 | in every run batching counts the requests sent in the batch, and starved the read batches begun since the last write batch while writes waited |
| `Deadline.ReadsBeforeWrite` | block/deadline-iosched.c:241-323 | while a write waits, fewer than (writes_starved + 1) * max(fifo_batch, 1) reads go before some write |
| `Deadline.WriteWaitStep` | block/deadline-iosched.c:241-323 | no event lengthens the wait of the writes, and dispatching a read shortens it |
| `Deadline.ExpiredReadSoon` | block/deadline-iosched.c:241-323 | an expired read at the head of its FIFO goes after at most 2 * max(fifo_batch, 1) - 1 others |
| `Deadline.ExpiredWriteSoon` | block/deadline-iosched.c:241-323 | an expired write at its FIFO head goes after fewer than (writes_starved + 1) * fifo_batch others |
| `Deadline.ReadWaitStep` | block/deadline-iosched.c:241-323 | no event lengthens its wait, and every other dispatch shortens it |
| `Deadline.DeadlineData.AddRequest` | block/deadline-iosched.c:98-110 | is the Add event of a run |
| `Deadline.DeadlineData.RemoveRequest` | block/deadline-iosched.c:115-121 | does what Removed says |
| `Deadline.DeadlineData.MergedRequest` | block/deadline-iosched.c:153-165 | does what FrontMerged says |
| `Deadline.DeadlineData.MergedRequests` | block/deadline-iosched.c:168-187 | does what Merged says |
| `Deadline.DeadlineData.MoveRequest` | block/deadline-iosched.c:205-218 | clears both next_rq, sets the one of the direction to the latter request, and dispatches |
| `Deadline.DeadlineData.DispatchRequests` | block/deadline-iosched.c:241-323 | does what Dispatched says and returns the request sent |
| `Deadline.DeadlineData.PickDirection` | block/deadline-iosched.c:266-292 | the direction and the starved count, and it has waiting requests |
| `MakeRequest.WalkVisits` | block/blk-core.c:2048-2079 | the walk visits every submitted bio exactly as often as it is submitted, and hands it to its make_request_fn exactly when its queue can be entered |
| `MakeRequest.LowerDevicesFirst` | block/blk-core.c:2061-2074 | of two bios that one make_request_fn submits, everything below the one for a lower device, or else the one submitted first, is visited before anything below the other |
| `MakeRequest.Partition` | block/blk-core.c:2064-2070 | new bios are stably sorted into those for lower devices and those for the same one |
| `MakeRequest.HandleBio` | block/blk-core.c:2049-2078 | one turn visits the bio and puts what it submitted before the rest, lower devices first |
| `MakeRequest.GenericMakeRequest` | block/blk-core.c:2001-2084 | the loop ends for every finite tree and visits bios in exactly the order of the recursive pre-order walk |
| `Discard.NextSectsIs` | block/blk-lib.c:66-81 | every piece is non-empty, at most UINT_MAX >> 9 sectors and as long as the grid allows, and every inner boundary is on the grid |
| `Discard.TileDiscard` | block/blk-lib.c:62-99 | the loop ends, tiles the range, and chains each bio to the next one |
| `Discard.IssueDiscard` | block/blk-lib.c:25-103 | refuses exactly the misaligned requests, and otherwise tiles the range, with each bio, the one passed in first, chained to the next |
| `Discard.TilesInside` | block/blk-lib.c:62-99 | pieces are consecutive and non-empty, with inner boundaries on the grid |
| `Discard.TilesExactly` | block/blk-lib.c:62-99 | every sector of the range is in exactly one piece, and no other sector is in any |
| `Discard.DiscardSplit` | block/blk-merge.c:15-56 | a cut is proper, within the limit, on the grid and less than one granule below the limit; when there is none |
| `Discard.CutOnGrid` | block/blk-merge.c:47-53 | moving the cut back by the remainder puts it on the grid |
| `Discard.GridInBytes` | block/blk-lib.c:58-60 | in bytes, the grid points are the offsets with the remainder of the alignment modulo the granularity |
| `Aes.GfLaws` | crypto/aes_generic.c:1128 | star_x is multiplication by x in GF(2^8) on four bytes at once, and it is additive |
| `Aes.InvMixOfMix` | crypto/aes_generic.c:1130-1139 | InvMixColumns undoes MixColumns |
| `Aes.InvMixAdds` | crypto/aes_generic.c:1130-1139 | InvMixColumns is additive |
| `Aes.ImixIsInvMix` | crypto/aes_generic.c:1130-1139 | imix_col is InvMixColumns on one column |
| `Aes.LsBoxIs` | crypto/aes_generic.c:1141-1145 | ls_box is SubWord |
| `Aes.RcoIsRcon` | crypto/aes_generic.c:63 | rco_tab holds the powers of x |
| `Aes.KeyWordsSchedule` | crypto/aes_generic.c:1147-1200 | the word-by-word rules of the code hold of the key schedule of section 5.2 of FIPS-197 |
| `Aes.DecWordsAreDecKeys` | crypto/aes_generic.c:1258-1266 | the reversed and inverse-mixed words are the decryption keys of section 5.3.5 of FIPS-197 |
| `Aes.MeetInside` | crypto/aes_generic.c:1329-1440 | after every round decryption is where encryption was |
| `Aes.DecryptUndoesEncrypt` | crypto/aes_generic.c:1329-1440 | for every block, number of rounds and key schedule decryption undoes encryption |
| `Aes.AesLawful` | crypto/aes_generic.c:1300-1399 | the AES round operations have the laws that proof needs, for any S-box with an inverse |
| `Aes.FRoundIs` | crypto/aes_generic.c:1300-1313 | a forward round of the code is SubBytes, ShiftRows, MixColumns and AddRoundKey |
| `Aes.FLastIs` | crypto/aes_generic.c:1315-1327 | the last one leaves out MixColumns |
| `Aes.IRoundIs` | crypto/aes_generic.c:1372-1385 | an inverse round is InvSubBytes, InvShiftRows, InvMixColumns and AddRoundKey |
| `Aes.ILastIs` | crypto/aes_generic.c:1387-1399 | the last one leaves out InvMixColumns |
| `Aes.EncryptIsCipher` | crypto/aes_generic.c:1329-1368 | the rounds of aes_encrypt are Cipher of section 5.1 of FIPS-197 |
| `Aes.DecryptIsEqInvCipher` | crypto/aes_generic.c:1401-1440 | the rounds of aes_decrypt are EqInvCipher of section 5.3.5 of FIPS-197 |
| `Aes.CodeRoundTrip` | crypto/aes_generic.c:1329-1440 | the code decrypts what it encrypts, for every block, with the keys the expansion derives |
| `Aes.EveryKeyRoundTrips` | crypto/aes_generic.c:1216-1440 | the same for each of the three key lengths, with the number of rounds and the decryption keys that go with it |
| `Aes.KeyedCode` | crypto/aes_generic.c:1216-1440 | with the keys the expansion derives, for each key length: the code encrypts as Cipher of FIPS-197 under the key schedule of the key, and decrypts the result to the block |
| `Aes.SetKey` | crypto/aes_generic.c:1282-1295 | a key of one of the three lengths is accepted, and from then on both hold of every block; any other is refused and leaves the context as it was |
| `Aes.AesCtx.Loop4` | crypto/aes_generic.c:1147-1158 | one turn extends the expanded key by four words of the schedule |
| `Aes.AesCtx.Loop6` | crypto/aes_generic.c:1160-1175 | by six words |
| `Aes.AesCtx.Loop8` | crypto/aes_generic.c:1190-1200 | by eight words |
| `Aes.AesCtx.ExpandKey` | crypto/aes_generic.c:1216-1268 | fails exactly for other key lengths, changing nothing; otherwise key_enc is the key schedule and key_dec its reversed, inverse-mixed form |
| `Aes.AesCtx.Encrypt` | crypto/aes_generic.c:1329-1368 | the unrolled rounds are the right number of rounds with the right keys |
| `Aes.AesCtx.Decrypt` | crypto/aes_generic.c:1401-1440 | the same for decryption |
| `Aes.Crypt` | crypto/aes_generic.c:1340-1367 | the rounds of both, unrolled two at a time with the extra ones of longer keys |
| `Arc4.SwapPerm` | crypto/arc4.c:71-73 | a swap keeps the table a permutation, so every reachable table is one |
| `Arc4.CryptAt` | crypto/arc4.c:53-88 | each byte is xored with the table entry the indices name after one more step per byte, whatever the text |
| `Arc4.CryptTwice` | crypto/arc4.c:53-88 | running twice from equal states gives the text back |
| `Arc4.CryptConcat` | crypto/arc4.c:53-88 | encrypting two texts joined is encrypting one after the other |
| `Arc4.WalkCutsAnywhere` | crypto/arc4.c:95-116 | however the scatter walk cuts the text, the bytes are the same |
| `Arc4.FetchedStep` | crypto/arc4.c:70-84 | storing the prefetched pair crosswise is the swap of the textbook generator, and the sum indexes its output |
| `Arc4.WrapIndex` | crypto/arc4.c:46-47 | the wrapping key index is the round modulo the key length |
| `Arc4.Arc4Ctx.SetKey` | crypto/arc4.c:29-51 | sets up the state of the textbook key schedule, for every key |
| `Arc4.Arc4Ctx.OneByte` | crypto/arc4.c:71-78 | one turn writes the next byte and fetches the pair after it |
| `Arc4.Arc4Ctx.CryptBuffer` | crypto/arc4.c:53-88 | for every state and length, the output and the state left are those of the textbook generator, also in place |

## Left out

- Flush requests with FUA and no data: the header of block/blk-flush.c (line 13) says they make no sense.
- Flush: tag borrowing under blk-mq, the return value that asks for a queue run, and the flags the driver sees.
- Segments.RecalcSegments: no QUEUE_FLAG_NO_SG_MERGE, no empty list, and no discard or write-same bio, for which the source returns a constant.
- Requests.RecountSegments: no QUEUE_FLAG_NO_SG_MERGE, under which the source sets a count and leaves the sizes unset.
- Requests: failfast attributes, integrity, drain and padding of scatter lists.
- Requests: completion of a number of bytes that is not a multiple of a sector, and passthrough requests.
- Requests.Request.AttemptMerge: the checks on flags other than REQ_NOMERGE, operation, device, keys and gaps are one boolean, because they only refuse.
- Bio chaining: concurrent bio_endio calls are taken one after the other, and bios are not freed.
- CFQ: 32-bit overflow of children_weight, group creation during a run, vdisktime, slices, idling, preemption and cgroup files.
- blk-mq: memory ordering (steps are sequentially consistent), stopped hardware queues, remapping during a run, and the requeue list.
- Bad blocks: shift other than 0, the seqlock retry, calls with fewer than one sector, and sectors beyond the 54 bits of an entry.
- BadBlocks.BadBlockTable.Set: says nothing of the table contents when it fails, because the source leaves it part way.
- Deadline: wrap-around of jiffies, lookup for front merges, and tunables that change during a run.
- Discard: the secure-erase and queue capability checks, and the wait for completion.
- AES: the literal contents of the tables (they are taken to meet their definition) and the byte order of keys and blocks in memory.
- ARC4: registration with the crypto API and the lower and upper bound it enforces on the key length.
- Sysfs, ioctl, SCSI commands, memory allocation, user mappings, timeouts, partitions and stacking limits: plumbing around the parts modelled, resting on drivers and on memory management.
