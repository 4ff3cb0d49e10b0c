# Verified models of a block layer, a cipher, a cipher mode and a file sender

The repository carries a Linux 2.6.33 kernel for an STM32F7 board and a TFTP
server that feeds the board.  This project models the parts of it whose
correctness lives in a whole run rather than in one function, and proves what
those parts promise.

* **Ordered writes** (`Ordered*.dfy`, `OrdseqMask.dfy`, `RequestQueue.dfy`).  A
  barrier write is replaced by up to three proxy requests.  They are sequenced
  by a set of stages, a one-bit colour and a count of requests in the driver.
  `Ordered` is the transition system.  `OrderedInvariant`, `OrderedSteps`,
  `OrderedDrain` and `OrderedTag` hold what every step keeps, `OrderedTrace` states
  the guarantees on the log of events that an observer sees, and `OrderedService`
  says when an idle driver is served.  `RequestQueue` is the queue as an object,
  with the stages as a mask of bits; the entry points that schedulers and drivers
  call are proved to make steps of the transition system.
* **Merging, segments and completion** (`Segments.dfy`, `RequestChain.dfy`,
  `RequestCounts.dfy`, `RequestCompletion.dfy`, `BlockRequest.dfy`,
  `MergeHash.dfy`, `RequestRanges.dfy`, `RequestPool.dfy`, `MergeLimits.dfy`,
  `PoolMerges.dfy`, `PoolLimits.dfy`).  Requests are chains
  of bios made of vectors.  They are merged, counted incrementally, looked up by
  their end sector, mapped greedily to a scatterlist, and completed a few bytes
  at a time.
* **Schedulers and allocators**: the deadline scheduler (`Deadline*.dfy`), sorted
  insertion into the dispatch queue (`DispatchSort.dfy`), tags (`BlkTags.dfy`,
  `BlkQueueTag.dfy`), the request pool (`RequestList.dfy`) and CFQ's choice of
  the next request (`CfqChoice.dfy`).
* **Camellia** (`Camellia*.dfy`).  The key schedule is rewritten so that two
  whitening keys disappear and every key is added behind the S-boxes.  The
  rewritten cipher is proved to be the one of section 2.3 of RFC 3713, with the
  F-function of section 2.4.1 written out byte by byte, for any four S-boxes.
* **CBC** (`Cbc.dfy`, `BitMask.dfy`): the four loops against section 6.2 of NIST
  SP 800-38A, with the bit mask that finds the last block.
* **TFTP** (`Tftp*.dfy`): the stop-and-wait sender with 16-bit block numbers,
  against a client of sections 2 and 6 of RFC 1350, over channels that lose and
  duplicate packets but keep their order.

A region that the source runs under the queue lock is one step here.  Integers
are unbounded, except for block numbers on the wire and the merge hash, which
wrap at 16 and 32 bits, and for the 32-bit words of Camellia.  Run-time
choices of code that is not modelled (which request a scheduler dispatches, what
a driver completes, what the network does, whether memory is there, how the
segment boundary is tested) are
parameters of the steps, and the theorems hold for all of them.

## What the main theorems say

* `OrderedTrace.RunsObeyRules`: in every run of every supported configuration the
  log obeys `Rule`.  On a queue that orders by draining, no proxy is issued while
  an earlier fs request is queued or in the driver, the bar only after the
  preflush, the postflush only after the bar, and no later fs request until the
  sequence is over.  In every configuration the original request is ended with
  the first recorded error once all its stages are complete, and the `BUG_ON` for
  a stage completed twice never fires.
* `OrderedService.ServedIff`: an idle driver is served in every run, on exactly
  those configurations that do not order by tag without flushes.
* `RequestPool.MappingFits`: after any history of merges (refused ones included)
  and partial completions, a request maps to at most `nr_phys_segments` entries;
  `PoolLimits.LimitsKept` and `PoolLimits.DeviceFits`: and to no more than the
  queue allows.  `PoolMerges.SubmissionConserves`: no data is lost on the way.
* `CamelliaStandard.TableComputesStandard`, `CamelliaCipher.DecryptUndoesEncrypt` and
  their composition in `CamelliaCode.EncryptUnder` and `CamelliaCode.DecryptUnder`.
* `TftpSafety.ClientHoldsPrefix`, `TftpSafety.CompleteMeansDelivered` and
  `TftpTrail.AnsweredCompletesIff`.
* `RequestCompletion.UpdateConserves` and `RequestCompletion.UpdateTwice`.
* `RequestPool.LookupExact`, `DeadlineDispatch.DispatchLaw`,
  `DeadlineRuns.WritesNotStarved`,
  `DeadlineRuns.IndexesAgree`, `BlkTags.TagsAreExact`,
  `BlkTags.InvalidationKeepsOrder`, `RequestLists.NoStrandedSleeper`,
  `CfqChoice.ChosenBeatsIff`, `DispatchSort.SortsInOrder`, `Cbc.CbcDecrypt`.

## Where the code and its comments differ

* The comment in `start_ordered` says that an empty barrier on a queue that orders
  by tag without flushes is handled by draining.  The code drains by colour, and
  colours repeat: a request that was requeued while an earlier barrier went ahead
  looks younger than the empty barrier.  In that configuration
  (`QUEUE_ORDERED_TAG`) the queue can stop serving an idle driver, and can end the
  barrier before such a request is over.  `OrderedService.PlainTagHangs` and
  `OrderedService.PlainTagEndsEarly` are the runs, and `OrderedService.ServedIff`
  shows that no other configuration stops.
* The comment in `blk_queue_start_tag` speaks of a few tags reserved for
  synchronous requests.  The code reserves two at a depth of three or more, one
  at a depth of two and none at a depth of one; `BlkTags.Allowed` follows the
  code, and `BlkTags.ReserveIff` and `BlkTags.ReserveKept` cover every depth.
* The comment in `cfq_choose_req` gives a backward seek twice the cost of a
  forward one.  The code multiplies by the tunable `cfq_back_penalty`;
  `CfqChoice.NeighbourIsBest` holds for every value of it that is not negative.

## Model

| member | source | states |
|---|---|---|
| OrderedTrace.RunsObeyRules | linux-stm32f7-master/block/blk-barrier.c:153-279 | every run of every supported queue obeys the rules on its event log: barriers served one at a time in order of submission, each with exactly the stages that its data and the configuration call for, stages in order, nothing ahead of an earlier request, the original ended with the first error after all stages, no BUG |
| OrderedTrace.SequenceStages | linux-stm32f7-master/block/blk-barrier.c:162-219 | a barrier with data goes through exactly the configured stages, one without data through the pre-flush at most |
| OrderedTrace.SequenceOrders | linux-stm32f7-master/block/blk-barrier.c:169-180 | a sequence orders by drain or tag as the queue does, except that one with nothing to issue drains |
| OrderedTrace.KeepsOrderIff | linux-stm32f7-master/block/blk-barrier.c:260-278 | over every run, the queue by itself keeps proxies and endings behind all earlier requests, and requests behind earlier barriers, if and only if it orders by draining |
| OrderedTrace.BarriersServed | linux-stm32f7-master/block/blk-barrier.c:153-233 | all barriers before the one in progress have ended |
| OrderedTrace.EndedOnce | linux-stm32f7-master/block/blk-barrier.c:91-129 | a log that obeys the rules ends a barrier at most once |
| OrderedTrace.BarrierAccounted | linux-stm32f7-master/block/blk-barrier.c:91-233 | after every run each submitted barrier is waiting, in progress or ended, exactly one of the three |
| OrderedService.ServedIff | linux-stm32f7-master/block/blk-barrier.c:153-279 | over every run, an idle driver gets the head or the head starts its sequence, if and only if the queue does not order by tag without flushes |
| OrderedService.PlainTagHangs | linux-stm32f7-master/block/blk-barrier.c:162-180 | a run of the plain tagged queue that ends with an idle driver, a waiting request and nobody to serve it: an empty barrier drains, and a request requeued two barriers late has the wrong colour |
| OrderedService.PlainTagEndsEarly | linux-stm32f7-master/block/elevator.c:834-845 | that run goes on to end the empty barrier while a request before it is not over |
| OrderedTag.StepTag | linux-stm32f7-master/block/elevator.c:592-724 | every step keeps user barriers behind the proxies and a sequence by tag past its drain stage |
| OrderedTag.RequeueTag | linux-stm32f7-master/block/elevator.c:658-672 | a requeued proxy stops before the next barrier, whose colour differs |
| OrderedTag.TagServed | linux-stm32f7-master/block/blk-barrier.c:267-270 | on a queue by tag an idle driver gets the head, since a proxy still to come keeps barriers off it |
| OrderedService.HeadPasses | linux-stm32f7-master/block/blk-barrier.c:258-278 | while a sequence runs and the driver is idle, a head that is subject to the ordering is let through |
| OrderedService.HeadServed | linux-stm32f7-master/block/blk-barrier.c:235-279 | under the invariants an idle driver gets the head, or the head starts its sequence, on draining, tagged and unordered queues |
| OrderedService.IdleDriverServed | linux-stm32f7-master/block/blk-barrier.c:221-278 | a queue other than the plain tagged one withholds a request only while the driver holds one |
| OrderedTrace.OrderlyBarriersEnd | linux-stm32f7-master/block/blk-barrier.c:91-129 | the driver never finishes a barrier itself: it is over only when it is ended |
| OrderedTrace.StepOrderly | linux-stm32f7-master/block/blk-barrier.c:235-279 | each step of the transition system appends only events that the rules allow |
| OrderedSteps.StepInv | linux-stm32f7-master/block/elevator.c:592-724 | every step keeps the invariant of places, kinds, colours, stages and records |
| OrderedSteps.RunInv | linux-stm32f7-master/block/elevator.c:592-724 | the invariant holds after every run |
| OrderedSteps.StartSequenceInv | linux-stm32f7-master/block/blk-barrier.c:153-233 | starting a sequence keeps the invariant, also when every stage is skipped |
| OrderedSteps.RequeueInv | linux-stm32f7-master/block/elevator.c:533-548 | a requeue keeps the invariant wherever the request goes |
| OrderedSteps.SpecialToFront | linux-stm32f7-master/block/blk-barrier.c:75-82 | a requeued special request goes to the front, whatever the ordering does |
| OrderedSteps.CompleteProxyInv | linux-stm32f7-master/block/blk-barrier.c:113-129 | completion of a proxy, in any order, keeps the invariant and never completes a stage twice |
| OrderedSteps.CompleteUserInv | linux-stm32f7-master/block/elevator.c:817-847 | completion of a request keeps the invariant and finishes the drain stage when the last earlier request is done |
| OrderedDrain.StepDrain | linux-stm32f7-master/block/elevator.c:644-687 | on a draining queue every step keeps the dispatch queue in serving order and the driver free of requests that must wait |
| OrderedDrain.RequeueProxyDrain | linux-stm32f7-master/block/elevator.c:644-687 | a requeued proxy lands where the serving order wants it |
| OrderedDrain.PassesOldest | linux-stm32f7-master/block/blk-barrier.c:258-278 | what passes on a draining queue belongs to the oldest barrier's epoch or is the current stage |
| OrdseqMask.FirstZeroBit | linux-stm32f7-master/block/blk-barrier.c:55-60 | the loop finds the lowest clear bit |
| OrdseqMask.LowestClearIsCurrent | linux-stm32f7-master/block/blk-barrier.c:55-60 | the lowest clear bit of the mask is the current stage |
| OrdseqMask.CurrentBit | linux-stm32f7-master/block/blk-barrier.c:55-60 | the bit that is computed stands for the current stage, zero included |
| OrdseqMask.OrBits | linux-stm32f7-master/block/blk-barrier.c:98-99 | or-ing masks completes the union of stages, and masks overlap just when a stage is completed twice |
| OrdseqMask.SetBits | linux-stm32f7-master/block/blk-barrier.c:98-101 | the new mask is the union of stages, and the test finds out whether all are complete |
| OrdseqMask.CompareBits | linux-stm32f7-master/block/blk-barrier.c:272-276 | stage bits compare as the stages they stand for |
| OrdseqMask.IdleBits | linux-stm32f7-master/block/blk-barrier.c:57-60 | the mask is zero just when no sequence runs |
| RequestQueues.RequestQueue.constructor | linux-stm32f7-master/block/blk-barrier.c:44-45 | a new queue is the initial state |
| RequestQueues.RequestQueue.RequestSeq | linux-stm32f7-master/block/blk-barrier.c:62-89 | returns the bit of the stage a request belongs to |
| RequestQueues.RequestQueue.FinishStages | linux-stm32f7-master/block/blk-barrier.c:91-111 | records the first error, completes stages and ends the original when all are complete |
| RequestQueues.RequestQueue.StackProxies | linux-stm32f7-master/block/blk-barrier.c:193-219 | puts the configured proxies at the head, the first to be served in front |
| RequestQueues.RequestQueue.StashOriginal | linux-stm32f7-master/block/blk-barrier.c:153-184 | takes the barrier off the queue and opens the sequence, with the stages of `OrderedTrace.SequenceStages` |
| RequestQueues.RequestQueue.QueueSequence | linux-stm32f7-master/block/blk-barrier.c:153-226 | queues the proxies and works out the stages to skip |
| RequestQueues.RequestQueue.StartOrdered | linux-stm32f7-master/block/blk-barrier.c:153-233 | is the step that starts a sequence, and returns a proxy only if it may pass |
| RequestQueues.RequestQueue.RejectHead | linux-stm32f7-master/block/blk-barrier.c:246-256 | ends an unsupported barrier with an error |
| RequestQueues.RequestQueue.MayPass | linux-stm32f7-master/block/blk-barrier.c:258-278 | decides whether the ordering lets the head through |
| RequestQueues.RequestQueue.DoOrdered | linux-stm32f7-master/block/blk-barrier.c:235-279 | makes only steps of the protocol, hands out only a head that passes, and withholds it only when it does not pass or a sequence waits for the driver to drain |
| RequestQueues.RequestQueue.NextRequest | linux-stm32f7-master/block/blk.h:54-68 | the loop ends, makes only steps of the protocol, returns a head that passes, and returns none only if nothing waits or the ordering withholds it |
| RequestQueues.RequestQueue.PeekRequest | linux-stm32f7-master/block/blk-core.c:1764-1845 | marks the request it returns as started, and returns none only if nothing waits or the ordering withholds it |
| RequestQueues.RequestQueue.DequeueHead | linux-stm32f7-master/block/blk-core.c:1848-1864 | removes the head and counts an accounted one as in flight |
| RequestQueues.RequestQueue.StartRequest | linux-stm32f7-master/block/blk-core.c:1880-1893 | moves the head to the driver |
| RequestQueues.RequestQueue.FetchRequest | linux-stm32f7-master/block/blk-core.c:1911-1919 | what it returns is started and in the driver; an idle driver is refused only if neither the dispatch queue nor the scheduler holds a request, on every queue but the plain tagged one |
| RequestQueues.RequestQueue.DrainScheduler | linux-stm32f7-master/block/elevator.c:550-562 | makes only dispatch steps and leaves the scheduler empty |
| RequestQueues.RequestQueue.TakeColor | linux-stm32f7-master/block/elevator.c:689-700 | the request takes the colour, and a barrier toggles it for those behind |
| RequestQueues.RequestQueue.AddRequest | linux-stm32f7-master/block/elevator.c:592-724 | drains the scheduler where the source does and inserts at the place the source chooses |
| RequestQueues.PlacedBySort | linux-stm32f7-master/block/elevator.c:695-718 | of the requests meant for the scheduler only plain ones with scheduler data reach it; barriers, soft barriers and the rest go to the back |
| RequestQueues.RequestQueue.RequeuePosition | linux-stm32f7-master/block/elevator.c:658-671 | finds the place of a requeued request by stage |
| RequestQueues.RequestQueue.Requeue | linux-stm32f7-master/block/elevator.c:533-548 | is the requeue step |
| RequestQueues.RequestQueue.CompletedRequest | linux-stm32f7-master/block/elevator.c:817-847 | counts the request out and completes the drain stage when the head says so |
| RequestQueues.RequestQueue.EndRequest | linux-stm32f7-master/block/blk-barrier.c:113-129 | is the completion step, for requests and proxies |
| RequestQueues.RequestQueue.BarIoError | linux-stm32f7-master/block/blk-core.c:161-169 | records an error of the bar for the original request |
| Segments.GreedyAhead | linux-stm32f7-master/block/blk-merge.c:118-171 | the greedy partition never has more runs than a valid one, and with as many its last run is no longer |
| Segments.GreedyMinimal | linux-stm32f7-master/block/blk-merge.c:118-171 | the mapping has at most as many entries as any valid partition has runs |
| Segments.GreedyValid | linux-stm32f7-master/block/blk-merge.c:138-145 | every entry respects contiguity, boundary and size |
| Segments.ValidIff | linux-stm32f7-master/block/blk-merge.c:137-147 | a partition is valid if and only if wherever it does not cut the queue clusters, memory is contiguous, the boundary test passes and the run keeps the segment size |
| Segments.RecalcValid | linux-stm32f7-master/block/blk-merge.c:30-62 | a recount describes a valid partition |
| Segments.CutAppend | linux-stm32f7-master/block/blk-merge.c:203-223 | partitions side by side add their counts |
| Segments.CutJoin | linux-stm32f7-master/block/blk-merge.c:293-302 | partitions whose facing runs fit together have one run less, of the sum of the recorded sizes |
| RequestCounts.BackMergeKeeps | linux-stm32f7-master/block/blk-merge.c:225-247 | a back merge, refused or not, leaves counters that describe a valid partition |
| RequestCounts.FrontMergeKeeps | linux-stm32f7-master/block/blk-merge.c:249-272 | the same for a front merge |
| RequestCounts.MergeRequestsKeeps | linux-stm32f7-master/block/blk-merge.c:274-312 | the same for both requests of a request merge, whose sizes are recorded even if it is refused |
| RequestCounts.RecountIsCounted | linux-stm32f7-master/block/blk-merge.c:12-70 | a recount leaves counters that describe a valid partition |
| RequestCounts.SoundIsKept | linux-stm32f7-master/block/blk-merge.c:12-312 | the promise of the counters survives settling, appending, recording, joining and recounting |
| MergeLimits.BackMergeLaw | linux-stm32f7-master/block/blk-merge.c:203-247 | a bio is merged at the back if and only if sectors and both segment limits stay kept; a refusal changes no data and is final |
| MergeLimits.FrontMergeLaw | linux-stm32f7-master/block/blk-merge.c:249-272 | the same at the front |
| MergeLimits.MergeLaw | linux-stm32f7-master/block/blk-merge.c:274-312 | two requests become one if and only if neither is special and the limits stay kept, where runs that join count once |
| MergeLimits.FreshSizes | linux-stm32f7-master/block/blk-merge.c:12-70 | a bio counted for the first time records the sizes of its outer runs |
| MergeLimits.LowCount | linux-stm32f7-master/block/blk-merge.c:35-60 | where no page is high, a recount gives the least possible number of segments |
| MergeLimits.HighAlone | linux-stm32f7-master/block/blk-merge.c:30-37 | a high page is joined to neither neighbour |
| RequestPool.MappingFits | linux-stm32f7-master/block/blk-merge.c:118-171 | after every history each request maps to at most nr_phys_segments entries |
| PoolLimits.LimitsKept | linux-stm32f7-master/block/blk-merge.c:203-312 | over every history, requests built from bios within the sector and segment limits stay within them |
| PoolLimits.DeviceFits | linux-stm32f7-master/block/blk-merge.c:118-171 | over every history, what remains to do of a dispatched request maps to no more entries than the segment limits, for any boundary test that holds on for vectors cut at their front |
| PoolLimits.UpdateMaps | linux-stm32f7-master/block/blk-core.c:1973-2071 | what a completion leaves takes no more entries to map than before, and is recounted |
| PoolLimits.WindowsAreCuttable | linux-stm32f7-master/include/linux/bio.h:274-277 | the boundary test keeps holding for a vector cut at its front |
| PoolLimits.LowRecount | linux-stm32f7-master/block/blk-core.c:2070-2071 | where no page is high, the recount after a completion keeps the segment limits |
| PoolLimits.HighRecount | linux-stm32f7-master/block/blk-core.c:2070-2071 | where every page is high, the recount after a completion is the number of vectors left, so it keeps the limits just when that does |
| RequestPool.LookupExact | linux-stm32f7-master/block/elevator.c:303-348 | after every history each waiting request is one contiguous range, and the hash finds a mergeable request ending at a sector just when one waits |
| RequestPool.StepInv | linux-stm32f7-master/block/blk-core.c:1181-1241 | submission, merging, dispatch and completion keep counts, ranges and hash in order |
| RequestPool.RunFromEmpty | linux-stm32f7-master/block/blk-core.c:1181-1241 | the invariant, and with it what every further event demands, holds after every history |
| RequestPool.ChooseOk | linux-stm32f7-master/block/elevator.c:470-503 | the merge that elv_merge picks is with a mergeable neighbour |
| PoolMerges.SubmissionConserves | linux-stm32f7-master/block/blk-core.c:1181-1241 | over every history, the vectors of a submitted bio end up in one request, between those of the neighbours it was merged with; nothing else is gained, lost or moved |
| PoolMerges.NeighbourMerged | linux-stm32f7-master/block/elevator.c:470-503 | over every history, a bio that starts where a request ends makes no request of its own, if its neighbours may take it and have room |
| PoolMerges.ChooseFinds | linux-stm32f7-master/block/elevator.c:470-503 | a candidate that may merge is never passed over |
| PoolMerges.OnlyOpenRequests | linux-stm32f7-master/block/elevator.c:74-126 | a merge is offered only to requests that were never refused, are not special and agree with the bio |
| PoolMerges.OnlyOpenNeighbours | linux-stm32f7-master/block/blk-merge.c:366-381 | requests are merged only if both are open and one ends where the other starts |
| RequestPool.AfterBackInv | linux-stm32f7-master/block/blk-merge.c:363-434 | a back merge followed by a request merge, made or refused, keeps the invariant |
| RequestPool.AfterFrontInv | linux-stm32f7-master/block/blk-merge.c:363-434 | the same for a front merge, which does not rehash |
| BlockRequests.CountSegments | linux-stm32f7-master/block/blk-merge.c:12-70 | the loops compute the recount and raise the recorded sizes |
| BlockRequests.MapSg | linux-stm32f7-master/block/blk-merge.c:118-171 | the loops set up the greedy number of entries, these cover exactly the bytes of the request in order, and none of several vectors is longer than a segment may be |
| BlockRequests.Settle | linux-stm32f7-master/block/blk-merge.c:77-85 | a bio is recounted unless its count is valid |
| BlockRequests.Request.NewHwSegment | linux-stm32f7-master/block/blk-merge.c:203-223 | adds the segments just when both segment limits are kept; otherwise marks the request as unmergeable and leaves the count |
| BlockRequests.Request.BackMergeBio | linux-stm32f7-master/block/blk-merge.c:225-247 | is the back merge, whose outcome `MergeLimits.BackMergeLaw` gives |
| BlockRequests.Request.FrontMergeBio | linux-stm32f7-master/block/blk-merge.c:249-272 | is the front merge, whose outcome `MergeLimits.FrontMergeLaw` gives |
| BlockRequests.Request.MergeNext | linux-stm32f7-master/block/blk-merge.c:274-312 | is the request merge, whose outcome `MergeLimits.MergeLaw` gives, with sizes recorded before the last refusals |
| BlockRequests.Request.RecalcSegments | linux-stm32f7-master/block/blk-merge.c:72-75 | replaces the count by a recount |
| BlockRequests.Request.AdvanceBios | linux-stm32f7-master/block/blk-core.c:1973-2023 | the loop drops the bios that are done and stops in the right vector |
| BlockRequests.Request.CutFirst | linux-stm32f7-master/block/blk-core.c:2041-2046 | the first bio left starts at the first byte that is not done |
| BlockRequests.Request.UpdateRequest | linux-stm32f7-master/block/blk-core.c:1944-2074 | is the completion of n bytes, says whether data remain, and the branch for a botched request changes nothing |
| RequestCompletion.UpdateConserves | linux-stm32f7-master/block/blk-core.c:1944-2074 | exactly the first min(n, length) bytes are gone, the length is that of the rest, and nothing is left just when n reached the end |
| RequestCompletion.UpdateLength | linux-stm32f7-master/block/blk-core.c:2028-2053 | the length falls by n or to zero, and the sector advances by n / 512 for kinds that have one |
| RequestCompletion.UpdateTwice | linux-stm32f7-master/block/blk-core.c:1944-2074 | completing a and then b bytes leaves what completing a + b bytes leaves, with the same sectors if a is whole sectors |
| RequestCompletion.DropExact | linux-stm32f7-master/block/blk-core.c:1973-2046 | the addresses of the remaining bytes are those of the old ones without the first n |
| RequestCompletion.DropTwice | linux-stm32f7-master/block/blk-core.c:1973-2046 | dropping bytes twice leaves the same vectors as dropping their sum |
| RequestRanges.UpdateRanged | linux-stm32f7-master/block/blk-core.c:2041-2053 | a partial completion in whole sectors moves the start of the range and keeps its end |
| RequestRanges.BackMergeRanged | linux-stm32f7-master/block/blk-core.c:1183-1203 | a back merge extends the range at its end |
| RequestRanges.FrontMergeRanged | linux-stm32f7-master/block/blk-core.c:1205-1235 | a front merge extends the range at its start and keeps its end |
| RequestRanges.MergeRequestsRanged | linux-stm32f7-master/block/blk-merge.c:363-434 | a request merge covers both ranges; a refused one leaves both |
| MergeHash.FindIff | linux-stm32f7-master/block/elevator.c:328-348 | lookup finds a waiting mergeable request that ends at the sector just when there is one |
| MergeHash.FindKeeps | linux-stm32f7-master/block/elevator.c:335-345 | entries that cannot merge any more may be dropped, and the table stays in order and complete |
| MergeHash.Reposition | linux-stm32f7-master/block/elevator.c:322-326 | repositioning a grown request puts the table in order again |
| MergeHash.SameEnd | linux-stm32f7-master/block/elevator.c:505-516 | a request that keeps its end sector and does not become mergeable again need not be rehashed |
| MergeHash.RqHash.RqhashFind | linux-stm32f7-master/block/elevator.c:328-348 | the loop returns what lookup specifies and unlinks unmergeable entries on the way |
| MergeHash.RqHash.RqhashReposition | linux-stm32f7-master/block/elevator.c:322-326 | deletes and adds, and keeps the table in order |
| DeadlineRuns.WritesNotStarved | linux-stm32f7-master/block/deadline-iosched.c:245-327 | while writes wait, at most (writes_starved+1)*max(1,fifo_batch) dispatches in a row take reads, whatever happens in between |
| DeadlineDispatch.DispatchLaw | linux-stm32f7-master/block/deadline-iosched.c:245-327 | in every reachable state, which request a dispatch takes: the next of a batch that goes on; else, in the direction that starvation calls for, one of the earliest deadline if a deadline has passed or there is no next, and the next otherwise |
| DeadlineDispatch.MoveNext | linux-stm32f7-master/block/deadline-iosched.c:206-222 | the next of the batch is the first request of the direction above the one just moved |
| DeadlineDispatch.ArrivalBetween | linux-stm32f7-master/block/deadline-iosched.c:76-84 | a new request leaves the next of the batch alone, which is then still the first above a sector if and only if the new one is not in between |
| DeadlineDispatch.Arrival | linux-stm32f7-master/block/deadline-iosched.c:100-113 | a request arrives with the deadline of its direction, and at most an alias at its sector leaves for it |
| DeadlineDispatch.FrontMergeKeeps | linux-stm32f7-master/block/deadline-iosched.c:156-168 | a front merge gives a request its new start and keeps its deadline |
| DeadlineRuns.IndexesAgree | linux-stm32f7-master/block/deadline-iosched.c:76-222 | in every reachable state tree and FIFO hold the same requests with distinct sectors, next_rq is queued and in one direction, nr_sorted counts what is held |
| DeadlineRuns.EarliestFirst | linux-stm32f7-master/block/deadline-iosched.c:228-239 | the head of a FIFO has the earliest deadline of its direction |
| DeadlineRuns.EarlierDeadlineKept | linux-stm32f7-master/block/deadline-iosched.c:170-189 | the survivor of a request merge keeps the earlier deadline |
| DeadlineRuns.DrainEmpties | linux-stm32f7-master/block/elevator.c:550-562 | as many dispatches as requests are held empty the scheduler and leave nr_sorted at 0, at any non-decreasing times |
| DeadlineSteps.StepInv | linux-stm32f7-master/block/deadline-iosched.c:76-327 | every operation keeps both indexes, their orders and the counts |
| DeadlineRuns.RunInv | linux-stm32f7-master/block/deadline-iosched.c:76-327 | the invariant holds after every run |
| DeadlineRuns.PatienceShrinks | linux-stm32f7-master/block/deadline-iosched.c:256-324 | each read that passes waiting writes uses up patience |
| DeadlineSteps.AddInv | linux-stm32f7-master/block/deadline-iosched.c:100-113 | adding, with an alias dispatched first, keeps the invariant |
| DeadlineSteps.FrontMergedInv | linux-stm32f7-master/block/deadline-iosched.c:156-168 | repositioning after a front merge keeps the invariant |
| DeadlineSteps.BackMergedInv | linux-stm32f7-master/block/deadline-iosched.c:156-168 | a back merge, which moves nothing, keeps the invariant |
| DeadlineSteps.MergedInv | linux-stm32f7-master/block/deadline-iosched.c:170-189 | merging two requests keeps the invariant |
| DeadlineSteps.DispatchInv | linux-stm32f7-master/block/deadline-iosched.c:245-327 | a dispatch removes one request if any is held |
| DeadlineInvariant.AddTreeCore | linux-stm32f7-master/block/deadline-iosched.c:76-84 | inserting, with an alias dispatched first, places the request and keeps nr_sorted in step with what is held |
| DeadlineInvariant.MoveCore | linux-stm32f7-master/block/deadline-iosched.c:206-222 | moving a request to the dispatch queue keeps both indexes |
| DeadlineQueue.DeadlineData.AddRqRb | linux-stm32f7-master/block/deadline-iosched.c:76-84 | the loop over aliases ends and inserts the request |
| DeadlineQueue.DeadlineData.RemoveRequest | linux-stm32f7-master/block/deadline-iosched.c:86-124 | takes a request off both indexes and steps next_rq on |
| DeadlineQueue.DeadlineData.MoveRequest | linux-stm32f7-master/block/deadline-iosched.c:206-222 | is the move to the dispatch queue |
| DeadlineQueue.DeadlineData.AddRequest | linux-stm32f7-master/block/deadline-iosched.c:100-113 | is the addition, with its deadline |
| DeadlineQueue.DeadlineData.MergedRequest | linux-stm32f7-master/block/deadline-iosched.c:156-168 | is the repositioning after a front merge |
| DeadlineQueue.DeadlineData.MergedRequestPair | linux-stm32f7-master/block/deadline-iosched.c:170-189 | is the merge of two requests |
| DeadlineQueue.DeadlineData.SelectRequest | linux-stm32f7-master/block/deadline-iosched.c:245-316 | picks what `DeadlineDispatch.DispatchLaw` calls for, and counts reads that pass writes |
| DeadlineQueue.DeadlineData.DispatchRequests | linux-stm32f7-master/block/deadline-iosched.c:245-327 | is the dispatch of `DeadlineDispatch.DispatchLaw`, and returns false just when nothing is queued |
| DeadlineQueue.DeadlineData.DrainElevator | linux-stm32f7-master/block/elevator.c:550-562 | the loop ends with both indexes empty and nr_sorted 0, however much time passes between dispatches |
| DispatchSort.DispatchQueue.DispatchSort | linux-stm32f7-master/block/elevator.c:411-447 | inserts behind the last request that stops it, never ahead of a started or barrier one, with the others in their order, and keeps trailing runs in scan order |
| DispatchSort.SortsInOrder | linux-stm32f7-master/block/elevator.c:411-447 | over any sequence of insertions with a fixed boundary every trailing run of one unfenced kind stays in one-way scan order, whatever lies in front of it and whatever is inserted |
| DispatchSort.TailInserted | linux-stm32f7-master/block/elevator.c:424-446 | one insertion keeps every trailing run in scan order |
| DispatchSort.FenceRestarts | linux-stm32f7-master/block/elevator.c:695-715 | behind a barrier any boundary will do, so end_sector may move when one is queued |
| DispatchSort.RunInOrder | linux-stm32f7-master/block/elevator.c:426-444 | such a run is in scan order as a whole, not only neighbour by neighbour |
| DispatchSort.RunGrows | linux-stm32f7-master/block/elevator.c:426-444 | a request of the trailing run's kind stays within that run |
| BlkTags.TagsAreExact | linux-stm32f7-master/block/blk-tag.c:219-383 | after every run a bit is set just when its slot names the request queued under that tag, and no tag is held twice |
| BlkTags.LastTwoForSync | linux-stm32f7-master/block/blk-tag.c:354-371 | at a fixed depth of three or more asynchronous requests never hold the last two tags |
| BlkTags.ReserveKept | linux-stm32f7-master/block/blk-tag.c:354-371 | at any fixed depth asynchronous requests never hold a tag of the reserve |
| BlkTags.ReserveIff | linux-stm32f7-master/block/blk-tag.c:357-364 | there is a reserve if and only if the depth is at least two, and it is two tags if and only if the depth is at least three |
| BlkTags.StartsIff | linux-stm32f7-master/block/blk-tag.c:336-383 | a request is started if and only if a tag is free within its reach, and takes the lowest; a synchronous request reaches every tag |
| BlkTags.EndFrees | linux-stm32f7-master/block/blk-tag.c:281-315 | a returned tag is free again, and no other tag changes |
| BlkTags.ResizeDepth | linux-stm32f7-master/block/blk-tag.c:106-137 | the map grows to the new depth or twice nr_requests, whichever is less, and keeps what it holds; within the map only the depth changes |
| BlkTags.StartInv | linux-stm32f7-master/block/blk-tag.c:336-383 | handing out a tag keeps map, index and busy list in agreement |
| BlkTags.EndInv | linux-stm32f7-master/block/blk-tag.c:281-315 | taking a tag back keeps them in agreement |
| BlkTags.ResizeInv | linux-stm32f7-master/block/blk-tag.c:219-264 | growing and shrinking keep every outstanding tag valid |
| BlkTags.RunInv | linux-stm32f7-master/block/blk-tag.c:219-404 | the invariant, and with it what the operations demand, holds after every run |
| BlkTags.RequeueHead | linux-stm32f7-master/block/elevator.c:644-661 | requeueing the latest started request frees its tag and puts it in front |
| BlkTags.InvalidateIs | linux-stm32f7-master/block/blk-tag.c:398-404 | invalidation frees every tag and puts the tagged requests ahead of the old queue |
| BlkTags.InvalidationKeepsOrder | linux-stm32f7-master/block/blk-tag.c:377-404 | after every run, invalidation frees every tag and leaves exactly the tagged requests, in order of start, ahead of the old queue |
| BlkTags.StartOrder | linux-stm32f7-master/block/blk-tag.c:377-404 | of two requests on the busy list read backwards the first was started first |
| BlkQueueTags.FindFirstZeroBit | linux-stm32f7-master/block/blk-tag.c:366-371 | returns the first clear bit below the limit |
| BlkQueueTags.BlkQueueTag.StartTag | linux-stm32f7-master/block/blk-tag.c:336-383 | is the start of a request under a tag, or its refusal |
| BlkQueueTags.BlkQueueTag.EndTag | linux-stm32f7-master/block/blk-tag.c:281-315 | is the return of a tag |
| BlkQueueTags.BlkQueueTag.ResizeTags | linux-stm32f7-master/block/blk-tag.c:219-264 | copies both arrays when it grows and only lowers the depth when it shrinks |
| BlkQueueTags.BlkQueueTag.InvalidateTags | linux-stm32f7-master/block/blk-tag.c:398-404 | the loop empties the busy list and leaves the specified queue |
| RequestLists.NoStrandedSleeper | linux-stm32f7-master/block/blk-core.c:646-860 | for nr_requests >= 1, after every run: a sleeper without a pending wake-up has requests out in its direction or the starved mark; the count is the number of requests out, at most 3*nr_requests/2; and a direction is marked full if and only if nr_requests are out |
| RequestLists.FreeingWakes | linux-stm32f7-master/block/blk-core.c:680-711 | freeing a request of the direction while its count is at most nr_requests, or one of the other direction under the starved mark, wakes a sleeper |
| RequestLists.GrantedIff | linux-stm32f7-master/block/blk-core.c:718-801 | after every run, a request is granted if and only if the scheduler does not object and fewer than nr_requests are out, or fewer than 3*nr_requests/2 for a batcher; otherwise a waiting task sleeps |
| RequestLists.WakesOne | linux-stm32f7-master/block/blk-core.c:680-693 | a notification wakes one sleeper if there is one and room below nr_requests |
| RequestLists.TakeInv | linux-stm32f7-master/block/blk-core.c:718-815 | whatever the outcome of an allocation, no sleeper is stranded |
| RequestLists.FreedInv | linux-stm32f7-master/block/blk-core.c:699-711 | freeing a request keeps both directions free of stranded sleepers |
| RequestLists.RunInv | linux-stm32f7-master/block/blk-core.c:646-860 | the invariant of both directions holds after every run |
| RequestLists.RequestList.NotifyFreed | linux-stm32f7-master/block/blk-core.c:680-693 | wakes one sleeper and clears the full mark below the limit |
| RequestLists.RequestList.FreedRequest | linux-stm32f7-master/block/blk-core.c:699-711 | counts the request out and notifies both directions as the source does |
| RequestLists.RequestList.GetRequest | linux-stm32f7-master/block/blk-core.c:718-815 | takes a request, or refuses because the scheduler says no, the queue is full or the limit is reached |
| CfqChoice.NeighbourIsBest | linux-stm32f7-master/block/cfq-iosched.c:747-769 | among requests of one class the chosen neighbour is as close as every other request, by distance, penalty and wrap |
| CfqChoice.ChosenBeatsIff | linux-stm32f7-master/block/cfq-iosched.c:613-769 | for requests of any classes, exactly when the chosen neighbour is preferred to a given request: by the classes of the two neighbours and whether the predecessor wraps |
| CfqChoice.HigherClassMissed | linux-stm32f7-master/block/cfq-iosched.c:627-634 | a request whose class is above that of both neighbours is always missed |
| CfqChoice.NeighbourBeats | linux-stm32f7-master/block/cfq-iosched.c:751-768 | what lies ahead is no closer than the successor, what lies behind no closer than the predecessor or the first |
| CfqChoice.ChoiceIsOrder | linux-stm32f7-master/block/cfq-iosched.c:613-699 | the preference is transitive and decides every pair |
| CfqChoice.ChoiceIsCloser | linux-stm32f7-master/block/cfq-iosched.c:636-698 | within a class the choice is the closer sector, where sectors behind count back_penalty times as far and those beyond back_max come last, the lowest first |
| CfqChoice.AcrossTheHead | linux-stm32f7-master/block/cfq-iosched.c:649-661 | a sector ahead beats one behind if and only if its distance is at most back_penalty times that of the other, and always if the other is beyond back_max |
| CfqChoice.CloserOrder | linux-stm32f7-master/block/cfq-iosched.c:642-698 | on one side of the head: ahead the lower sector is closer; behind it the higher one, unless that wraps |
| CfqChoice.ClassMatters | linux-stm32f7-master/block/cfq-iosched.c:627-634 | a concrete queue with a missed metadata request two places behind |
| CamelliaWords.FLRoundTrip | linux-stm32f7-master/crypto/camellia.c:854-868 | FL and its inverse undo each other |
| CamelliaWords.FLShift | linux-stm32f7-master/crypto/camellia.c:439-460 | a key difference passes FL as the tail computes it |
| CamelliaWords.FLInvShift | linux-stm32f7-master/crypto/camellia.c:394-421 | a key difference passes the inverse of FL as the tail computes it |
| CamelliaBlocks.Simulate | linux-stm32f7-master/crypto/camellia.c:887-940 | if every block and layer simulates its counterpart, so does the run |
| CamelliaBlocks.Undo | linux-stm32f7-master/crypto/camellia.c:942-995 | blocks undone from the last on undo the run |
| CamelliaBlocks.Redo | linux-stm32f7-master/crypto/camellia.c:887-995 | the run redoes what was undone block by block |
| CamelliaCipher.DecryptUndoesEncrypt | linux-stm32f7-master/crypto/camellia.c:887-995 | for every table decryption inverts encryption, with the caller's swaps |
| CamelliaCipher.EncryptUndoesDecrypt | linux-stm32f7-master/crypto/camellia.c:887-995 | for every table encryption inverts decryption, so both are bijections |
| CamelliaCipher.RoundUndo | linux-stm32f7-master/crypto/camellia.c:870-884 | a round applied twice with the same key gives the half back |
| CamelliaCipher.FlsUndo | linux-stm32f7-master/crypto/camellia.c:854-868 | the layer with keys and halves exchanged undoes itself |
| CamelliaSchedule.RoundAddsKey | linux-stm32f7-master/crypto/camellia.c:561-577 | with a key treated by the inverse of P, a round adds the key behind the S-boxes |
| CamelliaSchedule.AbsorbedBlocks | linux-stm32f7-master/crypto/camellia.c:387-468 | the run under the raw keys is the run with kw2 and kw4 absorbed, off by the two masks carried to the end |
| CamelliaSchedule.FoldedBlocks | linux-stm32f7-master/crypto/camellia.c:470-559 | with folded keys the run ends in the plain run's outcome, off by the last folded key |
| CamelliaSchedule.TableComputesCamellia | linux-stm32f7-master/crypto/camellia.c:381-578 | for every number of blocks and any tables, encryption with the finished table is the structure of section 2.3 of RFC 3713 under the raw subkeys, around the F-function that the tables give |
| CamelliaStandard.TablesGiveF | linux-stm32f7-master/crypto/camellia.c:359-376 | for any four S-boxes, the F-function computed from tables laid out as their names say is the byte-wise one of section 2.4.1 of RFC 3713 |
| CamelliaStandard.RoundIsStandard | linux-stm32f7-master/crypto/camellia.c:870-884 | a round with a treated key is the F-function of the standard with the key added behind it |
| CamelliaStandard.TableComputesStandard | linux-stm32f7-master/crypto/camellia.c:381-578 | encryption with the finished table is the cipher of RFC 3713 under the raw subkeys |
| CamelliaStandard.DecryptsStandard | linux-stm32f7-master/crypto/camellia.c:942-995 | decryption with the finished table inverts the cipher of RFC 3713 |
| CamelliaStandard.RotateValue | linux-stm32f7-master/crypto/camellia.c:854-868 | the rotation of FL doubles the number and brings its top bit back at the bottom |
| CamelliaCode.AbsorbKw2InPlace | linux-stm32f7-master/crypto/camellia.c:387-429 | the statements compute the schedule without kw2; the scratch entry 1 is not read again |
| CamelliaCode.AbsorbKw4InPlace | linux-stm32f7-master/crypto/camellia.c:416-468 | the statements compute the schedule without kw4 |
| CamelliaCode.FoldKeys | linux-stm32f7-master/crypto/camellia.c:470-559 | the statements fill the table with folded keys |
| CamelliaCode.InvertKeys | linux-stm32f7-master/crypto/camellia.c:561-577 | the loop applies the inverse of P to the round keys and to no other |
| CamelliaCode.SetupTail | linux-stm32f7-master/crypto/camellia.c:381-578 | for both table sizes the finished table is the specified one |
| CamelliaCode.RoundInPlace | linux-stm32f7-master/crypto/camellia.c:870-884 | is one round on the block in place, the round of `CamelliaStandard.RoundIsStandard` |
| CamelliaCode.FlsInPlace | linux-stm32f7-master/crypto/camellia.c:854-868 | is FL on one half and its inverse on the other |
| CamelliaCode.DoEncrypt | linux-stm32f7-master/crypto/camellia.c:887-940 | is the encryption of the block in place |
| CamelliaCode.DoDecrypt | linux-stm32f7-master/crypto/camellia.c:942-995 | is the decryption of the block in place |
| CamelliaCode.Encrypt | linux-stm32f7-master/crypto/camellia.c:1033-1055 | encrypts and swaps the halves |
| CamelliaCode.Decrypt | linux-stm32f7-master/crypto/camellia.c:1057-1079 | decrypts and swaps the halves |
| CamelliaCode.EncryptUnder | linux-stm32f7-master/crypto/camellia.c:1033-1055 | table setup and encryption together are the cipher of RFC 3713 under the raw subkeys |
| CamelliaCode.DecryptUnder | linux-stm32f7-master/crypto/camellia.c:1057-1079 | table setup and decryption find the one block that the cipher of RFC 3713 takes to the input |
| Cbc.DecryptEncrypt | linux-stm32f7-master/crypto/cbc.c:42-191 | decryption undoes encryption, for any invertible block function |
| Cbc.EncryptSplit | linux-stm32f7-master/crypto/cbc.c:90-112 | a message may be split anywhere if the chaining value is carried |
| Cbc.DecryptSplit | linux-stm32f7-master/crypto/cbc.c:169-191 | the same for decryption |
| Cbc.StartIsLastBlock | linux-stm32f7-master/crypto/cbc.c:151-153 | the masked start is that of the last whole block, for every number of bytes, if and only if the block size is a power of two |
| BitMask.MaskIsRemainder | linux-stm32f7-master/crypto/cbc.c:152 | masking with n - 1 takes the remainder by n, for every number, if and only if n passes the power-of-two test |
| BitMask.OnlyPowersPass | linux-stm32f7-master/include/linux/log2.h:51-55 | what the test accepts is a power of two |
| BitMask.PowersPass | linux-stm32f7-master/include/linux/log2.h:51-55 | the test accepts every power of two |
| Cbc.EncryptSegment | linux-stm32f7-master/crypto/cbc.c:42-64 | equals the specification on its stretch, leaves the rest alone and carries the chaining value |
| Cbc.EncryptInPlace | linux-stm32f7-master/crypto/cbc.c:66-88 | the same in place |
| Cbc.DecryptSegment | linux-stm32f7-master/crypto/cbc.c:114-138 | the same for decryption |
| Cbc.DecryptInPlace | linux-stm32f7-master/crypto/cbc.c:140-167 | the backward loop, from the start it computes with the mask of the block size, equals the specification |
| Cbc.CbcEncrypt | linux-stm32f7-master/crypto/cbc.c:90-112 | for any split into chunks, in place or not, the result is the specification on the whole message |
| Cbc.CbcDecrypt | linux-stm32f7-master/crypto/cbc.c:169-191 | for any power-of-two block size and any split into chunks, in place or not, the result is the specification on the whole message |
| TftpSafety.ClientHoldsPrefix | tools/tftp_server.py:52-87 | under any loss and duplication the client holds a prefix of the file, and all of it when it saw the last block |
| TftpSafety.CompleteMeansDelivered | tools/tftp_server.py:78-87 | when the server reports completion the client holds the whole file |
| TftpSafety.PacketBound | tools/tftp_server.py:62-77 | at most 5*(len/blksize+1) DATA packets are sent |
| TftpSafety.WireIsMask | tools/tftp_server.py:59 | on the wire a block number is its low sixteen bits |
| TftpSafety.ZeroNeverCompletes | tools/tftp_server.py:57-87 | with a block size of zero no run of the protocol completes |
| TftpTrail.AnsweredCompletesIff | tools/tftp_server.py:57-85 | with a client that acknowledges whatever is asked, the transfer completes if and only if the block size is at least one, and at zero it never stops |
| TftpTrail.AnsweredCompletes | tools/tftp_server.py:57-85 | len/blksize + 2 answers complete a transfer |
| TftpTrail.ZeroStopsIff | tools/tftp_server.py:57-85 | at block size zero the server stops, always in failure, if and only if the client does not acknowledge the options or five replies in a row leave out the block asked for |
| TftpTrail.PatientAnswers | tools/tftp_server.py:57-85 | for every file and block size there is a client that always answers |
| TftpTrail.RunFollows | tools/tftp_server.py:33-87 | along every run of the protocol the server is the one the loops follow, on the replies it consumed |
| TftpTrail.LoopsDeliver | tools/tftp_server.py:78-87 | when the loops report completion on the replies of a run, the client of that run holds the file |
| TftpSafety.StepInv | tools/tftp_server.py:52-87 | every step keeps what both ends and all packets under way agree on, so that a wrapped number is never taken for another block |
| TftpSafety.RunInv | tools/tftp_server.py:52-87 | the agreement holds after every run |
| TftpServer.SendBlock | tools/tftp_server.py:62-77 | the retry loop follows the server of the protocol, reply by reply |
| TftpServer.HandleClient | tools/tftp_server.py:33-87 | whenever the loops of the source end, they send what the server of the protocol sends and report completion just when it completes, which it does if the client answers |

## Left out

- Locks, interrupts, timers, plugging, congestion flags, statistics and tracing: a locked region is one step.
- Ordering by tag: what the device does with the tags. There only the part of the rules called `Lawful` holds; `OrderedTrace.KeepsOrderIff` shows that the part called `InOrder` fails.
- Several values of `next_ordered` in one run, `elv_abort_queue`, elevator switching and `prep_rq_fn`: not part of the ordered-write model.
- The two counters `in_flight[2]` of the queue: kept as their sum, which is all the ordering looks at.
- Requests other than fs requests that carry `REQ_HARDBARRIER` into `__elv_add_request`: not submitted in this model.
- Fs requests inserted at the front: excluded, as the comment at `blk-barrier.c:187-192` demands of callers.
- Bios without data: `blk_phys_contig_segment` treats them as contiguous to anything, so requests here carry data.
- The segment count of a partly completed request with both high and low pages: only the two extremes are stated; the number of mapped entries is bounded in every case.
- Padding and drain entries of `blk_rq_map_sg`, bounce buffers, integrity data, discard payloads and mixed-merge flags.
- The partial completion of `bar_rq`: `req_bio_endio` deliberately leaves its bios alone.
- Direction, disk and integrity in the merge tests: one set of requests that agree, chosen freely for every bio.
- Batches of `struct io_context`: whether a task is a batcher is a free choice at every attempt.
- Negative `writes_starved`, wrapping jiffies, and tag growth when twice `nr_requests` is below the old real depth.
- The rest of CFQ: slices, groups, idling and its merged queues.
- The generation of the raw Camellia subkeys and the contents of the S-box tables; byte order of the block.
- The scatterlist walk of the crypto layer: an arbitrary split into chunks of whole blocks.
- TFTP: opening the file, parsing the request, error packets, strays from other hosts, and negative block sizes.
- Cbc.EncryptSegment: the two operands of the exclusive or come in one fixed order; as in the other loops a block is one value, not a row of bytes.
- TftpServer.HandleClient: at block size zero a client for which the source's loop does not end is excluded; `TftpTrail.ZeroStopsIff` says which clients those are.
- The test of asynchronous requests in flight in `blk_queue_start_tag`, and `blk_queue_nomerges`: the first is a free choice, the second is off.
