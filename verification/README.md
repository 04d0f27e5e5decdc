# Proofs about ArbiterThread

ArbiterThread separates the threads of one program by labels, with a small monitor, a modified
Linux 2.6.32 kernel and a dlmalloc-style heap.  This project models its hardest parts in Dafny and
proves what they promise, for all inputs, all runs or all reachable states.

The heap (`Heap*.dfy`) is the boundary-tag allocator on an array of words: head and foot words,
fast lists, circular bins, the bitmap, the unsorted queue, the top.  Every call keeps the invariant
that the source writes down as run-time checks, and whole runs refine a map from blocks to contents.
Which chunk malloc takes and what free makes of one are rules on the heap before the call
(`HeapRules.dfy`).  Where a comment and the code differ the code is followed: the last remainder is used
if it is the unsorted chunk that is reached last, not only if it is the only one.

The block layer is the ordered-write protocol of the request queue (`Barrier*.dfy` on values,
`BlockQueue.dfy` as the queue itself), segment counting and merging (`Segments.dfy`,
`BlkMerge.dfy`), partial completion (`BlkUpdate.dfy`), submission without recursion (`Submit.dfy`)
and tags (`BlkTag.dfy`).  The schedulers are deadline (`Deadline*.dfy`), anticipatory (`As*.dfy`)
and CFQ (`Cfq*.dfy`).

AES (`Aes*.dfy`) is the table-driven cipher against FIPS-197.  The monitor (`Labels.dfy`,
`Monitor*.dfy`) is the label check and the handlers that fork, join, create categories and
allocate.  The names of algorithm instances are in `AlgName.dfy` and `AlgScan.dfy`.

Where the source updates state in place there is a class whose methods are proved against functions
on values; the properties over runs are lemmas about those functions.  `dafny verify
dfyconfig.toml` checks everything.

Some promises do not hold as one would first state them.  Each of these has a counterexample and an exact
condition (for stranded requests, among insertions that do not mislead):

- bin order at 4 GiB and more (`BinAt4GiB`, `BinOrderIff`), and the assertion of the bin search there
  (`LaterBinsFitIff`);
- barrier ordering with HARDBARRIER on requests that are not file system requests: later requests can
  overtake (`OneHardBreaks`, `OrderingIff`, `LateIff`), and earlier ones be stranded, which wedges the
  queue or lets the barrier go first (`OneHardStrands`, `WedgeIff`, `FlushIff`, `LeaveIff`);
- expired reads going in time (`ReadsCanWait`, `ReadsGoIff`), and a batch going up in sectors when its next
  request grows at the front (`FrontCanFallBack`, `RunUpwardIff`);
- trimming keeping a page (`TrimCanKeepLess`, `TrimKeepsPageIff`);
- growing a tag map (`GrowthCanOverrun`, `Tags.Resize`);
- the anticipatory scheduler's cached request (`DispatchNeedNotBeBest`, `DispatchBestIff`);
- CFQ's order of service when a queue in the tree changes its class (`ClassCanBreakOrder`,
  `ChangedSortedIff`);
- the protection of the thread that maps a unit (`MappingNeedNotBeWithin`, `MappedWithinIff`), and all
  protections when a pid is used twice (`ReusedPidExceeds`, `RunHoldsIff`);
- that owners of a category descend from its maker (`TypeBitsClash`, `ExhaustedClash`, `RunDescendsIff`),
  and that a category binds a family (`ExhaustedFrees`, `RunConfinedIff`).

One more has a counterexample and a condition that is exact for the invariant behind it: that no step of a
barrier goes while the driver has an earlier request (`ReturnedBarrierBreaks`, `RunStrandsIff`,
`StepsWaitForDriver`).

## Model

| member | source | states |
|---|---|---|
| `HeapSizes.RequestToSize` | arbiter/compare_test/malloc-standard/malloc.h:506-509 | The padded size is aligned, at least the minimum, has room for the request and its head word, and is the least such size |
| `HeapSizes.RetrySizeIsStable` | arbiter/compare_test/malloc-standard/malloc.c:377-381 | The request that the retry makes from a padded size pads back to that size, for both word widths |
| `HeapSizes.HighBitIsLog2` | arbiter/compare_test/malloc-standard/malloc.c:771-786 | The branch-free computation, with its unsigned wrap-around, is the floor of the base-2 logarithm of every nonzero 16-bit value |
| `HeapSizes.BinIndexRange` | arbiter/compare_test/malloc-standard/malloc.c:756-791 | Every size below 4 GiB has a bin between 2 and 95, and exactly the large sizes have one from 32 on |
| `HeapSizes.BinIndexMonotone` | arbiter/compare_test/malloc-standard/malloc.c:756-791 | Below 4 GiB a larger size never has an earlier bin |
| `HeapSizes.BinHolds` | arbiter/compare_test/malloc-standard/malloc.c:756-791 | Large bins start at 256, 320, 384 and 448 and so on for each power of two: a size is in the bin that starts at or below it while the next starts above it, and from 2^24 on in the last |
| `HeapSizes.BinAt4GiB` | arbiter/compare_test/malloc-standard/malloc.c:756-791 | A chunk of 4 GiB gets bin 28: the unsigned int argument drops the upper bits of its size, and the bit count of 0 wraps around |
| `HeapSizes.BinOrderIff` | arbiter/compare_test/malloc-standard/malloc.c:756-791 | The aligned sizes below a limit are binned in order exactly if the limit is at most 4 GiB |
| `HeapSizes.LaterBinsFitIff` | arbiter/compare_test/malloc-standard/malloc.c:1071-1100 | The assertion that a chunk from a later bin is large enough holds for all chunks below 4 GiB exactly if the request is below 4 GiB or is given the last bin |
| `HeapTags.WalkVisitsAll` | arbiter/compare_test/malloc-standard/malloc.c:197-333 | A walk over the head words from the base meets every chunk and ends at the top: the chunks tile the region |
| `HeapTags.TagsTaken` | arbiter/compare_test/malloc-standard/malloc.c:885-891 | Taking a free chunk whole and setting its successor's PREV_INUSE bit keeps every tag true |
| `HeapTags.TagsSplit` | arbiter/compare_test/malloc-standard/malloc.c:1028-1038 | Splitting a free chunk keeps every tag true, the remainder's foot included |
| `HeapTags.TilingFused` | arbiter/compare_test/malloc-standard/free.c:321-357 | Fusing a freed chunk with its free neighbours keeps the tiling, and no two free chunks are adjacent |
| `HeapTags.TagsFused` | arbiter/compare_test/malloc-standard/free.c:321-357 | The tags written for the fused chunk, and the cleared bit after it, are true |
| `HeapLists.RingUnlink` | arbiter/compare_test/malloc-standard/malloc.h:644-651 | unlink takes exactly that chunk off its circular list, and its check of the neighbours' links never fails |
| `HeapLists.RingInsert` | arbiter/compare_test/malloc-standard/malloc.c:995-998 | Linking a chunk in puts exactly it at that position of the circular list |
| `HeapBinmap.SkipIsSafe` | arbiter/compare_test/malloc-standard/malloc.c:1060-1069 | When the bit is greater than the map word, no bit at or above it is set, so the skip misses no bin |
| `HeapFast.FlagsDoNotMatter` | arbiter/compare_test/malloc-standard/malloc.h:805-840 | Comparing a size with the word that packs max_fast and two flags gives the same answer as with max_fast alone, and so does indexing by it |
| `HeapFast.FlagUpdates` | arbiter/compare_test/malloc-standard/malloc.h:816-832 | Each update of the flags sets or clears exactly its flags (marking fast chunks sets both) and keeps the packed maximum |
| `HeapFit.FirstBinIsBest` | arbiter/compare_test/malloc-standard/malloc.c:1043-1126 | A smallest fit in the first bin that has a fit is a smallest fit of all binned chunks |
| `HeapFit.LastIsSmallest` | arbiter/compare_test/malloc-standard/malloc.c:1001-1041 | The last chunk of a bin is a smallest one of that bin |
| `HeapFit.MergedIsUnique` | arbiter/compare_test/malloc-standard/free.c:170-262 | What consolidation leaves is determined by the heap before it, up to which list each free chunk is on |
| `HeapFit.AnswerIsBest` | arbiter/compare_test/malloc-standard/malloc.c:803-1166 | Told of the heap before the call: with nothing parked on the fast lists, or a small request that fits somewhere, a chunk from a bin is a smallest fit, and the top or a failure means that none fits |
| `Heap.Heap.constructor` | arbiter/compare_test/malloc-standard/malloc.h:864-906 | The all-zero state before the first call meets the invariant |
| `Heap.Heap.Unlink` | arbiter/compare_test/malloc-standard/malloc.h:644-651 | On the words of memory: the chunk leaves its list, all other lists, tags and used words stay |
| `Heap.Heap.Link` | arbiter/compare_test/malloc-standard/malloc.c:995-998 | On the words of memory: the chunk joins the list at the given position, everything else stays |
| `Heap.Heap.Coalesce` | arbiter/compare_test/malloc-standard/free.c:216-251 | The freed chunk and exactly its free neighbours are one chunk, the first of the unsorted list, or part of the top, and its size is returned; no chunk in use moves, changes size or contents; the invariant holds |
| `Heap.Heap.DrainFastbin` | arbiter/compare_test/malloc-standard/free.c:209-255 | Every chunk of one fast list is coalesced, following links that the coalescing overwrites behind it |
| `Heap.Heap.InitState` | arbiter/compare_test/malloc-standard/free.c:121-148 | All bins are empty rings, the top is the dummy chunk, and the invariant holds |
| `Heap.Heap.Consolidate` | arbiter/compare_test/malloc-standard/free.c:170-262 | Afterwards no chunk is on a fast list, the flag is clear, and no chunk in use was touched |
| `Heap.Heap.Trim` | arbiter/compare_test/malloc-standard/free.c:28-79 | The break drops by what the system gives of the most whole pages that leave more than the padding and a minimal chunk; it reports success exactly if that is not nothing; the invariant holds |
| `Heap.Heap.Free` | arbiter/compare_test/malloc-standard/free.c:266-409 | A chunk of at most max_fast bytes is afterwards first on its fast list and nothing else changes; a larger one joins exactly its free neighbours, first on the unsorted list or in the top; if that reaches the threshold nothing stays parked, what is left is the one merged heap, and the top is trimmed by the rule of Trim if it reaches its threshold; every other chunk in use keeps its address, size and contents; freeing null changes nothing |
| `Heap.Heap.FreeLarge` | arbiter/compare_test/malloc-standard/free.c:384-391 | Nothing stays parked, the merged heap is the one there is, and the break drops exactly as Trim says if the top reaches the threshold, otherwise not; no chunk in use is touched |
| `Heap.Heap.TakeWhole` | arbiter/compare_test/malloc-standard/malloc.c:1020-1026 | The free chunk becomes in use as it is, and nothing else changes |
| `Heap.Heap.TakeSplit` | arbiter/compare_test/malloc-standard/malloc.c:1027-1038 | The first part becomes in use and the remainder is the only chunk on the unsorted list, which was empty |
| `Heap.Heap.TakeFast` | arbiter/compare_test/malloc-standard/malloc.c:861-869 | The most recently parked chunk of exactly that size, of which only the kind changes; none exactly if no parked chunk has that size |
| `Heap.Heap.TakeSmall` | arbiter/compare_test/malloc-standard/malloc.c:879-893 | The oldest chunk of the small bin, of which only the kind changes; none exactly if no sorted chunk has that size |
| `Heap.Heap.SortOne` | arbiter/compare_test/malloc-standard/malloc.c:962-998 | The oldest unsorted chunk goes to the bin of its size: in front of a small bin; in a large one behind all larger ones, and last if it is not larger than the last |
| `Heap.Heap.SortUnsorted` | arbiter/compare_test/malloc-standard/malloc.c:919-999 | Takes the oldest exact fit, if there is one; otherwise the last remainder, exactly if the request is small, it is reached last and has more than nb + MINSIZE; otherwise every chunk ends in its bin, large bins in size order, and the unsorted list is empty |
| `Heap.Heap.ScanLargebin` | arbiter/compare_test/malloc-standard/malloc.c:1010-1041 | Takes a smallest fit of the bin, the last that fits; none exactly if there is none in it; what is left of a split is alone on the unsorted list |
| `Heap.Heap.NextNonempty` | arbiter/compare_test/malloc-standard/malloc.c:1052-1086 | The bitmap search passes only bins that are empty, clears only bits of empty bins, and stops at a nonempty bin or past the last |
| `Heap.Heap.ScanBins` | arbiter/compare_test/malloc-standard/malloc.c:1043-1127 | Takes a smallest fit of all chunks in later bins, the last of its bin; none exactly if there is none; what is left of a split is alone on the unsorted list, and the last remainder if the request is small |
| `Heap.Heap.SplitTop` | arbiter/compare_test/malloc-standard/malloc.c:1145-1158 | The chunk is cut off the low end of the top |
| `Heap.Heap.SysAlloc` | arbiter/compare_test/malloc-standard/malloc.c:369-381 | With fast chunks around it consolidates and repeats, where the assertion that the request is small holds, and the rules of malloc hold of the one heap that consolidation leaves; otherwise the top grows, and it fails only if the system refuses or memory ends |
| `Heap.Heap.GrowTop` | arbiter/compare_test/malloc-standard/malloc.c:450-674 | Succeeds exactly if the first request is granted and fits; the top is extended by exactly what is asked, or a region starts at the next even word and ends on a page boundary if that is granted |
| `Heap.Heap.Malloc` | arbiter/compare_test/malloc-standard/malloc.c:803-1166 | The invariant holds; the result is fresh, at least as large as asked and below nb + MINSIZE; chunks in use are untouched.  Which chunk it is, what becomes of it and what the last remainder is then follows the rules in their order, each with its exact condition on the heap before the call: the most recently parked chunk of the size; the oldest sorted one; the oldest unsorted one; the last remainder; a smallest that fits; the top; the top once the system has granted more; failure.  If parked chunks are merged first, which is exactly for large requests and when only the system is left, the rules hold of the one merged heap |
| `Heap.Heap.CopyWords` | arbiter/compare_test/malloc-standard/realloc.c:121-146 | The unrolled copy is the copy of all words, because their number is odd and at least three |
| `Heap.Heap.ReallocChunk` | arbiter/compare_test/malloc-standard/realloc.c:65-178 | On every path the new chunk is large enough and starts with the old contents, other chunks are untouched, a failure changes nothing, and it succeeds where the chunk, its neighbour or the system has room; what a chunk gives up is freed by the rules of free, and one that has to move is taken by the rules of malloc and freed by those of free |
| `Heap.Heap.Realloc` | arbiter/compare_test/malloc-standard/realloc.c:21-58 | The cases null, by the rules of malloc, zero, by those of free, and too large, and the result of ReallocChunk |
| `HeapRules.AroundIsUnique` | arbiter/compare_test/malloc-standard/free.c:321-357 | The stretch of free chunks around a freed one is determined |
| `HeapRules.TrimIsSurplus` | arbiter/compare_test/malloc-standard/free.c:40-41 | What the code offers to the system is the most whole pages that leave more than the padding and a minimal chunk, or nothing |
| `HeapRules.TrimKeepsPageIff` | arbiter/compare_test/malloc-standard/free.c:40-41 | Trimming keeps at least one page, as the comment there says, exactly if the padding, a minimal chunk and the remainder of the size make one |
| `HeapRules.TrimCanKeepLess` | arbiter/compare_test/malloc-standard/free.c:40-41 | A top of which less than a page is kept |
| `HeapRules.ReusesParked` | arbiter/compare_test/malloc-standard/malloc.c:861-869 | After a small chunk is freed, a request for its size gives back that chunk, and the heap is exactly as before both calls |
| `Heap.Heap.Store` | arbiter/compare_test/malloc-standard/malloc.h:443-457 | A program may overwrite any word of its chunk, the first word of the next chunk included, and the invariant holds |
| `HeapRun.Execute` | arbiter/compare_test/malloc-standard/malloc.c:803-1166 | One call of malloc, free, realloc or a store refines one step on a map from blocks to their contents |
| `HeapRun.Run` | arbiter/compare_test/malloc-standard/malloc.c:105-333 | Every run of any length, with any answers of the system, refines a run on blocks: blocks never overlap and only the program's own writes change them |
| `BarrierModel.CurSeqIsFirstIncomplete` | arbiter/arbiter-kernel/linux-2.6.32/block/blk-barrier.c:55-60 | The bit that the shift by ffz names is the first step that is not complete |
| `BarrierSafety.InvIsSafe` | arbiter/arbiter-kernel/linux-2.6.32/block/blk-barrier.c:235-279 | In every state with the invariant, what the driver may take is ordered as the barrier asks |
| `BarrierSafety.StepInv` | arbiter/arbiter-kernel/linux-2.6.32/block/blk-barrier.c:55-279 | Every event, from insertion to completion, keeps the invariant while the requests before the barrier in progress have its colour and the first one after it has the other |
| `BarrierCore.StepCore` | arbiter/arbiter-kernel/linux-2.6.32/block/blk-barrier.c:55-279 | Every event, at any colour, keeps what is known of the internal requests: each is queued or with the driver exactly while its bit is clear, never twice, and only at its step |
| `BarrierRuns.StepsInOrder` | arbiter/arbiter-kernel/linux-2.6.32/block/blk-barrier.c:62-111 | In every run, the flushes and the write are taken only when each is the current step |
| `BarrierRuns.EachBitOnce` | arbiter/arbiter-kernel/linux-2.6.32/block/blk-barrier.c:91-129 | In every run, the bit that a completion sets was clear: the source's check on repeated bits never fires |
| `BarrierSteps.EachStepOnce` | arbiter/arbiter-kernel/linux-2.6.32/block/blk-barrier.c:153-233 | In every run, from the event that starts a barrier to the one that ends it, the driver completes the flush before it exactly once if the queue asks for one and never otherwise, its write exactly once if it has sectors, the flush after it exactly once if the queue asks for one and there was a write; it takes each of them once for every time it puts it back or completes it |
| `BarrierSteps.NoStepTwice` | arbiter/arbiter-kernel/linux-2.6.32/block/blk-barrier.c:91-129 | In every run, while a barrier is in progress, each of its steps has ended at most once and the driver has it at most once |
| `BarrierRuns.RunConserved` | arbiter/arbiter-kernel/linux-2.6.32/block/elevator.c:598-693 | Over every run, each request came in as often as it is held now and has left |
| `BarrierRuns.EpochIsBarriers` | arbiter/arbiter-kernel/linux-2.6.32/block/elevator.c:698-706 | A request's epoch, which its colour bit keeps modulo two, is the number of barriers queued before it |
| `BarrierRuns.ColourIsParity` | arbiter/arbiter-kernel/linux-2.6.32/block/elevator.c:698-706 | In every run the colour is the parity of all HARDBARRIER insertions, file system requests or not |
| `BarrierOrder.StepHeld` | arbiter/arbiter-kernel/linux-2.6.32/block/elevator.c:598-730 | Every event keeps later requests behind their barriers and the first of them at the other colour, if the request inserted has the other colour where it can come first |
| `BarrierIff.LaterRequestsWait` | arbiter/arbiter-kernel/linux-2.6.32/block/blk-barrier.c:153-279 | In every run whose insertions do not mislead, a file system request queued after a barrier reaches the driver only when that barrier is complete |
| `BarrierIff.EvenNotMisleading` | arbiter/arbiter-kernel/linux-2.6.32/block/elevator.c:698-706 | An even number of non-file-system HARDBARRIER insertions before every file system request does not mislead |
| `BarrierIff.OrderingIff` | arbiter/arbiter-kernel/linux-2.6.32/block/elevator.c:598-730 | For every list of insertions: some run lets a request overtake a barrier exactly if the colour turned an odd number of times between a barrier and a request that can come first behind it, which is the next file system request or one that the scheduler can put before it |
| `BarrierIff.OneHardBreaks` | arbiter/arbiter-kernel/linux-2.6.32/block/elevator.c:698-706 | After any barrier, any one HARDBARRIER request that is not a file system one, at the back or the front, lets the next file system request overtake in some run |
| `BarrierTint.StepTinted` | arbiter/arbiter-kernel/linux-2.6.32/block/elevator.c:598-730 | Every event keeps requests at the colour of the barrier that ends their epoch, if that barrier comes in at the colour of all of them |
| `BarrierEarlier.EarlierRequestsDone` | arbiter/arbiter-kernel/linux-2.6.32/block/blk-barrier.c:153-279 | In every run whose insertions neither mislead nor strand, when a barrier is complete, nothing holds a request queued before it any more |
| `BarrierEarlier.BarrierWaits` | arbiter/arbiter-kernel/linux-2.6.32/block/blk-barrier.c:153-279 | In those runs, a flush or barrier write is issued only when every earlier file system request is complete |
| `BarrierEarlier.RunProgress` | arbiter/arbiter-kernel/linux-2.6.32/block/blk-barrier.c:235-279 | In those runs the queue never wedges: with nothing at the driver, the head can be taken or its sequence started |
| `BarrierEarlier.EvenIsFaithful` | arbiter/arbiter-kernel/linux-2.6.32/block/elevator.c:698-706 | An even number of non-file-system HARDBARRIER insertions before every file system request neither misleads nor strands |
| `BarrierStranded.WedgeIff` | arbiter/arbiter-kernel/linux-2.6.32/block/elevator.c:649-676 | For every list of insertions that does not mislead: some run wedges the queue exactly if the colour turned an odd number of times between a request and the next barrier |
| `BarrierStranded.FlushIff` | arbiter/arbiter-kernel/linux-2.6.32/block/elevator.c:649-676 | For every such list: some run hands out a step of a barrier before an earlier request is done exactly under that condition |
| `BarrierStranded.LeaveIff` | arbiter/arbiter-kernel/linux-2.6.32/block/elevator.c:649-676 | For every such list: some run completes a barrier before an earlier request exactly under that condition |
| `BarrierStranded.OneHardStrands` | arbiter/arbiter-kernel/linux-2.6.32/block/elevator.c:698-706 | Any request, any one HARDBARRIER request that is not a file system one, and any barrier: these do not mislead, and have runs for all three failures |
| `BarrierStrand.StepStrandsIff` | arbiter/arbiter-kernel/linux-2.6.32/block/elevator.c:649-676 | Every event, at any colour, keeps earlier requests of the barrier's colour at the front until the drain, none of them in the queue after it and no earlier request with the driver then, exactly if it does not put a barrier back before an earlier request of its colour |
| `BarrierEarlier.RunStrandsIff` | arbiter/arbiter-kernel/linux-2.6.32/block/elevator.c:649-676 | Over every run, that is so all along exactly if no event does so |
| `BarrierEarlier.StepsWaitForDriver` | arbiter/arbiter-kernel/linux-2.6.32/block/blk-barrier.c:183-230 | In every run, at any colour, in which no barrier comes back from the driver before an earlier request of its colour, no flush or barrier write is handed out while the driver has a file system request queued before that barrier |
| `BarrierEarlier.NoneComesBack` | arbiter/arbiter-kernel/linux-2.6.32/block/blk-barrier.c:235-279 | In every run whose insertions do not mislead, no barrier comes back from the driver |
| `BarrierStranded.ReturnedBarrierBreaks` | arbiter/arbiter-kernel/linux-2.6.32/block/elevator.c:649-676 | A run in which a barrier comes back that way and a flush is handed out while the driver has an earlier request |
| `BarrierEarlier.NeverLate` | arbiter/arbiter-kernel/linux-2.6.32/block/blk-barrier.c:271-276 | In every run whose insertions do not mislead, no request is ever found behind the current step: the warning in that place is unreachable |
| `BarrierStranded.LateIff` | arbiter/arbiter-kernel/linux-2.6.32/block/blk-barrier.c:271-276 | For every list of insertions: some run reaches the warning exactly if the insertions mislead |
| `BlockQueue.RequestQueue.SortSlot` | arbiter/arbiter-kernel/linux-2.6.32/block/elevator.c:417-454 | The slot is behind every request that must not be passed, and in sweep order among those that may |
| `BlockQueue.RequestQueue.DrainElevator` | arbiter/arbiter-kernel/linux-2.6.32/block/elevator.c:556-568 | Everything sorted is handed over; nothing else changes but the queue |
| `BlockQueue.RequestQueue.AddAtFront` | arbiter/arbiter-kernel/linux-2.6.32/block/elevator.c:598-730 | The request is first, with the colour so far; the colour turns for a hard request; the step of the model |
| `BlockQueue.RequestQueue.AddAtBack` | arbiter/arbiter-kernel/linux-2.6.32/block/elevator.c:695-730 | The scheduler is drained and the request is last, with the colour so far; the colour turns for a hard request of any kind; the step of the model |
| `BlockQueue.RequestQueue.AddToScheduler` | arbiter/arbiter-kernel/linux-2.6.32/block/elevator.c:632-648 | The request joins those the scheduler has; the step of the model |
| `BlockQueue.RequestQueue.CompleteBits` | arbiter/arbiter-kernel/linux-2.6.32/block/blk-barrier.c:91-111 | The new bits, and the end of the sequence when all are set |
| `BlockQueue.RequestQueue.StartSequence` | arbiter/arbiter-kernel/linux-2.6.32/block/blk-barrier.c:153-233 | The barrier gives way to the flush before it if the queue asks for one, its write if it has sectors and the flush after it if both, in this order in front of everything else; it is gone at once exactly if none of them is needed and nothing is in flight |
| `BlockQueue.RequestQueue.DoOrdered` | arbiter/arbiter-kernel/linux-2.6.32/block/blk-barrier.c:235-279 | Whether the head may be taken, must wait, or was an empty barrier, exactly as the model allows; the warning fires exactly if the head is late, which it never is when the insertions do not mislead |
| `BlockQueue.RequestQueue.NextRequest` | arbiter/arbiter-kernel/linux-2.6.32/block/blk.h:54-68 | The loop ends; what it returns may be taken; none means an empty queue to which the scheduler adds nothing, or a sequence in progress for which the head or the driver must be waited for |
| `BlockQueue.RequestQueue.PeekRequest` | arbiter/arbiter-kernel/linux-2.6.32/block/blk-core.c:1764-1791 | The head is marked started, and stays the head; none means the same |
| `BlockQueue.RequestQueue.StartRequest` | arbiter/arbiter-kernel/linux-2.6.32/block/blk-core.c:1848-1900 | The driver takes the head |
| `BlockQueue.RequestQueue.RequeueRequest` | arbiter/arbiter-kernel/linux-2.6.32/block/elevator.c:539-554 | The request comes back with its stop flag: first if no barrier is in progress, otherwise before the first request that is not earlier in the sequence |
| `BlockQueue.RequestQueue.CompletedRequest` | arbiter/arbiter-kernel/linux-2.6.32/block/elevator.c:823-853 | While draining, the drain is over exactly if nothing is in flight and the first request is not an earlier one; otherwise the sequence does not change |
| `BlockQueue.RequestQueue.EndRequest` | arbiter/arbiter-kernel/linux-2.6.32/block/blk-barrier.c:113-129 | The step of the model for a completion, internal or not |
| `Segments.GreedyStaysAhead` | arbiter/arbiter-kernel/linux-2.6.32/block/blk-merge.c:30-62 | At every piece the greedy loop has opened fewer segments than any other legal cutting, or as many with an open segment no longer |
| `Segments.GreedyIsMinimal` | arbiter/arbiter-kernel/linux-2.6.32/block/blk-merge.c:30-62 | No legal cutting of the pieces has fewer segments than the greedy loop |
| `Segments.FitsConcat` | arbiter/arbiter-kernel/linux-2.6.32/block/blk-merge.c:203-223 | Bounds on two chains add up for their concatenation |
| `Segments.FitsJoin` | arbiter/arbiter-kernel/linux-2.6.32/block/blk-merge.c:294-301 | If the facing segments join, one segment less is enough, with the combined sizes at the ends |
| `BlkMerge.Recount` | arbiter/arbiter-kernel/linux-2.6.32/block/blk-merge.c:12-70 | The count is the least number of segments, and the new cached sizes bound the end segments |
| `BlkMerge.MapChain` | arbiter/arbiter-kernel/linux-2.6.32/block/blk-merge.c:118-171 | The fewest entries that are segments, covering exactly the bytes of the chain, in order |
| `BlkMerge.MappedBytes` | arbiter/arbiter-kernel/linux-2.6.32/block/blk-merge.c:133-170 | Entries made from segments cover the same byte addresses in the same order |
| `BlkMerge.SegmentInWindow` | arbiter/arbiter-kernel/linux-2.6.32/block/blk-merge.c:133-170 | An entry that joins pieces lies inside one boundary window |
| `BlkMerge.Refresh` | arbiter/arbiter-kernel/linux-2.6.32/block/blk-merge.c:77-85 | A bio with no valid count gets one; its cached sizes only grow |
| `BlkMerge.Request.NewHwSegment` | arbiter/arbiter-kernel/linux-2.6.32/block/blk-merge.c:203-223 | Adds the segments exactly if both limits allow; refuses and marks the request otherwise |
| `BlkMerge.Request.BackMerge` | arbiter/arbiter-kernel/linux-2.6.32/block/blk-merge.c:225-247 | Merges exactly if the limits allow, appends the bytes, and keeps the count an upper bound |
| `BlkMerge.Request.FrontMerge` | arbiter/arbiter-kernel/linux-2.6.32/block/blk-merge.c:249-272 | Merges exactly if the limits allow, prepends the bytes, moves the start back by their sectors, and keeps the count an upper bound |
| `BlkMerge.Request.Recalc` | arbiter/arbiter-kernel/linux-2.6.32/block/blk-merge.c:72-75 | The count becomes the least one, and stays an upper bound for the mapping |
| `BlkMerge.Request.Contiguous` | arbiter/arbiter-kernel/linux-2.6.32/block/blk-merge.c:88-112 | True exactly if the facing pieces may be one segment |
| `BlkMerge.Request.MergeCounts` | arbiter/arbiter-kernel/linux-2.6.32/block/blk-merge.c:274-312 | The exact condition for merging, and the new count with the facing segments joined |
| `BlkMerge.Request.Merge` | arbiter/arbiter-kernel/linux-2.6.32/block/blk-merge.c:363-434 | Merges exactly if both may be merged, the second continues the first on the same disk in the same direction, and the limits allow; the chains are concatenated and the merged request meets the invariant |
| `BlkMerge.Request.MapSg` | arbiter/arbiter-kernel/linux-2.6.32/block/blk-merge.c:118-171 | After any mix of merges, at most nr_phys_segments entries, covering the request's bytes |
| `BlkUpdate.EndsAreFirst` | arbiter/arbiter-kernel/linux-2.6.32/block/blk-core.c:1981-2030 | The bios that end are exactly the first ones that fit into the completed bytes |
| `BlkUpdate.ChainDrops` | arbiter/arbiter-kernel/linux-2.6.32/block/blk-core.c:1981-2053 | After whole bios and part of the next, the bytes left are the old ones with the first n dropped, and the sizes agree |
| `BlkUpdate.Completion.Consume` | arbiter/arbiter-kernel/linux-2.6.32/block/blk-core.c:1980-2030 | The loop ends at the position where n bytes are used up, and never at the branch for an index past the pieces |
| `BlkUpdate.Completion.Update` | arbiter/arbiter-kernel/linux-2.6.32/block/blk-core.c:1951-2081 | The remaining bytes are the old ones without the first n; true exactly if bytes are left; sums, sector and segment count agree; each bio ends once; the branch for a botched request is not reached |
| `Submit.FifoHandlesAll` | arbiter/arbiter-kernel/linux-2.6.32/block/blk-core.c:1501-1539 | First come, first served handles every bio of every submitted tree exactly once |
| `Submit.Task.Submit` | arbiter/arbiter-kernel/linux-2.6.32/block/blk-core.c:1501-1539 | Called while a handler is at work it only queues; otherwise the bios are handled in first-come order, handlers never nest, and the tail slot is null again |
| `Submit.Task.Append` | arbiter/arbiter-kernel/linux-2.6.32/block/blk-core.c:1503-1509 | The bio is hooked in at the end of the list, wherever that is |
| `Submit.Task.TakeFirst` | arbiter/arbiter-kernel/linux-2.6.32/block/blk-core.c:1528-1534 | The first bio is unhooked and the tail slot points to the end of the rest |
| `BlkTag.TagsAreUnique` | arbiter/arbiter-kernel/linux-2.6.32/block/blk-tag.c:336-383 | When bits, index and tags match, no two requests share a tag |
| `BlkTag.GrowthFits` | arbiter/arbiter-kernel/linux-2.6.32/block/blk-tag.c:107-117 | The new maps have room for the old tags exactly if twice the queue's requests has |
| `BlkTag.Tags.constructor` | arbiter/arbiter-kernel/linux-2.6.32/block/blk-tag.c:106-137 | An empty map of the adjusted depth |
| `BlkTag.Tags.Start` | arbiter/arbiter-kernel/linux-2.6.32/block/blk-tag.c:336-383 | The lowest free tag below the limit, which keeps two tags from asynchronous requests; refused exactly when over the limit or full |
| `BlkTag.Tags.End` | arbiter/arbiter-kernel/linux-2.6.32/block/blk-tag.c:281-315 | Frees exactly that request's tag; the error branches are not reached |
| `BlkTag.Tags.Resize` | arbiter/arbiter-kernel/linux-2.6.32/block/blk-tag.c:219-264 | Tags in flight are kept; when it is refused, and exactly when the copy does not fit |
| `BlkTag.GrowthCanOverrun` | arbiter/arbiter-kernel/linux-2.6.32/block/blk-tag.c:107-117 | A sequence of calls in which the copy does not fit |
| `DeadlineModel.SortedInv` | arbiter/arbiter-kernel/linux-2.6.32/block/deadline-iosched.c:76-84 | Sorting a request in keeps both lists the same requests, in order, with at most one next request |
| `DeadlineModel.MovedInv` | arbiter/arbiter-kernel/linux-2.6.32/block/deadline-iosched.c:206-222 | Moving a request out keeps the invariant, and names what leaves each list |
| `DeadlineModel.MergedInv` | arbiter/arbiter-kernel/linux-2.6.32/block/deadline-iosched.c:170-189 | Merging two requests keeps the invariant |
| `DeadlineModel.MergedDeadlines` | arbiter/arbiter-kernel/linux-2.6.32/block/deadline-iosched.c:170-189 | After a merge the request that stays has the earlier of the two deadlines, and every other request its own |
| `DeadlineModel.SortedItems` | arbiter/arbiter-kernel/linux-2.6.32/block/deadline-iosched.c:76-84 | Sorting a request in: the list holds it, and all others but one that started at its sector |
| `DeadlineModel.MovedNext` | arbiter/arbiter-kernel/linux-2.6.32/block/deadline-iosched.c:206-222 | After a dispatch from sector p the next request of that direction is the queued one with the least sector above p, and none exactly if none is above; the other direction has none |
| `DeadlineModel.RemovedNext` | arbiter/arbiter-kernel/linux-2.6.32/block/deadline-iosched.c:86-124 | After a removal the next request is as before, unless it was the one removed: then it is the one with the least sector above |
| `DeadlineRuns.StepInv` | arbiter/arbiter-kernel/linux-2.6.32/block/deadline-iosched.c:76-327 | Every event keeps the invariant |
| `DeadlineRuns.StarvationBound` | arbiter/arbiter-kernel/linux-2.6.32/block/deadline-iosched.c:245-327 | While writes wait, at most (writes_starved + 1) * max(1, fifo_batch) dispatches return a read, whatever else happens |
| `DeadlineRuns.OrderKept` | arbiter/arbiter-kernel/linux-2.6.32/block/deadline-iosched.c:100-113 | With time going forward and a fixed setting, both lists stay in order of deadline through arrivals, merges and dispatches |
| `DeadlineRuns.TurnComes` | arbiter/arbiter-kernel/linux-2.6.32/block/deadline-iosched.c:298-317 | An expired request's turn never gets later, and each new batch in its direction brings it nearer or takes it |
| `DeadlineRuns.ExpiryBound` | arbiter/arbiter-kernel/linux-2.6.32/block/deadline-iosched.c:228-317 | An expired request with k others ahead outlasts at most k new batches of its direction |
| `DeadlineBatch.StepAheadIff` | arbiter/arbiter-kernel/linux-2.6.32/block/deadline-iosched.c:76-222 | Every event keeps the next request above the last one dispatched, and of its direction, exactly if it is not a front merge that makes the next request itself start at or below that |
| `DeadlineBatch.RunUpwardIff` | arbiter/arbiter-kernel/linux-2.6.32/block/deadline-iosched.c:245-327 | Over every run, with any arrivals, removals and merges in between: at every moment at which the driver might ask, the request with which a batch goes on has a higher sector than the request dispatched before it, in the same direction, exactly if no front merge makes the next request of a batch that can go on start at or below that |
| `DeadlineBatch.RunAscends` | arbiter/arbiter-kernel/linux-2.6.32/block/deadline-iosched.c:245-327 | So the sectors of one batch increase strictly in every such run |
| `DeadlineBatch.FrontCanFallBack` | arbiter/arbiter-kernel/linux-2.6.32/block/deadline-iosched.c:156-168 | A run with such a front merge in which a batch goes back |
| `DeadlineBatch.NewBatch` | arbiter/arbiter-kernel/linux-2.6.32/block/deadline-iosched.c:298-317 | A new batch starts at the next request if there is one and the first deadline has not passed, going up if the next request is ahead; otherwise at the request that has waited longest |
| `DeadlineBatch.BatchBound` | arbiter/arbiter-kernel/linux-2.6.32/block/deadline-iosched.c:245-327 | Over every run without a new batch, at most fifo_batch less the requests already in the batch are dispatched |
| `DeadlineBatch.NewBatchIff` | arbiter/arbiter-kernel/linux-2.6.32/block/deadline-iosched.c:245-297 | After every run, a new batch starts exactly if something is queued and no batch can go on, and it is of writes exactly if writes wait and there are no reads or at least writes_starved batches of reads have passed them since the last batch of writes |
| `DeadlineBound.WriteBound` | arbiter/arbiter-kernel/linux-2.6.32/block/deadline-iosched.c:245-327 | An expired write with k writes ahead outlasts at most (k + 1) * (writes_starved + 1) * max(1, fifo_batch) dispatch calls |
| `DeadlineBound.ReadsGoIff` | arbiter/arbiter-kernel/linux-2.6.32/block/deadline-iosched.c:245-327 | Every expired read with k reads ahead outlasts at most 2 * (k + 1) * max(1, fifo_batch) dispatch calls exactly if writes_starved is at least 1 |
| `DeadlineBound.ReadsCanWait` | arbiter/arbiter-kernel/linux-2.6.32/block/deadline-iosched.c:270-290 | With writes_starved at 0, for every n a run in which an expired read with none ahead outlasts n dispatch calls |
| `DeadlineSched.Deadline.AddSorted` | arbiter/arbiter-kernel/linux-2.6.32/block/deadline-iosched.c:76-84 | The loop over requests at the same sector ends at once; the step of the model |
| `DeadlineSched.Deadline.AddRequest` | arbiter/arbiter-kernel/linux-2.6.32/block/deadline-iosched.c:100-113 | The sector list holds the request and all others but one that started at its sector, which is dispatched; it is last in the deadline list, due after the time of its direction; the invariant holds |
| `DeadlineSched.Deadline.RemoveRequest` | arbiter/arbiter-kernel/linux-2.6.32/block/deadline-iosched.c:86-124 | The request leaves both lists; a next request that pointed at it moves on to the one with the least sector above, and to none exactly if there is none |
| `DeadlineSched.Deadline.MoveRequest` | arbiter/arbiter-kernel/linux-2.6.32/block/deadline-iosched.c:194-222 | The request is dispatched; the one with the least sector above it becomes next, none exactly if there is none, and the other direction has none |
| `DeadlineSched.Deadline.FrontMerged` | arbiter/arbiter-kernel/linux-2.6.32/block/deadline-iosched.c:156-168 | The merged request is at its new sector, a request that started there is dispatched, and all others stay |
| `DeadlineSched.Deadline.MergedRequests` | arbiter/arbiter-kernel/linux-2.6.32/block/deadline-iosched.c:170-189 | The earlier deadline and its place in the list are taken over exactly when they are earlier |
| `DeadlineSched.Deadline.DispatchRequests` | arbiter/arbiter-kernel/linux-2.6.32/block/deadline-iosched.c:245-327 | The choice of the model, dispatched; the next request is then the one with the least sector above it, in that direction only; something is dispatched exactly when something is queued |
| `AsModel.BetterIsStrictTotal` | arbiter/arbiter-kernel/linux-2.6.32/block/as-iosched.c:293-361 | The choice is a strict total order on distinct sectors |
| `AsModel.BetterMeans` | arbiter/arbiter-kernel/linux-2.6.32/block/as-iosched.c:293-361 | What the choice is: ahead of the head the nearer request; behind it too, unless both are more than 1024 * 1024 sectors back, when it is the lower; and one behind wins over one ahead exactly if it is at most that far back and less than half as far away |
| `AsModel.NeighbourIsBest` | arbiter/arbiter-kernel/linux-2.6.32/block/as-iosched.c:368-391 | For a request beside the head, the better of its two neighbours, with wrap to the first, is the best of the whole queue |
| `AsModel.BestIsBeside` | arbiter/arbiter-kernel/linux-2.6.32/block/as-iosched.c:898-922 | The best request is beside the head, so its neighbours decide when it goes away |
| `AsModel.DispatchBestIff` | arbiter/arbiter-kernel/linux-2.6.32/block/as-iosched.c:973-1008 | After a dispatch the neighbours' choice is the best request exactly when the way is clear, a condition on the requests that start inside the one dispatched, for requests of any length |
| `AsModel.DispatchNeedNotBeBest` | arbiter/arbiter-kernel/linux-2.6.32/block/as-iosched.c:973-1008 | A queue for which it is not the best |
| `AsSched.AsQueue.ChooseReq` | arbiter/arbiter-kernel/linux-2.6.32/block/as-iosched.c:293-361 | The better of the two |
| `AsSched.AsQueue.FindNext` | arbiter/arbiter-kernel/linux-2.6.32/block/as-iosched.c:368-391 | The better neighbour |
| `AsSched.AsQueue.RemoveQueued` | arbiter/arbiter-kernel/linux-2.6.32/block/as-iosched.c:898-922 | The cached request is the best of the rest |
| `AsSched.AsQueue.MoveToDispatch` | arbiter/arbiter-kernel/linux-2.6.32/block/as-iosched.c:973-1017 | The cached request is the best for the new head exactly when the way is clear |
| `AsSched.AsQueue.UpdateRq` | arbiter/arbiter-kernel/linux-2.6.32/block/as-iosched.c:789-794 | The cached request is the best with the new one in the queue |
| `AsSched.AsQueue.AddRequest` | arbiter/arbiter-kernel/linux-2.6.32/block/as-iosched.c:1186-1212 | A request at the same sector is dispatched first; the cached request is the best afterwards when it was and the way was clear |
| `AsSched.AsQueue.ForceDispatch` | arbiter/arbiter-kernel/linux-2.6.32/block/as-iosched.c:1031-1058 | The loop ends, everything queued is dispatched, each request once, and the count is returned |
| `CfqTree.AttachOrder` | arbiter/arbiter-kernel/linux-2.6.32/block/cfq-iosched.c:534-572 | Hanging a node where a path leads puts it at that rank of the in-order sequence |
| `CfqTree.RankZero` | arbiter/arbiter-kernel/linux-2.6.32/block/cfq-iosched.c:534-572 | The rank is zero, that is the new node is leftmost, exactly if the path never turned right |
| `CfqTree.EraseOrder` | arbiter/arbiter-kernel/linux-2.6.32/block/cfq-iosched.c:443-448 | Erasing a node removes exactly it from the in-order sequence |
| `CfqTree.SearchSplits` | arbiter/arbiter-kernel/linux-2.6.32/block/cfq-iosched.c:534-572 | The search ends where everything before precedes or equals the key and everything after does not |
| `CfqTree.AttachSorted` | arbiter/arbiter-kernel/linux-2.6.32/block/cfq-iosched.c:534-572 | Insertion keeps the order of service: real-time first, idle last, then by key |
| `CfqTree.ChangedSortedIff` | arbiter/arbiter-kernel/linux-2.6.32/block/cfq-iosched.c:1608-1650 | A queue whose class changes while it is in the tree keeps the order of service exactly if its neighbours agree |
| `CfqTree.ClassCanBreakOrder` | arbiter/arbiter-kernel/linux-2.6.32/block/cfq-iosched.c:1608-1650 | A tree that such a change puts out of order |
| `CfqSched.ChoiceIsAnOrder` | arbiter/arbiter-kernel/linux-2.6.32/block/cfq-iosched.c:333-421 | Of two requests at different sectors exactly one wins, and winning is transitive, with the preference for synchronous and metadata requests |
| `CfqSched.ChoiceMeans` | arbiter/arbiter-kernel/linux-2.6.32/block/cfq-iosched.c:333-421 | What the choice is: synchronous first, then metadata, then as for the anticipatory scheduler with twice back_seek_max and the penalty in place of its constants |
| `CfqSched.CfqData.RbFirst` | arbiter/arbiter-kernel/linux-2.6.32/block/cfq-iosched.c:426-435 | The in-order first of the tree, cached or found, or none |
| `CfqSched.CfqData.RbErase` | arbiter/arbiter-kernel/linux-2.6.32/block/cfq-iosched.c:443-448 | Exactly that queue leaves the sequence, the order of service is kept, and the cache is null or the true first |
| `CfqSched.CfqData.RbInsert` | arbiter/arbiter-kernel/linux-2.6.32/block/cfq-iosched.c:534-572 | In an ordered tree the queue comes behind all it does not precede and before the others, and the cache is null or the true first, whatever the rebalancing does |
| `CfqSched.CfqData.ChooseReq` | arbiter/arbiter-kernel/linux-2.6.32/block/cfq-iosched.c:333-421 | The winner of the order |
| `CfqSched.CfqData.FindNext` | arbiter/arbiter-kernel/linux-2.6.32/block/cfq-iosched.c:453-475 | The neighbour in the sorted list, going round to the first, that wins over the other, or none if the request is alone |
| `CfqSched.CfqData.SetClass` | arbiter/arbiter-kernel/linux-2.6.32/block/cfq-iosched.c:2259-2277 | The class changes and the queue stays: the order of service stands exactly if its neighbours agree |
| `CfqSched.CfqData.Resort` | arbiter/arbiter-kernel/linux-2.6.32/block/cfq-iosched.c:492-572 | With the same key a queue in the tree stays, even if its class has changed; with another it moves to the place of that key, in order if the other queues are; no queue is lost or doubled |
| `CfqSched.CfqData.AddRr` | arbiter/arbiter-kernel/linux-2.6.32/block/cfq-iosched.c:654-662 | The queue joins the tree and busy_queues counts it |
| `CfqSched.CfqData.DelRr` | arbiter/arbiter-kernel/linux-2.6.32/block/cfq-iosched.c:668-683 | The queue leaves the tree and busy_queues counts one less |
| `CfqSched.CfqData.AddRequest` | arbiter/arbiter-kernel/linux-2.6.32/block/cfq-iosched.c:703-734 | The request is pending, one at its sector is dispatched first, the next request of the queue is the new one or the old choice, whichever wins, and the invariant holds |
| `CfqSched.CfqData.Dispatch` | arbiter/arbiter-kernel/linux-2.6.32/block/cfq-iosched.c:1128-1142 | Exactly that request leaves; the next request of its queue is its neighbour in the sorted list, going round, that wins over the other, or none if it was alone; with its last request a queue leaves the tree |
| `CfqSched.CfqData.ForcedQueue` | arbiter/arbiter-kernel/linux-2.6.32/block/cfq-iosched.c:1231-1242 | Every request of the queue is dispatched once, and the number returned |
| `CfqSched.CfqData.ForcedDispatch` | arbiter/arbiter-kernel/linux-2.6.32/block/cfq-iosched.c:1248-1262 | The loops end, every pending request is dispatched exactly once, their number is returned, and no queue stays busy |
| `AesField.SubIsAffineInverse` | arbiter/arbiter-kernel/linux-2.6.32/crypto/aes_generic.c:65-1118 | The S-box in the tables is the affine image of the multiplicative inverse in GF(2^8), for every byte (section 5.1.1 of FIPS-197) |
| `AesField.InvSubInverts` | arbiter/arbiter-kernel/linux-2.6.32/crypto/aes_generic.c:65-1118 | The inverse table undoes the S-box |
| `AesField.SubInverts` | arbiter/arbiter-kernel/linux-2.6.32/crypto/aes_generic.c:65-1118 | The S-box undoes the inverse table |
| `AesField.FtTable0` | arbiter/arbiter-kernel/linux-2.6.32/crypto/aes_generic.c:65-326 | Every entry of the forward table is the S-box value times {02}, {01}, {01}, {03} |
| `AesField.ItTable0` | arbiter/arbiter-kernel/linux-2.6.32/crypto/aes_generic.c:593-854 | Every entry of the inverse table is the inverse S-box value times {0e}, {09}, {0d}, {0b} |
| `AesField.InvMixInverts` | arbiter/arbiter-kernel/linux-2.6.32/crypto/aes_generic.c:1130-1139 | InvMixColumns undoes MixColumns on every column |
| `AesField.MixInverts` | arbiter/arbiter-kernel/linux-2.6.32/crypto/aes_generic.c:1130-1139 | MixColumns undoes InvMixColumns on every column |
| `AesField.StarXDoubles` | arbiter/arbiter-kernel/linux-2.6.32/crypto/aes_generic.c:1128 | star_x doubles the four bytes of a word at once |
| `AesField.ImixColIsInvMix` | arbiter/arbiter-kernel/linux-2.6.32/crypto/aes_generic.c:1130-1139 | The rotations and sums of imix_col are InvMixColumns of the word |
| `AesCipher.FRoundIsRound` | arbiter/arbiter-kernel/linux-2.6.32/crypto/aes_generic.c:1300-1313 | A table round is SubBytes, ShiftRows, MixColumns and AddRoundKey (section 5.1) |
| `AesCipher.FLastIsRound` | arbiter/arbiter-kernel/linux-2.6.32/crypto/aes_generic.c:1315-1327 | The last round is the same without MixColumns |
| `AesCipher.IRoundIsRound` | arbiter/arbiter-kernel/linux-2.6.32/crypto/aes_generic.c:1372-1385 | An inverse table round is the round of the equivalent inverse cipher (section 5.3.5) |
| `AesCipher.ILastIsRound` | arbiter/arbiter-kernel/linux-2.6.32/crypto/aes_generic.c:1387-1399 | The last inverse round, without InvMixColumns |
| `Aes.RoundsBack` | arbiter/arbiter-kernel/linux-2.6.32/crypto/aes_generic.c:1401-1440 | After n inverse rounds the state is the one n rounds before the end, substituted and shifted |
| `Aes.DecryptEncrypt` | arbiter/arbiter-kernel/linux-2.6.32/crypto/aes_generic.c:1329-1440 | For any round keys, the equivalent inverse cipher with the mirrored and mixed keys undoes the cipher |
| `Aes.EncryptDecrypt` | arbiter/arbiter-kernel/linux-2.6.32/crypto/aes_generic.c:1329-1440 | For any round keys, the cipher undoes the equivalent inverse cipher with the mirrored and mixed keys |
| `Aes.OnePlaintext` | arbiter/arbiter-kernel/linux-2.6.32/crypto/aes_generic.c:1329-1440 | Each block is the encryption of exactly one block, its decryption: every key is a bijection |
| `Aes.RcoTabIsRcon` | arbiter/arbiter-kernel/linux-2.6.32/crypto/aes_generic.c:63 | The table holds the powers of {02} |
| `Aes.LsBoxIsSubWord` | arbiter/arbiter-kernel/linux-2.6.32/crypto/aes_generic.c:1141-1145 | ls_box substitutes each byte of the word |
| `AesState.InputAt` | arbiter/arbiter-kernel/linux-2.6.32/crypto/aes_generic.c:1338-1341 | Byte r of column c of the state is byte r + 4c of the input (section 3.4) |
| `AesState.OutputAt` | arbiter/arbiter-kernel/linux-2.6.32/crypto/aes_generic.c:1364-1367 | Byte r + 4c of the output is byte r of column c (section 3.4) |
| `AesState.KeyAtStart` | arbiter/arbiter-kernel/linux-2.6.32/crypto/aes_generic.c:1228-1231 | The first words of the schedule are the bytes of the key, in order (section 5.2) |
| `AesState.SubBytesAt` | arbiter/arbiter-kernel/linux-2.6.32/crypto/aes_generic.c:1300-1306 | Each byte of the state is substituted where it is (section 5.1.1) |
| `AesState.ShiftRowsAt` | arbiter/arbiter-kernel/linux-2.6.32/crypto/aes_generic.c:1300-1306 | Row r moves r places to the left (section 5.1.2) |
| `AesState.MixColumnsAt` | arbiter/arbiter-kernel/linux-2.6.32/crypto/aes_generic.c:1300-1306 | Each byte of a column becomes {02} times itself, {03} times the next and the other two (section 5.1.3) |
| `AesState.AddRoundKeyAt` | arbiter/arbiter-kernel/linux-2.6.32/crypto/aes_generic.c:1300-1306 | Each byte of the round key is added to the byte at its place (section 5.1.4) |
| `AesState.RotAt` | arbiter/arbiter-kernel/linux-2.6.32/crypto/aes_generic.c:1147-1148 | The rotation is RotWord: byte r is the next byte of the word (section 5.2) |
| `AesState.RconAt` | arbiter/arbiter-kernel/linux-2.6.32/crypto/aes_generic.c:1149 | The round constant is in the first byte (section 5.2) |
| `AesState.CipherIsTrace` | arbiter/arbiter-kernel/linux-2.6.32/crypto/aes_generic.c:1329-1368 | The cipher adds the first round key, does all rounds but one in full, and the last one without MixColumns (figure 5) |
| `AesCode.AesCtx.ExpandEnc` | arbiter/arbiter-kernel/linux-2.6.32/crypto/aes_generic.c:1216-1252 | For the three key sizes the array holds the key schedule of section 5.2, word for word |
| `AesCode.AesCtx.ExpandDec` | arbiter/arbiter-kernel/linux-2.6.32/crypto/aes_generic.c:1254-1266 | The decryption keys are the rounds backwards, the inner ones through InvMixColumns |
| `AesCode.AesCtx.ExpandKey` | arbiter/arbiter-kernel/linux-2.6.32/crypto/aes_generic.c:1216-1268 | Refused exactly for other key sizes; otherwise both schedules are ready |
| `AesCode.AesCtx.Encrypt` | arbiter/arbiter-kernel/linux-2.6.32/crypto/aes_generic.c:1329-1368 | The bytes of the cipher of section 5.1 under the key's schedule, for all three sizes |
| `AesCode.AesCtx.Decrypt` | arbiter/arbiter-kernel/linux-2.6.32/crypto/aes_generic.c:1401-1440 | The bytes of the equivalent inverse cipher of section 5.3.5 |
| `AesCode.AesCtx.RoundTrip` | arbiter/arbiter-kernel/linux-2.6.32/crypto/aes_generic.c:1329-1440 | Decrypting what was encrypted gives the block back, for every key of every size and every block |
| `AesCode.AesCtx.RoundTripBack` | arbiter/arbiter-kernel/linux-2.6.32/crypto/aes_generic.c:1329-1440 | Encrypting what was decrypted gives the block back, for every key of every size and every block |
| `Labels.CheckLabel` | arbiter/monitor/label.c:41-115 | The nested loops accept exactly when the set definition of a legal flow holds, and the second ownership is within the first |
| `Labels.CheckMemProt` | arbiter/monitor/label.c:117-137 | The protection that the two flows allow |
| `Labels.FlowsReflexive` | arbiter/monitor/label.c:41-115 | For a fixed ownership a flow to the same label is legal |
| `Labels.FlowsTransitive` | arbiter/monitor/label.c:41-115 | For a fixed ownership legal flows compose |
| `Labels.AllowedGrows` | arbiter/monitor/label.c:117-137 | More ownership never takes a permission away |
| `Labels.AddOwnership` | arbiter/monitor/label.c:25-39 | The category goes to the first blank slot, or zero comes back and nothing changes |
| `Labels.NewIff` | arbiter/monitor/label.c:14-22 | A category's number is above all numbers so far exactly if fewer than 127 were made, for every type byte |
| `Labels.OwnNumberIff` | arbiter/monitor/label.c:14-22 | It is the number whose turn it is exactly if also the type byte adds no bit to it |
| `Labels.TypesAreClean` | arbiter/monitor/label.c:14-22 | The two types there are never add a bit, as long as fewer than 127 categories were made |
| `Labels.ExhaustedCat` | arbiter/monitor/label.c:14-22 | After 127 categories everyone gets the same one, and after 255 the type byte itself |
| `Monitor.Arbiter.constructor` | arbiter/monitor/arbiter.c:576-618 | The first client, with a blank label and no ownership, meets the invariant |
| `Monitor.Arbiter.CreateCat` | arbiter/monitor/label.c:14-22 | The category and the generator after it, the exhausted generator included |
| `Monitor.Arbiter.HandleCreateCat` | arbiter/monitor/arbiter.c:22-47 | The caller owns exactly the new category more, and nothing else changes; the monitor halts exactly when there is no blank slot or the category is blank; the step of the model |
| `Monitor.Arbiter.HandleFork` | arbiter/monitor/arbiter.c:49-113 | Refused, with nothing changed, exactly when the flow or the ownership is not legal; otherwise the child is listed with the label and the ownership asked for, its protection on every unit is exactly what these allow, and no other pid's changes; for any pid; the step of the model |
| `Monitor.Arbiter.HandleJoin` | arbiter/monitor/arbiter.c:115-173 | Answered exactly when a client with that pid is listed and the check allows the first one; then exactly that client is removed, and otherwise nothing changes; the step of the model |
| `Monitor.Arbiter.HandleMalloc` | arbiter/monitor/arbiter.c:175-218 | Refused exactly when the flow is not legal; a new unit is listed first, its caller may read and write it, and every other client has on it exactly what its label and ownership allow; protections on other units stay; the step of the model |
| `Monitor.Arbiter.HandleFree` | arbiter/monitor/arbiter.c:220-266 | Exactly that unit goes, exactly when the flow is legal, for a unit that was mapped on its own; the step of the model |
| `Monitor.Arbiter.ProtUpdate` | arbiter/monitor/ablib_malloc.c:1286-1342 | Every other client's protection on the unit is what the labels allow |
| `Monitor.Arbiter.MallocUpdate` | arbiter/monitor/ablib_malloc.c:1346-1402 | The new client's protection on every unit is what the labels allow |
| `MonitorRuns.StepInv` | arbiter/monitor/arbiter.c:22-266 | Every step, with any pid and any type byte, keeps distinct units and ownership traced to its makers |
| `MonitorRuns.StepHoldsIff` | arbiter/monitor/ablib_malloc.c:1286-1402 | A step keeps every protection within what the labels allow exactly if it does not put a second client with a listed pid where the two are allowed different things |
| `MonitorRuns.RunHoldsIff` | arbiter/monitor/ablib_malloc.c:1286-1402 | Over every run, protections are within what is allowed all along exactly if no step does so |
| `MonitorRuns.NewPidsNeverExceed` | arbiter/monitor/arbiter.c:49-113 | Runs in which a fork's pid is not one of a listed client never do so |
| `MonitorRuns.ReusedPidExceeds` | arbiter/monitor/arbiter.c:49-113 | A run in which a fork with a listed pid leaves a client more than the labels allow |
| `MonitorRuns.ChecksHold` | arbiter/monitor/ablib_malloc.c:1286-1402 | Over every run without such a step, every client has a protection on every unit; one that a check has set is still within what the labels allow; writing is always allowed where it is granted |
| `MonitorRuns.MappedWithinIff` | arbiter/monitor/ablib_malloc.c:446-481 | The protection from mapping a unit is within what the labels allow exactly if the mapper may read it |
| `MonitorRuns.MappingNeedNotBeWithin` | arbiter/monitor/ablib_malloc.c:446-481 | A one-step run in which it is not |
| `MonitorCats.RunConfinedIff` | arbiter/monitor/arbiter.c:22-113 | Over every run, a secrecy category that a client has and does not own stays on all its descendants, and an integrity category it lacks is gained by none, exactly as long as no creation among them comes out as that category |
| `MonitorCats.RunConfined` | arbiter/monitor/arbiter.c:22-113 | So it is with every category made before but 0xff, for every type byte asked for, until the generator wraps around after 255 creations |
| `MonitorCats.ExhaustedFrees` | arbiter/monitor/label.c:14-22 | The one that the exhausted generator repeats binds nobody with a blank slot |
| `MonitorCats.WritesConfined` | arbiter/monitor/label.c:41-137 | Such descendants can write only to units that carry that secrecy category and lack that integrity category |
| `MonitorCats.StepDescendsIff` | arbiter/monitor/arbiter.c:22-113 | A step keeps owners descending from makers exactly if it does not hand out a category that is foreign to its creator |
| `MonitorCats.RunDescendsIff` | arbiter/monitor/arbiter.c:22-113 | Over every run, owners descend from makers all along exactly if no step does so |
| `MonitorCats.OwnersDescend` | arbiter/monitor/arbiter.c:22-113 | In every run of fewer than 128 creations whose type bytes add no bit to the number, whoever owns a category is its maker or descends from it by forks |
| `MonitorCats.TypeBitsClash` | arbiter/monitor/label.c:14-22 | A run in which a type byte with extra bits makes a category before its turn, and a parent comes to own what its child made |
| `MonitorCats.ExhaustedClash` | arbiter/monitor/label.c:14-22 | With an exhausted generator, two clients that do not descend from each other always clash |
| `AlgName.ParsedIff` | arbiter/arbiter-kernel/linux-2.6.32/crypto/algboss.c:113-176 | The scan succeeds with template t and arguments a1..an exactly if the text starts with t(a1,...,an), where t is a word and each argument a word or a balanced call, fewer than 32 of them |
| `AlgName.ArgIsScanned` | arbiter/arbiter-kernel/linux-2.6.32/crypto/algboss.c:129-146 | An argument is scanned whole: commas and parentheses inside it do not end it |
| `AlgName.CloseOfIff` | arbiter/arbiter-kernel/linux-2.6.32/crypto/algboss.c:132-146 | The inner loop stops at a parenthesis exactly if the text before it is balanced |
| `AlgScan.ScanCall` | arbiter/arbiter-kernel/linux-2.6.32/crypto/algboss.c:132-146 | The loop ends on every text, at the closing parenthesis or with an error |
| `AlgScan.ScanArg` | arbiter/arbiter-kernel/linux-2.6.32/crypto/algboss.c:123-163 | The end of the argument, and whether it is a name or a number |
| `AlgScan.Parse` | arbiter/arbiter-kernel/linux-2.6.32/crypto/algboss.c:113-176 | The scan ends on every text with the result of the specification |
| `AlgScan.RoundTrip` | arbiter/arbiter-kernel/linux-2.6.32/crypto/aead.c:270-276 | A printed name is parsed into its template and its arguments |
| `AlgScan.NumberReadBack` | arbiter/arbiter-kernel/linux-2.6.32/crypto/algboss.c:158-162 | A 32-bit number printed in decimal is read back as that number |
| `AlgScan.PrintIsArg` | arbiter/arbiter-kernel/linux-2.6.32/crypto/aead.c:270-276 | A printed name can be an argument in turn |
| `AlgScan.TextInjective` | arbiter/arbiter-kernel/linux-2.6.32/crypto/aead.c:270-276 | Different trees of templates have different names |

## Left out

Heap

- Memory is in words and the break is word-aligned; misalignment inside a word is not modelled.
- mmap and mremap, MORECORE that is not contiguous and its fenceposts, mutexes and statistics are not modelled; a refused MORECORE is a failed call.
- The two recursive calls of malloc (malloc.c:380, realloc.c:98) are read as calls of ulibc_malloc, as the monitor's copy has them.
- Heap.Heap.Malloc: arenas larger than 4 GiB, and padded requests of 4 GiB and more whose truncated bin is not the last one: there the assertion of the bin search can fail, as LaterBinsFitIff says.
- Heap.Heap.Realloc: the same exclusion.
- Heap.Heap.ReallocChunk: the same exclusion.
- The order in which consolidation leaves the unsorted list.
- memalign, calloc, mallinfo and mallopt; the values of the tunables are the defaults.
- The allocator inside the monitor (ablib_malloc.c, ablib_free.c) apart from its protection updates.

Block layer

- Ordering by tag, the modes without ordering, and discard requests; the drain modes are modelled with and without flushes.
- File system requests are not put at the front of the queue by callers; start_ordered relies on that (blk-barrier.c:187-192).
- BarrierStranded.WedgeIff: for insertions that mislead, only that stranding ones have such a run; the same for BarrierStranded.FlushIff and BarrierStranded.LeaveIff.
- BarrierStranded.FlushIff: see BarrierStranded.WedgeIff.
- BarrierStranded.LeaveIff: see BarrierStranded.WedgeIff.
- BarrierEarlier.StepsWaitForDriver: the condition is exact for the invariant behind it, and sufficient for the promise itself.
- The queue's two in-flight counters are one, and the sector boundary of the sweep is a parameter.
- BlockQueue.RequestQueue.PeekRequest: preparing requests (prep_rq_fn) is not modelled.
- BlkMerge.Request.Merge: data integrity requests, fail-fast marks, priorities and accounting.
- The padding and drain entries of blk_rq_map_sg, and empty bios.
- BlkUpdate.Completion.Update: requests that stand in for a barrier, accounting and error messages.
- BlkTag.Tags.Start: maps shared by several queues, and the atomic retry that only matters for them.
- Allocation failure in blk-tag.c.

Schedulers

- Time is an unbounded integer, so jiffies do not wrap; tunables are not negative.
- The anticipatory scheduler's think time, seek distance, batches and front merges.
- CfqSched.CfqData.RbInsert: rebalancing is any reshaping that keeps the in-order sequence, and the key of a queue is a parameter.
- CFQ's slices, idling, cooperation and reference counts; its next request is the better neighbour, with no claim that it is the best of all.

AES

- The S-box is taken from the tables and proved to be the one of the standard.
- The assembly versions and the crypto API around the cipher.

Monitor

- Monitor.Arbiter.HandleMalloc: a new unit has an address that no listed unit has; an address may be used again later.
- mprotect and mmap succeed; where they do not, the source logs it, ignores it or stops.
- Protections are per unit; how a range of pages is rounded is not modelled.
- Monitor.Arbiter.constructor: the first client's label and ownership are blank; the source clears only the first bytes of that record.
- calloc, realloc and the calls that only read labels; freeing inside a shared unit changes no protection.
- Sockets, request formats and the kernel side of the system calls.

Names

- AlgScan.Parse: the sizes of the fixed buffers; every piece is shorter than the name, which fits.
- The other fields of the probe, and the thread that it starts.
