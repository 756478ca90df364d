# Verified models of the packed btree block, dirty-set writeback and four small protocols

This project models the parts of the repository whose correctness is hardest to see by reading and
proves what they are for. `dafny verify dfyconfig.toml` checks all of it.

**The packed btree block** (`shared/btree.c`). A 4096-byte block is a class over one mutable byte
array. The two-byte item offsets grow up from byte 16 and the unaligned payloads grow down from the
end of the same array, so the proofs show that no store to one ever reaches the other. `Layout`
says when an image is laid out; `BtreeBlock`, `Compacting`, `Moving`, `Refilling` and `Verifying`
are the operations, each a method on the bytes proved against the sequence of items the block
stands for. `BlockMap` shows that any run of operations answers like a finite map. `Tree` and
`TreeInvariant` prove what split and refill do to a parent and its children, and `TreeMap` and
`TreeRun` put all of it together: a parent block and its child blocks under any run of inserts,
deletes, lookups, compactions, splits and refills stay linked, answer like one finite map, and pass
verify.

**Dirty sets and writeback** (`shared/block.c`). `DirtySets` is a transition system over any number
of blocks, sets and threads: one action is one step of a dirtying thread, of the writeback worker or
of an IO completion, between two accesses to shared state. `DirtyInvariant` states one inductive
invariant, `DirtyFrames`, `DirtySteps` and `DirtyWork` prove that every step keeps it, and
`DirtyRuns`, `DirtySync` and `DirtyServed` draw the consequences for every reachable state and every
run. Reachable means: after some sequence of steps from a state with no sets. `DirtyCalls` follows one
call of dirty_begin through its waits and restarts. `DirtyProgress`, `DirtyDrain` and `DirtyReturns`
are about progress: a call backs off only if it must, everything dirty can be written, and every call
and sync can succeed, with the exact exception; `DirtyWake` is about who wakes a sync. `DirtyStale`
and `DirtyMissed` hold runs, step by step, that end where a caller gets less than the comments
promise.

**Small protocols.** `SyncWaiters` (the compare-and-swap word of sync waiters), `WaitQueue`
(sleeping and waking), `WorkQueue`, `Trace` and `TraceFlush` (buffer ownership under RCU, and what a
flush reaches) and `Framing` (messages over a socket that moves any part of what is asked).

All models assume sequential consistency.

## Where the code falls short

The code is early, and in places it contradicts its own comments or callers. The main models follow
what the callers need; each departure stands at the model function that makes it, and a module
beside it says what the code as written does and exactly when that is right.

1. `cmp_item_off` sorts offsets from high to low, while compact and verify walk them as ascending.
   The model sorts ascending. As written, verify's loop rejects every block with two or more items
   (`BtreeCode.DescendingScanIff`), and compact's moves may land on payloads not yet moved. No move
   does exactly when the highest payload ends below where all the others go
   (`BtreeCode.MovesAreClearIff`), and then the loop keeps every payload
   (`BtreeCode.ClearMovesSqueeze`); `BtreeCode.FirstMoveOverwrites` is a block on which the first move
   destroys an item.
2. compact counts down with an unsigned index that is always `>= 0`. The model uses a signed index.
   As written it returns exactly when there was nothing to do (`BtreeCode.CompactReturnsIff`).
3. `move_items` computes the destination slot as `nr_items - nr` instead of `nr_items`, and its
   stores are compared with the old `nr_items`. The model appends. As written a split never gets
   past the test (`BtreeCode.SlotsPassIff`), and where a move from the right passes it loses dst's last
   offsets (`BtreeCode.StoredIsJoinedIff`); from the left it is right (`BtreeCode.StoredFromLeft`).
4. The count of items to move from the right has no `moving <= target` test. The model has the test
   (`BtreeCode.TakingAllIsRightIff`).
5. `update_parent_ref` builds a reference and then copies the child's last value. The model stores the
   reference. As written a drain into the left block breaks the tree unless that value happens to be
   the reference (`BtreeCode.DrainCodeKeepsTreeIff`).
6. The tie-break of `cmp_keys` orders a key after its extensions, its comment says before. Either is
   a total order; the model follows the code (`Keys.CodeMatchesCommentIff`).
7. verify computes the end of the gap in 16 bits and reads `item_off[0]` of an empty block. The model
   does the same; `Verifying.Verify` states the exact result, `Verifying.WrappedGapIsAccepted`
   shows a block that passes with a gap that is not there, and `Verifying.VerifyFresh` says when a
   freshly initialised block passes: not over zeroes.
8. `end_write_io` never clears `BL_DIRTY`, though its comment says so. The model clears it
   (`DirtyCode.KeepingDirtyLosesCount`, `DirtyCode.CountStaysExactIff`). As written, a block that is
   dirtied again stops the walk that marks blocks, and the caller modifies a block that is not dirty
   (`DirtyMissed.LeftoverLeavesClean`); writing that set takes nr_dirty below zero
   (`DirtyMissed.LeftoverTakesCountBelowZero`).
9. `list_splice_init` puts the smaller set's whole list in front, which can put not-yet-dirty blocks
   before dirty ones, while the walks from the tail need them last. The model splices dirty blocks
   first (`DirtyCode.SpliceIff`, `DirtyCode.WalkMarksAllIff`, `DirtyCode.DropKeepsDirtyIff`).
10. Nothing repeats the load of `bl->set` after the set was locked. The model repeats it, after the
    WRITEBACK test: `DirtyStale.StaleReachable` is a run in which a thread is past both tests on a
    set its block has left; `DirtyStale.LockedSetIsOursIff` and `DirtyStale.MergedSetHoldsAllIff` say
    when going on is right, for the first block and for a later one that leads to a merge.
11. Taking `dirty_seq` and pushing the set are two steps. The model makes them one
    (`DirtyCode.PushOrderMatters`).
12. A merge keeps the larger set even if only the smaller one is queued
    (`DirtyCode.SizeRuleKeepsQueuedIff`). Blocks that are dirty then sit in a set that is not queued. If
    the thread backs off before it commits, nothing but a thread that locks that set brings them back:
    no writeback writes them, and a sync up to their former number returns
    (`DirtyCode.LostStays`, and `DirtyMissed.OrphanIsNeverWritten` for a run). The model keeps the queued
    set.
13. With a newly allocated set, get_other_set links `bl->set_head` into the set's list before the
    cmpxchg that publishes the set, and frees the set if that fails. The model links and publishes in
    one step. As written the published set holds the block exactly when its thread was the last to link
    it (`DirtyLink.WinnerHoldsIff`); otherwise its list leads through the block into a set that is
    freed (`DirtyLink.BlockLeadsToFreedSet`).
14. get_other_set leaves `dirty_seq` of a new set as malloc returned it, and a merge over the limit may
    sync up to it. The model starts it at 0 and prefers the queued set. As written the number was taken
    for the set exactly if that set is queued (`DirtyCode.LimitNumberIsTakenIff`).
15. `trace_store_ptr` puts every event at `tbuf->ptr`, which nothing moves, while `len` grows: a second
    event overwrites the first, and writev takes stale bytes behind it. `Trace` has both placements.
    Nothing is lost with events behind each other; as written, exactly if no store ever finds bytes in
    the buffer (`Trace.NothingIsLostIff`, and `Trace.FirstEventIsLost` for a run). Who may touch a
    buffer when does not depend on it.

Six more findings need no change to the model, because the model does what the code does.

- The error exit of dirty_begin looks as if it could leave DIRTYING set, but an allocation is only
  attempted while no set is being built (`DirtyRuns.FailureHoldsNothing`).
- A set emptied by a merge stays queued. Once the worker takes it nothing clears its WRITEBACK bit
  again (`DirtyServed.EmptiedSetIsNeverServed`), and a thread that waits for that bit never has another
  step (`DirtyServed.WaiterNeverResumes`, `DirtyMissed.StuckForGood` for a run).
- A sync does not cover all blocks that were dirty when it began, as the comment at
  `shared/block.c:999-1000` has it. `DirtySync.SyncMissesIff` says when it misses a block: exactly
  when the write of the set that merges made of the block's set has not begun, and then one of the
  merges led to a set dirtied after the sync began. `DirtyMissed.SyncMissesBlock` is such a run.
- The condition that sync waits for comes true while sets up to the number still list blocks: exactly
  the blocks that were written and not yet let go (`DirtySync.StillListedIff`,
  `DirtyMissed.EarlyReachable`).
- A sync may sleep with its condition true. Only the last completion of a set wakes it, and the worker's
  store of `writeback_seq` comes after: if that store makes the condition true with no set in flight,
  nobody wakes it, and only then (`DirtyWake.SyncIsWokenIff`, `DirtyMissed.SyncSleepsOn` for a run).
- trace_flush waits "for writer to finish with queued bufs" until the shared queue is empty, which it is
  as soon as the writer has taken the buffers (`TraceFlush.FlushWaitMeans`); it may return with none of
  them written (`TraceFlush.FlushReturnsEarly`).

## Model

| member | source | states |
|---|---|---|
| `Keys.CmpIsStrictTotalOrder` | shared/btree.c:164-168 | on all byte strings exactly one of less, equal, greater holds, and less composes |
| `Keys.CmpZeroIffEqual` | shared/btree.c:164-168 | the comparison is zero exactly for identical keys |
| `Keys.CmpTransitive` | shared/btree.c:164-168 | less composes, over keys of any lengths |
| `Keys.CodeMatchesCommentIff` | shared/btree.c:159-168 | the code agrees with its comment exactly when neither key properly extends the other |
| `Keys.CodeContradictsComment` | shared/btree.c:159-168 | a one-byte key and its two-byte extension are ordered the other way than the comment says |
| `Layout.ParseIffItemIn` | shared/btree.c:46-65 | parsing a payload undoes encoding it; an item is at an offset exactly when parsing finds it there |
| `Layout.ItemInIsPayload` | shared/format-block.h:34-60 | an item is at an offset exactly when the bytes there are the size of its value in two bytes with the low one first, the size of its key in one, the key, and the value |
| `Layout.LaidBytes` | shared/btree.c:46-143 | in a laid out block the two bytes at 16 + 2i point to the payload of item i, which stands there above the gap apart from all others, and total_free is 4080 less five bytes and the key and value of each item |
| `Layout.CoveredCard` | shared/btree.c:92-143 | disjoint payloads cover as many bytes as their sizes add up to |
| `Layout.TotalCountsHoles` | shared/btree.c:116-143 | total_free is avail_free plus the stray free bytes, so it never underflows |
| `Layout.EqualCountersIffNoHoles` | shared/btree.c:554-555 | the two counters are equal exactly when there is nothing to squeeze out |
| `Layout.ItemCountBound` | shared/format-block.h:57-60 | a laid out block of items with non-empty keys has at most 680 of them |
| `Edits.RunAddedKeepsLayout` | shared/btree.c:219-230 | adding payloads below the end of the gap and their offsets at any position keeps the layout |
| `Edits.RunRemovedKeepsLayout` | shared/btree.c:238-252 | taking offsets out, with any gap below the remaining payloads, keeps the layout |
| `Sorting.SortSorts` | shared/btree.c:559-573 | the sort used in place of sort_r returns a sorted permutation |
| `BtreeBlock.Block.InitBlock` | shared/btree.c:387-395 | an empty valid block, whatever its bytes were |
| `BtreeBlock.Block.Memmove` | shared/btree.c:150-157 | overlapping moves within the block read the source as it was |
| `BtreeBlock.Block.Search` | shared/btree.c:180-202 | the item with the key, or the only position with all smaller keys before and all greater after, for an empty block too |
| `BtreeBlock.Block.InsertItem` | shared/btree.c:204-231 | the item stands at the position, both counters drop by its total size, no byte from the old end of the gap on changes |
| `BtreeBlock.Block.RemoveItem` | shared/btree.c:233-253 | the item is gone, total_free grows by its total size, the gap grows by the payload only when it borders it |
| `BtreeBlock.Block.Lookup` | shared/btree.c:397-416 | the first bytes of the value that fit, or ENOENT exactly when no item has the key |
| `BtreeBlock.Block.Insert` | shared/btree.c:418-438 | -EINVAL exactly for an empty key, a key over 255 or a value over 512 bytes, -EEXIST exactly for a present key, else the item at its place in key order |
| `BtreeBlock.Block.Delete` | shared/btree.c:440-455 | ENOENT exactly for an absent key, else the one item gone |
| `BlockMap.RunFromInit` | shared/btree.c:387-455 | any run of insert, delete, lookup and compact gives the answers of a finite map and leaves the map's entries |
| `BlockMap.DoPut` | shared/btree.c:212-216 | with a caller that makes room first, an insert is refused for room exactly when the map's entries and the new one need more than MAX_FREE bytes |
| `BlockMap.OrderIsTheMaps` | shared/btree.c:176-202 | the order of the items is determined by the map: two blocks with the same entries hold the same sequence |
| `BlockMap.UsedIsWeight` | shared/btree.c:132-138 | used_size is the sum of the costs of the map's entries, in any order |
| `BlockMap.RunFits` | shared/btree.c:418-438 | after any run the entries fit a block and have sizes that insert lets in |
| `Compacting.MovesUpSafely` | shared/btree.c:561-569 | taken from the highest offset, a payload moves up into bytes no unmoved payload reaches |
| `Compacting.UniqueOrder` | shared/btree.c:573 | items in strict key order are determined by which items there are |
| `Compacting.Squeeze` | shared/btree.c:560-569 | the loop leaves every payload intact, packed against the end of the block |
| `Compacting.Compact` | shared/btree.c:546-574 | same items in the same order, avail_free equal to the unchanged total_free, no stray free byte left |
| `Verifying.Verify` | shared/btree.c:576-637 | a non-empty block is accepted exactly when it is laid out below the bound with distinct keys; what is accepted is left in key order; the exact result for an empty block |
| `Verifying.ScanPayloads` | shared/btree.c:594-622 | the first scan accepts exactly disjoint readable payloads with an exact total_free |
| `Verifying.ReachableBlocksAreAccepted` | shared/btree.c:576-637 | every valid ordered non-empty block of insertable items is accepted; `TreeRun` shows that these hold of every block of a tree after any run |
| `Verifying.WrappedGapIsAccepted` | shared/btree.c:120-124 | with an avail_free that wraps the 16-bit end, a block is accepted whose gap runs past the block |
| `Verifying.VerifyFresh` | shared/btree.c:387-395 | an initialised empty block passes verify exactly when the stale bytes of its first offset name one past the block; over zeroes it is rejected |
| `Moving.MoveItems` | shared/btree.c:268-337 | the items next to dst leave src and join dst at that end in order; both stay valid, src with its avail_free untouched |
| `Moving.SourceShrinks` | shared/btree.c:328-332 | after the source's offsets collapse, its old avail_free is still safe |
| `Tree.TakeCountMeaning` | shared/btree.c:292-294 | the loop from the left stops at the first prefix that uses more than the target |
| `Tree.TakeCountRightMeaning` | shared/btree.c:295-298 | with the test, the loop from the right stops at the first suffix that uses more than the target |
| `Tree.MovesSomethingIff` | shared/btree.c:284-299 | a balancing move moves an item exactly when src is no emptier than dst |
| `Tree.DrainFits` | shared/btree.c:486-492 | draining is chosen only when both together use less than 72% of a block, and whenever they use at most 70% |
| `Tree.BalanceFits` | shared/btree.c:284-299 | with dst at or under the threshold, dst ends above half the sum and so above 35%, at most 772 bytes over half the sum, within a block; something moves but not everything |
| `Tree.RefillFits` | shared/btree.c:486-506 | whatever refill chooses fits, it empties the sibling exactly when it drains, and otherwise leaves the block above half the sum and above 35% |
| `Tree.SplitKeepsBoth` | shared/btree.c:463-468 | a split moves the shortest front part that uses more than half, and leaves items in both halves exactly when all but the last item use more than half |
| `TreeInvariant.MoveConserves` | shared/btree.c:268-337 | read left to right, the two blocks hold what they held |
| `TreeInvariant.RefIdentifies` | shared/btree.c:339-342 | a reference names one block number only |
| `TreeInvariant.RefIsLittleEndian` | shared/format-block.h:12-15 | the eight bytes of a reference are the block number's digits to the base 256, the lowest first |
| `TreeInvariant.SplitKeepsTree` | shared/btree.c:457-468 | the in-order items are unchanged, and separators stay right exactly when the last moved key is not the separator itself |
| `TreeInvariant.BalanceKeepsTree` | shared/btree.c:494-499 | balancing two neighbours keeps the in-order items and all separators |
| `TreeInvariant.DrainKeepsTree` | shared/btree.c:500-507 | draining keeps the in-order items, and the greater separator bounds the remaining block |
| `TreeInvariant.RefillKeepsTree` | shared/btree.c:470-509 | the whole refill keeps the tree: order, references and separators, whichever side and choice |
| `Refilling.UpdateParentKey` | shared/btree.c:360-370 | the separator becomes the child's last key and nothing else in the parent changes |
| `Refilling.UpdateParentRef` | shared/btree.c:372-385 | the parent item refers to the child, its key unchanged |
| `Refilling.Split` | shared/btree.c:463-468 | the shortest front part that uses more than half moves to the sibling, and the parent gets its item before the block's |
| `Refilling.Refill` | shared/btree.c:486-509 | the bytes of all three blocks end up as the tree-level refill says; the sibling is empty exactly when drained, always when both use at most 70% of a block together and never from 72%, and otherwise the block ends above half of what both use |
| `TreeMap.OwnerAnswers` | shared/btree.c:176-202 | of a key, the whole tree holds what the one child whose separators enclose it holds |
| `TreeMap.OwnerKeepsTree` | shared/btree.c:418-455 | an insert or delete in that child keeps the tree linked and its items of proper sizes |
| `TreeMap.SplitMakesRoom` | shared/btree.c:457-468 | a block that an insertable item does not fit splits into two non-empty ones that both have room for it |
| `TreeRun.TreeSplit` | shared/btree.c:463-468 | on the bytes of a linked tree, split leaves a linked tree with the same items in order, the new child just above half of what the old one used |
| `TreeRun.TreeRefill` | shared/btree.c:486-509 | so does refill, whichever side and choice; the sibling is gone exactly when it was drained, and otherwise the two are evened out in bytes |
| `TreeRun.TreeInsert` | shared/btree.c:418-468 | an insert by a caller that splits the child without room is the map's insert; only a parent without room for another child refuses it |
| `TreeRun.Run` | shared/btree.c:397-574 | any run of inserts, deletes, lookups, compactions, splits and refills keeps the tree linked, valid and of proper sizes, and refines one finite map |
| `TreeRun.RunVerifies` | shared/btree.c:387-637 | from one empty child, after any run, verify returns true for the parent and every non-empty child |
| `TreeRun.VerifyTree` | shared/btree.c:576-637 | verify accepts every non-empty block of such a tree and leaves its items as they are |
| `BtreeCode.DescendingScanIff` | shared/btree.c:511-517 | with offsets in the order the code sorts them, verify's loop accepts no block of two or more items |
| `BtreeCode.AscendingScanIff` | shared/btree.c:596-616 | with any order, the loop accepts exactly readable payloads each ending before the next |
| `BtreeCode.MovesAreClearIff` | shared/btree.c:560-569 | with that order, no move of compact's loop touches a payload not yet moved exactly when the highest payload ends below where all the others go |
| `BtreeCode.ClearMovesSqueeze` | shared/btree.c:560-569 | then the loop, on whatever bytes it reads, keeps every payload and leaves the block laid out without a hole |
| `BtreeCode.FirstMoveOverwrites` | shared/btree.c:560-569 | a laid out block with a hole whose first item that move destroys |
| `BtreeCode.CompactReturnsIff` | shared/btree.c:551-571 | with the unsigned index compact returns exactly when the counters were equal |
| `BtreeCode.SlotsPassIff` | shared/btree.c:301-323 | when all stores of a move pass the bound test; a split never does |
| `BtreeCode.StoredIsJoinedIff` | shared/btree.c:304-323 | where the stores pass from the right sibling, dst's last offsets are lost and stale ones counted: the array is dst's and the moved offsets exactly when the moved ones were in both places before |
| `BtreeCode.StoredFromLeft` | shared/btree.c:304-323 | a move from the left sibling leaves the moved offsets followed by dst's own |
| `BtreeCode.TakingAllIsRightIff` | shared/btree.c:295-298 | taking every item from the right is the right count exactly when all but the first fit the target |
| `BtreeCode.DrainCodeKeepsTreeIff` | shared/btree.c:379-384 | after a drain with the child's last value copied the tree still holds together exactly when that value is the child's reference |
| `DirtyRuns.StepKeeps` | shared/block.c:431-1007 | every step of every context keeps the invariant of sets, blocks, threads, queue, worker and counters |
| `DirtyRuns.ReachableHolds` | shared/block.c:431-1007 | so it holds in every reachable state |
| `DirtyRuns.BlocksAreTogether` | shared/block.c:935-973 | between dirty_begin and dirty_end all blocks the thread works for are dirty, in one set that is locked, queued and not being written; `DirtyCalls.BeginDirtiesAll` says which blocks these are |
| `DirtyRuns.OneHolder` | shared/block.c:885-890 | no two threads hold DIRTYING on one set |
| `DirtyRuns.DirtyingExcludesWriteback` | shared/block.c:622-630 | no reachable state has a thread past its WRITEBACK test and a writeback past its DIRTYING test on one set |
| `DirtyRuns.WaitersHoldNothing` | shared/block.c:886-902 | a waiting thread holds DIRTYING on no set |
| `DirtyRuns.WorkerWaitsEmptyHanded` | shared/block.c:626-630 | while the worker waits for a set, only sets being written and emptied ones show WRITEBACK |
| `DirtyRuns.HolderCanStep` | shared/block.c:885-931 | whoever waits for a DIRTYING bit waits for a thread that can take its next step |
| `DirtyRuns.FailureHoldsNothing` | shared/block.c:875-878 | a failing dirty_begin leaves no DIRTYING bit behind |
| `DirtyRuns.PendingInOrder` | shared/block.c:955-963 | writeback_list and the reversed writeback_llist carry exactly the numbers after the last taken set up to dirty_seq, in order |
| `DirtyRuns.BugsDoNotFire` | shared/block.c:437-438 | a completing block has a set, and WRITEBACK is clear when the worker sets it |
| `DirtyRuns.NrDirtyIsExact` | shared/block.c:949-953 | nr_dirty counts the dirty blocks less the debited ones, which are exactly those still listed by a set whose release has begun, and is never negative |
| `DirtyRuns.NrDirtyBetweenReleases` | shared/block.c:449-450 | with no set half let go it is the number of blocks with BL_DIRTY |
| `DirtyRuns.NrWritebackIsExact` | shared/block.c:634-636 | nr_writeback is the sum of submitted_blocks up to the two-step updates, and never negative |
| `DirtyRuns.CleanBlocksAreLast` | shared/block.c:804-816 | blocks not yet dirty are a suffix of their set's list, but for the marking walk itself |
| `DirtyCalls.BeginDirtiesAll` | shared/block.c:849-973 | over any run of a call from its start, however often it backs off, waits and starts over: when it succeeds, every block it was called for is dirty and in the one set it holds |
| `DirtyCalls.RestartsOnlyWhenOver` | shared/block.c:885-931 | a call that found a set held, being written or too large starts over only after that was over in some state: DIRTYING clear, WRITEBACK clear, or writeback past the kept set's number with nothing in flight |
| `DirtyCalls.MergeStaysSmall` | shared/block.c:917-941 | a merge leaves the blocks of both sets in one of at most 64, all pointing to it, and the other empty; it moves the smaller set unless only that one is queued |
| `DirtyProgress.CallAdvances` | shared/block.c:872-963 | each step of a call can be taken; it backs off exactly if the set is held by another thread, is being written, was left by the block, or the merge would exceed 64 blocks, and otherwise comes closer to success |
| `DirtyProgress.CallStartsIff` | shared/block.c:860-864 | a call starts exactly if fewer than 1024 blocks count as dirty |
| `DirtyProgress.WaitEnds` | shared/block.c:886-931 | once its reason is gone a wait ends by at most two steps of its own, at the first of all the blocks asked for |
| `DirtyProgress.SyncEnds` | shared/block.c:330-351 | once writeback has passed its number and nothing is in flight a sync returns by at most two steps of its own |
| `DirtyProgress.WorkerWaitsOut` | shared/block.c:622-630 | a worker that gave a set back takes no other before DIRTYING was clear on it in some state |
| `DirtyDrain.ServeFalls` | shared/block.c:431-656 | while nobody holds DIRTYING, every step of the worker and of a completion leaves less to do, by one measure of the whole state |
| `DirtyDrain.SomeServes` | shared/block.c:431-656 | and one can be taken unless the queue is empty, nothing is in flight and no block is dirty |
| `DirtyDrain.EverythingIsWritten` | shared/block.c:431-656 | so every run of them is shorter than that measure, can be continued until nothing is dirty, and by then each block that was dirty and unwritten has been written |
| `DirtyReturns.NewCallSucceeds` | shared/block.c:849-973 | while all threads are outside or wait, any list of blocks can be dirtied: a run ends with exactly these dirty, in one set that the caller holds |
| `DirtyReturns.WaitingCallSucceedsIff` | shared/block.c:885-931 | a waiting call can still succeed exactly unless it waits for WRITEBACK on a set that was taken empty, or that the worker has tested while it is empty |
| `DirtyReturns.SyncCanReturn` | shared/block.c:998-1007 | a sync can always return, with nothing dirty and every block written that was dirty and unwritten |
| `DirtyWake.SyncIsWokenIff` | shared/block.c:346-348 | when a step makes sync's condition true a wake of the sync is still to come exactly unless that step is the worker's store of writeback_seq with no set in flight |
| `DirtyWake.NobodyWakes` | shared/block.c:464-469 | with nothing queued or in flight no run without a dirtying call wakes a sync |
| `DirtyMissed.SyncSleepsOn` | shared/block.c:330-351 | a run in which the last completion wakes a sync too early and its condition then comes true with nobody left to wake it |
| `DirtySync.SharersStay` | shared/block.c:931-945 | dirty blocks of one set share a set after any step, unless the set is being let go |
| `DirtySync.TogetherUntilWritten` | shared/block.c:431-470 | over any run, dirty blocks that share a set share one until that set was written in full |
| `DirtySync.LetGoIsWritten` | shared/block.c:446-462 | a set is let go only after the write of each of its blocks completed |
| `DirtySync.LeavesEarlyOnlyClean` | shared/block.c:804-816 | a block leaves without joining another set only if it never became dirty or the set was written |
| `DirtySync.SyncConditionMeans` | shared/block.c:346-348 | when sync's condition holds for a number, every block of every set up to it has been written |
| `DirtySync.SyncConditionComesEarly` | shared/block.c:441-462 | when a completion takes nr_writeback to zero its set still lists the block, and sync's condition holds for that set's number exactly unless the worker is still at the set |
| `DirtySync.StillListedIff` | shared/block.c:346-348 | the blocks that sets up to a number still list when the condition holds for it are exactly those completed and not let go |
| `DirtyMissed.EarlyReachable` | shared/block.c:441-462 | a reachable state with the condition true for a number whose set lists a block |
| `DirtySync.SyncReturnsAfterWriting` | shared/block.c:998-1007 | a block dirty when a sync began was written before it returned, or had been, or is in a set dirtied later |
| `DirtySync.SyncMissesIff` | shared/block.c:998-1007 | such a block, unwritten in a numbered set when the sync began, is unwritten when it returns exactly when the set that the run's merges made of its set is still queued or only just taken; and then a merge moved it past the sync's number |
| `DirtyMissed.SyncMissesBlock` | shared/block.c:998-1007 | a run from a reachable state in which a sync is about to return success with a block unwritten that was dirty when it began |
| `DirtyServed.WritebackIsServed` | shared/block.c:599-656 | a set with WRITEBACK has a worker, IO or completion that can step, unless it was taken empty |
| `DirtyServed.EmptiedSetIsNeverServed` | shared/block.c:634-654 | a set taken empty keeps WRITEBACK in every later state |
| `DirtyServed.WaiterNeverResumes` | shared/block.c:898-902 | a thread that waits for WRITEBACK on such a set is where it is in every later state, without a step |
| `DirtyMissed.StuckForGood` | shared/block.c:898-902 | a reachable state with the worker at an empty set, and a later one with a thread that waits on it for good |
| `DirtyCode.MarkTail` | shared/block.c:947-953 | the marking loop computes the walk from the tail |
| `DirtyCode.DropTail` | shared/block.c:809-816 | the loop that backs off drops the trailing clean blocks from the list and from their set |
| `DirtyCode.MarkStepsWalk` | shared/block.c:947-953 | each marking step of the protocol leaves the same walk to do, the last one none |
| `DirtyCode.ReleaseStepsDrop` | shared/block.c:809-818 | each backing-off step leaves the same blocks to drop, and the bit is cleared when none is left |
| `DirtyCode.GatherLoop` | shared/block.c:511-527 | the gathered list is the old one followed by the reversed lockless list |
| `DirtyCode.WalkMarksAllIff` | shared/block.c:947-953 | the marking walk leaves all blocks dirty exactly when no clean block stands before a dirty one |
| `DirtyCode.DropKeepsDirtyIff` | shared/block.c:809-816 | backing off keeps exactly the dirty blocks exactly when no clean block stands before a dirty one |
| `DirtyCode.SpliceIff` | shared/block.c:935-938 | when splicing two lists whole keeps the clean blocks last |
| `DirtyCode.HeadSpliceBuriesClean` | shared/block.c:935-938 | a dirty set and a new one for which the splice as written does not |
| `DirtyCode.SizeRuleKeepsQueuedIff` | shared/block.c:917-941 | after the merge that compares sizes, the kept set is queued or all clean exactly when both or neither were queued or the sizes favour the queued one |
| `DirtyCode.LostStays` | shared/block.c:618-654 | a dirty block in an unqueued set stays there, dirty and unwritten, through any steps of worker, syncs, completions and all threads that do not hold the set |
| `DirtyMissed.OrphanIsNeverWritten` | shared/block.c:917-941 | a run as written to such a state: the worker passes the number of the block's former set and the block is never written |
| `DirtyCode.LimitNumberIsTakenIff` | shared/block.c:917-928 | the number that a merge over the limit waits for was taken for that set exactly if the set is queued |
| `DirtyCode.KeepingDirtyLosesCount` | shared/block.c:457-462 | wherever the counter stands, letting a block go without clearing BL_DIRTY puts it one further below the blocks it should count, and clearing keeps the distance |
| `DirtyCode.CountStaysExactIff` | shared/block.c:449-462 | from any reachable state, after any sequence of releases nr_dirty is exact exactly if none kept the flag |
| `DirtyMissed.LeftoverLeavesClean` | shared/block.c:457-462 | a run as written from a reachable state in which a block that kept BL_DIRTY lets a caller past dirty_begin with a new block not dirty |
| `DirtyMissed.LeftoverTakesCountBelowZero` | shared/block.c:449-450 | writing the set of that caller's blocks then takes nr_dirty to -2 |
| `DirtyCode.PushOrderMatters` | shared/block.c:955-963 | with number and push in two steps, the queue is in order exactly when the pushes are |
| `DirtyStale.StaleReachable` | shared/block.c:734-751 | a reachable state in which a thread is past both tests on a set that its block has left |
| `DirtyStale.LockedSetIsOursIff` | shared/block.c:875-911 | taking the locked set as one's own is right exactly when bl->set still names it |
| `DirtyStale.MergedSetHoldsAllIff` | shared/block.c:904-941 | merging it with the set being built leaves all blocks asked for in the survivor exactly when bl->set names one of the two |
| `DirtyLink.WinnerHoldsIff` | shared/block.c:776-797 | for any number of threads, the set published in bl->set has the block in its list exactly when its thread was the last to link it |
| `DirtyLink.LoserHoldsTheBlock` | shared/block.c:776-797 | otherwise its list leads to the block and the block on into a set that lost or will lose the cmpxchg |
| `DirtyLink.BlockLeadsToFreedSet` | shared/block.c:776-797 | two threads and an order of steps that end there, with that set freed |
| `SyncWaiters.WordIsExact` | shared/block.c:265-296 | the word is twice the number of waiters plus the error bit, with no error without waiters |
| `SyncWaiters.HitWaiterReturnsError` | shared/block.c:298-314 | every waiter counted when an error was latched returns it; `SyncWaiters.ReturnsErrorIff` has the other direction |
| `SyncWaiters.ReturnsErrorIff` | shared/block.c:298-314 | over any run, a waiter that left returned -EIO exactly if the word carried the error in the state in which it left, when it was still counted |
| `SyncWaiters.NoFailureNoError` | shared/block.c:265-314 | as long as no completion latches an error, nobody returns one |
| `SyncWaiters.FailureIsLatched` | shared/block.c:265-290 | a failed completion that begins and ends while a thread waits leaves the error in the word, however the swaps interleave |
| `SyncWaiters.LatchedIsReturned` | shared/block.c:298-314 | from then on that thread waits with the error in the word, or has returned it |
| `SyncWaiters.LeavesAlone` | shared/block.c:298-314 | a waiter that nobody interferes with leaves by one load and one swap, with the error exactly if it stands in the word |
| `SyncWaiters.LatchesAlone` | shared/block.c:265-290 | a failed completion that nobody interferes with latches the error exactly if somebody waits |
| `SyncWaiters.ErrorClearsWithTheLast` | shared/block.c:293-314 | the error goes exactly when the last waiter leaves and comes only while there is one |
| `WaitQueue.NoLostWakeup` | shared/lk/wait.h:46-84 | while a waiter sleeps with its condition true, some thread that made it true has yet to wake, and in every run in which that thread takes its at most four steps the waiter is woken |
| `WaitQueue.WakerWakens` | shared/lk/wait.h:74-84 | in every run, a waker that takes the steps it has left wakes whoever slept when it had them left |
| `WaitQueue.NrWaitingIsExact` | shared/lk/wait.h:86-89 | nr_waiting counts the waiters between their two updates, so the shortcut of block.c skips only empty queues |
| `WaitQueue.ReturnsOnlyHeld` | shared/lk/wait.h:46-65 | over any run, a waiter that has returned saw the condition it arrived for hold in some state since it last arrived |
| `WaitQueue.HeldReturns` | shared/lk/wait.h:46-65 | an awake waiter whose condition stays true returns by its own next steps, at most three, and does not sleep again |
| `WaitQueue.WakerWorksIff` | shared/lk/wait.h:74-89 | a waker makes the futex call exactly if a waiter is counted, and skips the counter exactly if it tests first and none is |
| `WorkQueue.QueuedOnce` | shared/lk/workqueue.c:58-69 | an item is in the queue at most once |
| `WorkQueue.BitIsExact` | shared/lk/workqueue.c:24-69 | WORK_QUEUED is set exactly while the item is being queued, queued, or dequeued and not cleared |
| `WorkQueue.CallIsFollowed` | shared/lk/workqueue.c:24-69 | after every queue_work call func has started, or is still on its way |
| `WorkQueue.StartsAreClaims` | shared/lk/workqueue.c:24-69 | func has started once for each queue_work call that found the bit clear, but for the one start that is on its way |
| `WorkQueue.StartsInOrder` | shared/lk/workqueue.c:24-69 | the items started, the one the worker holds and those queued are, in this order, the items enqueued so far |
| `WorkQueue.EverythingStarts` | shared/lk/workqueue.c:24-56 | once no thread is between claim and enqueue, three steps of the worker for each queued item start all that was claimed and clear every bit |
| `Trace.WriterOwnsItsBuffers` | shared/trace.c:106-165 | from the end of the grace period until TB_WRITING is cleared no thread stores into the buffer |
| `Trace.BufferIsInOnePlace` | shared/trace.c:175-184 | a marked buffer is in exactly one place, never in the shared queue and the writer's list both |
| `Trace.NothingIsLostIff` | shared/trace.c:128-165 | over any run, what was stored in a buffer is what was written from it followed by what is still in it, exactly if events go behind each other or no store of the run found bytes in the buffer |
| `Trace.FirstEventIsLost` | shared/trace.c:190-234 | a run as written of two stores and a flush: 32 bytes are written, none of them the first event's, half of them never stored |
| `Trace.StoresFit` | shared/trace.c:206-229 | no store runs past the end of its buffer |
| `Trace.StorersDiffer` | shared/trace.c:190-234 | two threads never store into one buffer |
| `Trace.ToTailMoves` | shared/trace.c:212-213 | a retired buffer goes behind all others of its thread, whose order stays |
| `TraceFlush.FlushReachesAll` | shared/trace.c:237-256 | over any run, for each thread there is a moment during a flush such that all buffers with bytes of the thread at that moment are marked for the writer by its end |
| `TraceFlush.FlushWritesAll` | shared/trace.c:237-263 | from any state with no thread in a call, a flush and the writer alone get everything that was ever stored written, if events go behind each other |
| `TraceFlush.FlushWaitMeans` | shared/trace.c:258-262 | when the shared queue is empty a marked buffer is in the writer's hands, its bytes written exactly if the writer has come to it |
| `TraceFlush.FlushReturnsEarly` | shared/trace.c:258-262 | a run in which a flush's condition holds with a marked buffer of two events not written |
| `TraceFlush.EventAlone` | shared/trace.c:190-234 | a call that nobody interferes with stores behind the storing buffer's events if that is unmarked and has room, else into the first buffer after it was retired, else nowhere |
| `Framing.WholeIovec` | shared/mtr-socket.c:81-107 | every byte of the vector is moved in order and no other byte changes; success exactly when the stream suffices and no call fails |
| `Framing.StepOver` | shared/mtr-socket.c:93-103 | the inner loop leaves the vector that describes the bytes not yet moved |
| `Framing.HeaderRoundTrip` | shared/format-msg.h:32-37 | a proper message's header parses back to its sizes and type and verifies; bytes 4 and 5 are the data size with the low byte first, byte 6 the control size, byte 7 the type |
| `Framing.FrameOnWire` | shared/mtr-socket.c:487-503 | a frame is four free bytes, the data size in two with the low one first, the control size, the type, the control bytes and the data, and nothing else |
| `Framing.ParseReads` | shared/mtr-socket.c:185-228 | what parsing finds is acceptable and carried by a front part of the bytes, and it stops before the rest for the reason it gives |
| `Framing.RoundTrip` | shared/mtr-socket.c:188-228 | parsing the concatenated frames gives back every message list, whatever follows it |
| `Framing.SendAll` | shared/mtr-socket.c:469-508 | the stream gets the frames of the messages, byte by byte as on the wire, in the order they were queued; after a failure a front part of them |
| `Framing.ReceiveAll` | shared/mtr-socket.c:165-232 | exactly the messages in the stream are delivered, of types 0 to 3, as the wire format carries them; a bad header gives -22, an end inside or between messages -108 |
| `Framing.Transmit` | shared/mtr-socket.c:81-232 | whatever was sent arrives, for every fragmentation on both sides |

## Left out

- BtreeBlock.Block: the 16 header bytes are fields of the class, not bytes of the array; item offsets and payloads are bytes.
- BtreeBlock.Block.Insert: a caller that inserts a new key has made room, as the BUG_ON in insert_item asks; `BlockMap.DoPut` is such a caller.
- Compacting.SortOffs: sort_r is a verified insertion sort, not the C library's.
- Refilling.Refill: parent and child keys have the same size and parent values are references, as the code says incoming blocks were verified to.
- TreeRun.Run: one parent and its children; the code has no walk of a taller tree yet. Keys are of one size and end at the greatest separator, as the code says blocks were verified to; the caller around split and refill is this model's.
- Verifying.Verify: nothing is claimed about bytes outside the block that the code could read for an empty one.
- DirtySets.Fetch: linking a block into a set and publishing bl->set is one step; `DirtyLink` models the race of the two steps by itself, without the rest of the protocol.
- DirtySets.Merge: moving the block pointers, splicing and clearing SET_DIRTY is one step, under both DIRTYING bits.
- DirtySets.MarkOne: setting BL_DIRTY and raising nr_dirty is one step.
- DirtySets.ReleaseOne: dropping a block in clear_set_dirtying and letting one go in end_write_io are single steps, so the two walks do not meet inside a list operation.
- DirtySets.SyncStep: a waiting sync may test its condition at any step; `DirtyWake` says when a wake of the code makes it do so.
- DirtySets.WorkerBreaks: should_writeback is a free choice at every set, because it reads counters that others change; the limits on queue depth and dirty blocks per set are not proved.
- DirtyDrain.EverythingIsWritten: says what any run of the worker and the completions comes to while no thread dirties; that a scheduler runs them, and that a sync ends while others keep dirtying, is not claimed. The same for `DirtyReturns.SyncCanReturn`.
- Reference counts of blocks and sets, memory freeing and the hash table; a set is never reused.
- IO errors of writes, which end_write_io does not support; read IO.
- DirtyMissed.OrphanIsNeverWritten: the steps after the merge are the model's; only the merge is as written. The same for `DirtyMissed.LeftoverLeavesClean` and the release.
- WaitQueue: the 32-bit wake counter does not wrap.
- WorkQueue: destroying the queue, and work that queues itself while it is destroyed.
- Trace: allocation, freeing and the registration of threads; events larger than a buffer; what a byte's value is, only which store and place it came from.
- Framing.ReceiveAll: a message handler that fails, and a page allocation that fails, end the loop in the code.
- devd, client start-up, options, debugfs, mount, kernel aio, transactions and inode operations: they add callers, not harder properties.
- Endianness of the host and memory barriers.
