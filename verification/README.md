# Block I/O of the UCSB Linux 2.5.67 kernel: model and proofs

This project models three connected parts of the kernel's block layer and proves properties
of them in Dafny 4.11.  `dafny verify dfyconfig.toml` checks everything.

**The deadline I/O scheduler with the QoS queue.**  `Scheduler`, `Merging` and `BlockQueue`
describe the scheduler, its merge lookups and `__make_request` as functions on one state
value; `DeadlineQueue` has the same operations as methods of a class with the fields of
`struct deadline_data`, loops included, each proved to do what its function says.  `SortTree`
holds the tree descents, `QosQueue` the two list scans of the QoS queue.  `Runs` defines
events (a bio arrives, time passes, the driver fetches or dequeues) and the invariant that
every run keeps.  On top of it are the starvation bound (`Starvation`), expiry and elevator
order (`Frames`, `Orders`), the order of the QoS queue (`QosOrder`), barrier order
(`Barriers`), work conservation (`Service`) and conservation of I/O under merging
(`Conservation`).  `Placement` says which request a bio ends up in, `Batches` what a batch is
entitled to.  `Witnesses` and `BatchRuns` build runs that show where a comment or a bound stops.

**Direct I/O.**  `DirectIo` is a class with the fields of `struct dio`: the walk over user
pages and file blocks, the mapping of blocks, the zeroing of partly written new blocks, the
deferring and coalescing of page sections, and the packing into bios (`BioPages`).
`FileLayout` and `DioBlocks` say what a request means: a list of (page, offset, disk block)
triples, one per block.  `DirectIoWorker` runs a whole request and proves that the submitted
bios, read in order, mean exactly that list.  `DioCoverage` draws the conclusions for
writes, `DioEof` those for reads at the end of the file.  `DioCompletion` is the completion protocol as a step machine under every
interleaving of the submitter, its reaps included, and the completions of its bios;
`DioReports` says which of their errors the caller gets to know, `DioErrors` which of several.

**Request accounting.**  `Segments` is segment counting against scatterlist building,
`PartialCompletion` the ending of part of a request, `TagQueue` the tag allocator.

## Where the code does not do what its comments say

- The QoS queue is called "sorted by priority" (deadline-iosched.c:304).  It is not:
  `PriorityOrderCanBreak`, with the exact condition in `PriorityOrderIff`.
- A barrier does not wait for requests in `ucsb_queue`: `BarrierPassesQos`.
- "Run out of higher-sectored requests" (deadline-iosched.c:671-675) is not what an empty
  next_drq means.  It is set at a move and handed on when its request leaves the tree, but an
  insertion, or a front merge of next_drq itself, does not set it.  `RestartRule` proves what
  does hold: only requests linked after the last move are passed over.  `PassedOver` is a run
  in which one is.
- With `writes_starved` 0 reads have no bound: `ReadsWaitForever`, `ZeroStarvesReads`.
- A batch should end at a non-sequential request (deadline-iosched.c:613).  A wrap of the
  32-bit batch counter takes an ended batch up again: `WrapResumesBatch`, with a run in
  `WrapPassesWrite`.  `StarvationBound` holds all the same.
- The hash lookup of `deadline_merge` gives up on a back merge when the first request found
  at the offset has another direction or disk: `MergeMissesIff`, with a run in
  `HashHidesMerge`; `BackMergeSure` says when it does not.
- The "minus one" of `ll_merge_requests_fn` can be smaller than the scatterlist:
  `MinusOneUndercounts`, `MinusOneIff`.
- The retry in `bio_add_page` never succeeds: `RetryRefusesRoom`, `RefusedThoughRoomIff`.  It
  does leave a recount behind, so that a second call can (`SecondCallTakes`).
- `__end_that_request_first` edits the vector at `bi_idx`, not the one it stopped in
  (ll_rw_blk.c:2087-2088).  Then vectors and bi_size no longer agree, and a later call can run
  into the BIO_BUG_ON at line 2081: `CutContent`, `CutSurplus`, `SecondCall`,
  `SecondCallFires`.
- `dio_zero_block` drops the result of `submit_page_section` (direct-io.c:669-671).  At the
  start of a request nothing is deferred and it cannot fail; at the end, when the deferred
  section needs a bio that is not to be had, that section is lost and no error is given.
  `Finish` and `Worker` prove that this is the only such case and exactly when it happens:
  only in a write that ends inside a filesystem block of a new mapping.  `LostSilently` is a
  run that writes nothing and gives its 512 bytes.  When the bio is not had because a reaped
  one failed the result still keeps -EIO (`LateErrorReported`); want of memory leaves no trace.
- A failed bio puts -EIO into `dio->result` (direct-io.c:343), and the walk goes on adding the
  bytes of its segments to it (direct-io.c:909).  For an asynchronous request this is all
  there is: its error is lost once EIO bytes or more are added afterwards (`AsyncReport`, a
  run in `ErrorLost`).  A synchronous one also reports the error of every bio awaited at the
  end and of the last bio of every reap in the walk or the last send, since that one ends
  them.  So the error of a bio is lost exactly if it is reaped in the walk, not last, and EIO
  bytes or more are added afterwards: `SyncReport`, a run in `SyncErrorLost`.
- `total_pages` counts a page for an empty buffer that starts inside one: `TotalPagesExact`.
- `get_blocks` must mark a mapping new if any block of it is (direct-io.c:424).  Zeros are
  then also written around the data in an old first or last block of such a mapping; the
  theorems promise zeros around every new block, not only around new ones.

## Conventions

A power-of-two shift or mask is written as division or remainder: `fac` is `1 << blkfactor`,
`bs` is `1 << blkbits`. `BlockQueue` takes the answers of the segment tests as two booleans, so
its theorems hold for whatever those tests say. The dispatch log, the requests linked since the
last move, the list of submitted bios and the sets of submitted and taken bios are ghost
records that the operations never look at. What comes from outside (no memory, a failed
`get_blocks`, a page fault, an I/O error of a reaped bio) is an arbitrary function of the
number of the call, `Outside`; in `DioCompletion` it is a choice among steps. A bio can also be
refused for wanting more than 256 vectors. The walk of `DioCompletion` is given by the number
of its bios and the bytes of its segments; once it fails, what is still added and sent is any
amount up to that. `get_user_pages` returns at least one page or an error. `get_blocks` maps a
non-empty contiguous run where it says, maps every block of a write, and leaves the buffer head
clear when it fails. A page of a device always fits an empty bio. A filesystem block is at most
a page.

## Model

| member | source | states |
|---|---|---|
| `SortTree.Find` | ucsb-io/ucsb-io-2.5.67/drivers/block/deadline-iosched.c:246-264 | the descent returns the request stored under the sector, and nothing exactly when no key equals it |
| `SortTree.FindFirst` | ucsb-io/ucsb-io-2.5.67/drivers/block/deadline-iosched.c:271-282 | the leftmost descent ends at the smallest key of the tree |
| `SortTree.Next` | ucsb-io/ucsb-io-2.5.67/drivers/block/deadline-iosched.c:227-238 | the successor of a key is the smallest key above it, or none when there is none (rb_next) |
| `SortTree.Prev` | ucsb-io/ucsb-io-2.5.67/drivers/block/deadline-iosched.c:800-810 | the predecessor of a key is the largest key below it, or none (rb_prev) |
| `SortTree.Link` | ucsb-io/ucsb-io-2.5.67/drivers/block/deadline-iosched.c:186-207 | a new key is linked without disturbing order, all other entries as before; an equal key is returned as the alias and the tree stays |
| `SortTree.Rebalance` | ucsb-io/ucsb-io-2.5.67/drivers/block/deadline-iosched.c:216-221 | rebalancing may change the shape but neither contents nor order |
| `QosQueue.FindSlot` | ucsb-io/ucsb-io-2.5.67/drivers/block/deadline-iosched.c:309-328 | both scans end where the lemmas below say; the request in front (if any) has a sector no greater, every one the backward scan passed a greater one |
| `QosQueue.StableSectorInsert` | ucsb-io/ucsb-io-2.5.67/drivers/block/deadline-iosched.c:322-328 | with one priority the new request goes behind exactly the entries whose sector is no greater: a stable sector sort |
| `QosQueue.OneClassForever` | ucsb-io/ucsb-io-2.5.67/drivers/block/deadline-iosched.c:297-364 | while all priorities are equal the queue stays sorted by sector over any mix of inserts and dispatches |
| `QosQueue.PriorityOrderIff` | ucsb-io/ucsb-io-2.5.67/drivers/block/deadline-iosched.c:303-328 | when an insert keeps the queue sorted by priority, as the comment says it always is: exactly under two conditions on what stops the scans |
| `QosQueue.PriorityOrderCanBreak` | ucsb-io/ucsb-io-2.5.67/drivers/block/deadline-iosched.c:303-328 | an insert that breaks priority order |
| `Scheduler.UcsbKeys` | ucsb-io/ucsb-io-2.5.67/drivers/block/deadline-iosched.c:297-330 | on priorities and sectors, linking a request into ucsb_queue is the insertion that QosQueue speaks about |
| `Elevator.TryMergeContiguous` | ucsb-io/ucsb-io-2.5.67/drivers/block/elevator.c:102-138 | a back or front answer touches the request at that end, in the same direction and on the same disk, for I/O that lies on the device |
| `Scheduler.MoveAgree` | ucsb-io/ucsb-io-2.5.67/drivers/block/deadline-iosched.c:547-566 | moving a request to the dispatch list keeps all indexes in agreement |
| `Scheduler.MoveEffect` | ucsb-io/ucsb-io-2.5.67/drivers/block/deadline-iosched.c:547-566 | the move takes exactly this request off tree, FIFO and hash and appends it to dispatch |
| `Scheduler.DelHashAgree` | ucsb-io/ucsb-io-2.5.67/drivers/block/deadline-iosched.c:125-135 | taking a request off the hash touches nothing else |
| `Scheduler.AddHashAgree` | ucsb-io/ucsb-io-2.5.67/drivers/block/deadline-iosched.c:137-146 | putting it on the hash under the current generation keeps agreement |
| `Scheduler.DelRbAgree` | ucsb-io/ucsb-io-2.5.67/drivers/block/deadline-iosched.c:227-244 | taking a request off the tree keeps agreement, next_drq passing to its successor |
| `Scheduler.EvictedAgree` | ucsb-io/ucsb-io-2.5.67/drivers/block/deadline-iosched.c:209-225 | the alias retry loop repeats at most once: after moving the alias away the sector is free |
| `Scheduler.AddRbAgree` | ucsb-io/ucsb-io-2.5.67/drivers/block/deadline-iosched.c:209-225 | afterwards the request is on the tree under its start sector and agreement holds |
| `Scheduler.AddRequestAgree` | ucsb-io/ucsb-io-2.5.67/drivers/block/deadline-iosched.c:372-383 | tree and FIFO receive the same request |
| `Scheduler.FifoMeansTree` | ucsb-io/ucsb-io-2.5.67/drivers/block/deadline-iosched.c:626-644 | a direction with queued requests has a non-empty tree, so the two BUG_ONs cannot fire |
| `Scheduler.TreeMeansFifo` | ucsb-io/ucsb-io-2.5.67/drivers/block/deadline-iosched.c:52-56 | whoever is on the tree is queued |
| `Scheduler.SelectedQueued` | ucsb-io/ucsb-io-2.5.67/drivers/block/deadline-iosched.c:591-684 | what is selected is a queued request, and something is selected exactly when one is queued |
| `Scheduler.DispatchAgree` | ucsb-io/ucsb-io-2.5.67/drivers/block/deadline-iosched.c:591-689 | a dispatch keeps agreement and moves exactly the selected request |
| `Scheduler.DrainAgree` | ucsb-io/ucsb-io-2.5.67/drivers/block/deadline-iosched.c:740-745 | the drain loop of a barrier terminates, keeps agreement and leaves both FIFOs empty |
| `Scheduler.UcsbDispatchAgree` | ucsb-io/ucsb-io-2.5.67/drivers/block/deadline-iosched.c:347-364 | dispatching the QoS head keeps agreement and ucsb_cnt |
| `Scheduler.InsertBestEffortAgree` | ucsb-io/ucsb-io-2.5.67/drivers/block/deadline-iosched.c:775-782 | inserting a best-effort request keeps agreement |
| `Scheduler.InsertQosAgree` | ucsb-io/ucsb-io-2.5.67/drivers/block/deadline-iosched.c:759-772 | inserting a QoS request links it once, keeps ucsb_cnt equal to the length and agreement |
| `Scheduler.InsertBarrierAgree` | ucsb-io/ucsb-io-2.5.67/drivers/block/deadline-iosched.c:740-749 | inserting a barrier keeps agreement and leaves no best-effort request queued |
| `Merging.ScanMeaning` | ucsb-io/ucsb-io-2.5.67/drivers/block/deadline-iosched.c:148-173 | the pruning scan is a linear search for a fresh mergeable entry, and throws out only stale ones |
| `Merging.PruneLeaves` | ucsb-io/ucsb-io-2.5.67/drivers/block/deadline-iosched.c:148-173 | the lookup throws out exactly the stale entries in front of what it finds, or all of them if it finds nothing, keeps the order of the rest, and marks those thrown out as off the hash |
| `Merging.FindHashExact` | ucsb-io/ucsb-io-2.5.67/drivers/block/deadline-iosched.c:148-173 | the hash lookup finds a mergeable queued request ending at the offset exactly when there is one |
| `Merging.PruneAgree` | ucsb-io/ucsb-io-2.5.67/drivers/block/deadline-iosched.c:148-173 | lazy pruning changes only generation numbers and hash lists and keeps agreement |
| `Merging.FrontTargetExact` | ucsb-io/ucsb-io-2.5.67/drivers/block/deadline-iosched.c:445-460 | the tree lookup finds a front merge exactly when front_merges is on and a queued request of that direction begins where the bio ends and passes elv_rq_merge_ok; there is at most one |
| `Merging.MergeMissesIff` | ucsb-io/ucsb-io-2.5.67/drivers/block/deadline-iosched.c:416-468 | deadline_merge answers no merge exactly when last_merge does not fit, no front merge is to be had by the tree, and the first request found in the hash, if any, fails elv_rq_merge_ok |
| `Merging.BackMergeSure` | ucsb-io/ucsb-io-2.5.67/drivers/block/deadline-iosched.c:416-443 | when every mergeable request ending where the bio starts has its direction and disk and is neither waiting nor special, no merge is answered only if there is no such request |
| `Merging.LookupMergeSound` | ucsb-io/ucsb-io-2.5.67/drivers/block/deadline-iosched.c:432-467 | an indexed answer names a queued mergeable request that touches the bio |
| `Merging.MergeSound` | ucsb-io/ucsb-io-2.5.67/drivers/block/deadline-iosched.c:416-468 | any answer of deadline_merge names a queued request that touches the bio on that side, same direction and disk; the BUG_ONs at 437 and 453 cannot fire |
| `Merging.MergedRequestAgree` | ucsb-io/ucsb-io-2.5.67/drivers/block/deadline-iosched.c:470-490 | repositioning a grown request in hash and tree restores agreement |
| `Merging.InheritExpiryAgree` | ucsb-io/ucsb-io-2.5.67/drivers/block/deadline-iosched.c:515-524 | splicing the merged request into its neighbour's place of the FIFO keeps membership |
| `Merging.RetireAgree` | ucsb-io/ucsb-io-2.5.67/drivers/block/deadline-iosched.c:526-529 | the absorbed request disappears from every index |
| `Merging.MergedRequestsAgree` | ucsb-io/ucsb-io-2.5.67/drivers/block/deadline-iosched.c:492-530 | request-request merging as a whole keeps agreement |
| `Frames.InheritExpiryFramed` | ucsb-io/ucsb-io-2.5.67/drivers/block/deadline-iosched.c:515-524 | the merged expiry is the smaller of the two, and the FIFO stays sorted by expiry |
| `Frames.ToFifoFramed` | ucsb-io/ucsb-io-2.5.67/drivers/block/deadline-iosched.c:378-382 | a new request at the tail keeps the FIFO sorted by expiry |
| `Frames.DispatchOrdered` | ucsb-io/ucsb-io-2.5.67/drivers/block/deadline-iosched.c:591-689 | a dispatch keeps expiry order, and next_drq ahead of the request moved last |
| `Frames.RepositionFramed` | ucsb-io/ucsb-io-2.5.67/drivers/block/deadline-iosched.c:481-487 | repositioning after a front merge keeps both orders |
| `Frames.MergedRequestsFramed` | ucsb-io/ucsb-io-2.5.67/drivers/block/deadline-iosched.c:492-530 | merging two requests keeps expiry order and sweep order |
| `Frames.InsertBestEffortFramed` | ucsb-io/ucsb-io-2.5.67/drivers/block/deadline-iosched.c:775-782 | inserting keeps expiry order and sweep order, also when an alias is pushed out |
| `BlockQueue.NewRequestInv` | ucsb-io/ucsb-io-2.5.67/drivers/block/ll_rw_blk.c:1785-1826 | giving a bio a request of its own keeps agreement, in all three branches of the insert |
| `BlockQueue.JoinAgree` | ucsb-io/ucsb-io-2.5.67/drivers/block/ll_rw_blk.c:1586-1627 | where attempt_merge merges two requests agreement is kept; where it refuses is part of the next two rows |
| `BlockQueue.BackMergedAgree` | ucsb-io/ucsb-io-2.5.67/drivers/block/ll_rw_blk.c:1724-1740 | a back merge, with the merge of requests it may lead to, keeps agreement |
| `BlockQueue.FrontMergedAgree` | ucsb-io/ucsb-io-2.5.67/drivers/block/ll_rw_blk.c:1742-1767 | a front merge, with the merge of requests it may lead to, keeps agreement |
| `BlockQueue.MakeRequestAgree` | ucsb-io/ucsb-io-2.5.67/drivers/block/ll_rw_blk.c:1679-1826 | __make_request keeps all indexes in agreement, on every path |
| `BlockQueue.NextRequestAgree` | ucsb-io/ucsb-io-2.5.67/drivers/block/deadline-iosched.c:691-728 | deadline_next_request keeps agreement |
| `BlockQueue.FetchAgree` | ucsb-io/ucsb-io-2.5.67/drivers/block/elevator.c:315-353 | handing a request to the driver keeps agreement, and it is no longer last_merge |
| `BlockQueue.TakeAgree` | ucsb-io/ucsb-io-2.5.67/drivers/block/elevator.c:355-371 | removal by the driver keeps agreement |
| `Placement.SubmitPlaces` | ucsb-io/ucsb-io-2.5.67/drivers/block/ll_rw_blk.c:1718-1779 | what becomes of a best-effort bio: if deadline_merge names a request q the bio takes no request of its own exactly when both sizes together are within max_sectors and the segment test agrees, and is then at its end of the chain of q or of the request q was joined with; else q keeps its bios, is no longer mergeable or last_merge, and the bio is alone in its request; without q it is alone as well |
| `Placement.BackJoinIs` | ucsb-io/ucsb-io-2.5.67/drivers/block/ll_rw_blk.c:1586-1646 | after a back merge the request is joined with the next one in sector order exactly when it now reaches it, both are mergeable, of one direction and disk, none special or waited for, within max_sectors together, and the test agrees |
| `Placement.FrontJoinIs` | ucsb-io/ucsb-io-2.5.67/drivers/block/ll_rw_blk.c:1586-1655 | the same after a front merge, with the request before it in sector order |
| `Placement.AnswerOrder` | ucsb-io/ucsb-io-2.5.67/drivers/block/deadline-iosched.c:416-468 | last_merge is tried first, then the first entry of the hash, then the tree; what is named is noted as last_merge, and a last_merge that cannot be merged with is forgotten |
| `Placement.StepShut` | ucsb-io/ucsb-io-2.5.67/drivers/block/ll_rw_blk.c:865-892 | a request once refused a merge keeps its mark and its bios at every event |
| `Placement.RefusedForever` | ucsb-io/ucsb-io-2.5.67/drivers/block/ll_rw_blk.c:865-892 | and so over every run, until the driver takes it |
| `Conservation.NewRequestOwned` | ucsb-io/ucsb-io-2.5.67/drivers/block/ll_rw_blk.c:1785-1826 | the new bio is in exactly one request, every other bio where it was |
| `Conservation.BackMergedContent` | ucsb-io/ucsb-io-2.5.67/drivers/block/ll_rw_blk.c:1734-1740 | after a back merge the chain is contiguous from the start sector, its length the sum of its bios and within max_sectors |
| `Conservation.FrontMergedContent` | ucsb-io/ucsb-io-2.5.67/drivers/block/ll_rw_blk.c:1752-1766 | the same after a front merge |
| `Conservation.BackMergedOwned` | ucsb-io/ucsb-io-2.5.67/drivers/block/ll_rw_blk.c:1734-1740 | no bio is lost or doubled by a back merge |
| `Conservation.FrontMergedOwned` | ucsb-io/ucsb-io-2.5.67/drivers/block/ll_rw_blk.c:1752-1766 | no bio is lost or doubled by a front merge |
| `Runs.FreshGood` | ucsb-io/ucsb-io-2.5.67/drivers/block/deadline-iosched.c:857-933 | an initialised scheduler satisfies the invariant of runs |
| `Runs.StepGood` | ucsb-io/ucsb-io-2.5.67/drivers/block/ll_rw_blk.c:1679-1826 | every event (time, bio, fetch, dequeue) keeps the whole invariant: indexes, hash generations, both orders, contiguous chains, one owner per bio; QoS bios alone |
| `Runs.ExecGood` | ucsb-io/ucsb-io-2.5.67/drivers/block/ll_rw_blk.c:1679-1826 | so does every run of events |
| `Starvation.StarvationBound` | ucsb-io/ucsb-io-2.5.67/drivers/block/deadline-iosched.c:591-689 | while the other direction waits, at most writes_starved*(f+1)+f read choices go before a write, and 2f+1 write choices before a read if writes_starved >= 1, f = fifo_batch: over every run, from every state a run reaches, for every setting the code accepts and through any wrap of the batch counter |
| `Starvation.RoomyBound` | ucsb-io/ucsb-io-2.5.67/drivers/block/deadline-iosched.c:591-689 | with room in the counter for one addition of fifo_batch per choice outside a batch, each such choice begins one batch at most: no more choices than the credit of the state the run starts from, at most writes_starved*B+f and B+f, B = max(1, f) |
| `Starvation.StepPays` | ucsb-io/ucsb-io-2.5.67/drivers/block/deadline-iosched.c:591-689 | every event uses up the credit of the overtaking direction by at least what it chooses |
| `Starvation.ZeroStarvesReads` | ucsb-io/ucsb-io-2.5.67/drivers/block/deadline-iosched.c:629-636 | with writes_starved = 0 and no read sweep under way the drain takes n writes before the first read, for every n up to the writes queued |
| `Starvation.WrapResumesBatch` | ucsb-io/ucsb-io-2.5.67/drivers/block/deadline-iosched.c:609-619 | when adding fifo_batch to the 32-bit counter wraps, and only then, an ended batch is taken up again |
| `Batches.BatchGoesOn` | ucsb-io/ucsb-io-2.5.67/drivers/block/deadline-iosched.c:603-619 | the decision when a batch of fewer than fifo_batch runs and next_drq starts where the last request ended: it is taken, whatever waits in the other direction, and the count of passed-over writes stays |
| `Batches.DecisionCounts` | ucsb-io/ucsb-io-2.5.67/drivers/block/deadline-iosched.c:660-684 | every restart begins the count anew at one, every sweep in line adds one |
| `Batches.StepBatch` | ucsb-io/ucsb-io-2.5.67/drivers/block/deadline-iosched.c:591-689 | every event keeps that rule for the whole dispatch log, and a batch that goes on through one does not touch the count of passed-over writes |
| `Batches.BatchLasts` | ucsb-io/ucsb-io-2.5.67/drivers/block/deadline-iosched.c:591-689 | over any run from a state in which a batch runs: while all is in line and there is room in it, every decision goes through next_drq and writes are not counted as passed over, whatever arrives |
| `Batches.RestartGrants` | ucsb-io/ucsb-io-2.5.67/drivers/block/deadline-iosched.c:591-689 | over every run from a fresh scheduler: after any restart, however long the batches before, the next fifo_batch - 1 decisions go through next_drq as long as each request starts where the one before ended, and without an alias in between in the direction of the restart and upwards |
| `BatchRuns.CreditMet` | ucsb-io/ucsb-io-2.5.67/drivers/block/deadline-iosched.c:591-689 | for every writes_starved and every positive fifo_batch a run attains the bound: after the first read of a batch a write comes, and fifo_batch - 1 + writes_starved * fifo_batch reads go before it, exactly the credit of that state in RoomyBound |
| `Witnesses.ReadsWaitForever` | ucsb-io/ucsb-io-2.5.67/drivers/block/deadline-iosched.c:629-636 | with writes_starved = 0 there is no bound: for every n a run from a fresh scheduler makes n choices, all of them writes, while a read waits; so the condition of the bound is needed |
| `Witnesses.BoundMet` | ucsb-io/ucsb-io-2.5.67/drivers/block/deadline-iosched.c:591-689 | for fifo_batch 0 and every writes_starved a run from a fresh scheduler takes exactly as many reads past a waiting write as RoomyBound allows |
| `Witnesses.WrapPassesWrite` | ucsb-io/ucsb-io-2.5.67/drivers/block/deadline-iosched.c:609-619 | a run in which, by the wrap, a third read is taken though it is not sequential, the batch is used up and the waiting write is due |
| `Witnesses.HashHidesMerge` | ucsb-io/ucsb-io-2.5.67/drivers/block/deadline-iosched.c:432-443 | a run after which deadline_merge answers no merge although a queued request ends at the bio and passes elv_rq_merge_ok |
| `Witnesses.PassedOver` | ucsb-io/ucsb-io-2.5.67/drivers/block/deadline-iosched.c:670-678 | a run after which a restart goes below the sector served last, over an unexpired request of the same direction waiting above it |
| `Orders.HeadDecides` | ucsb-io/ucsb-io-2.5.67/drivers/block/deadline-iosched.c:574-585 | looking at the FIFO head answers whether any queued request of the direction has expired |
| `Orders.ExpiryIsTimely` | ucsb-io/ucsb-io-2.5.67/drivers/block/deadline-iosched.c:381-382 | no queued request expires later than fifo_expire from now |
| `Orders.OneWay` | ucsb-io/ucsb-io-2.5.67/drivers/block/deadline-iosched.c:547-566 | over every run: a request taken through next_drq has a strictly greater sector than the one moved before it, and its direction |
| `Orders.SweepNeedsStart` | ucsb-io/ucsb-io-2.5.67/drivers/block/deadline-iosched.c:603-619 | a sweep is always preceded by a move that started it |
| `Orders.LinkedAhead` | ucsb-io/ucsb-io-2.5.67/drivers/block/deadline-iosched.c:227-244 | whoever waits between the request moved last and next_drq (or above it, if there is none), in that direction, was linked into the tree after that move |
| `Orders.RestartRule` | ucsb-io/ucsb-io-2.5.67/drivers/block/deadline-iosched.c:656-679 | a sweep step goes up and passes over nobody but requests linked since the last move; the sweep is left only for an expired FIFO head, or when in its direction only such requests are left above, and then for the smallest queued sector |
| `Orders.FreeChoice` | ucsb-io/ucsb-io-2.5.67/drivers/block/deadline-iosched.c:621-684 | outside a batch: reads have their turn unless a write waits that has been passed over writes_starved times; in the direction chosen the request that expires first is taken exactly when any has expired, and next_drq exactly when none has and there is one |
| `Orders.PassesOver` | ucsb-io/ucsb-io-2.5.67/drivers/block/deadline-iosched.c:670-678 | the exception happens: with both cursors empty the choice restarts below the last move although a request waits above it |
| `Frames.MovedSweeps` | ucsb-io/ucsb-io-2.5.67/drivers/block/deadline-iosched.c:547-566 | after a move next_drq is the nearest request above, so nobody is passed over |
| `Frames.DelRbSweeps` | ucsb-io/ucsb-io-2.5.67/drivers/block/deadline-iosched.c:227-238 | a request that leaves the tree as next_drq hands the place to its successor, so nobody is passed over |
| `QosOrder.StepWaiting` | ucsb-io/ucsb-io-2.5.67/drivers/block/deadline-iosched.c:297-364 | a QoS bio's key is inserted into ucsb_queue by the placement rule, a fetch takes the head exactly when nothing is dispatched and its priority is at least 16, or not negative with no best effort waiting; no other event changes the queue |
| `QosOrder.SectorSorted` | ucsb-io/ucsb-io-2.5.67/drivers/block/deadline-iosched.c:297-364 | while all QoS bios have one priority, ucsb_queue is sorted by sector after every run of arrivals, merges, barriers and driver events |
| `Barriers.BarrierDrains` | ucsb-io/ucsb-io-2.5.67/drivers/block/deadline-iosched.c:740-749 | after a hard barrier nothing best-effort is queued; all that was precedes the barrier in dispatch order, and the barrier is last, alone in its request and not to be merged with |
| `Barriers.BarrierOrder` | ucsb-io/ucsb-io-2.5.67/drivers/block/deadline-iosched.c:740-783 | whatever happens later, that prefix of the dispatch order stays; later requests come after it |
| `Barriers.SealedForever` | ucsb-io/ucsb-io-2.5.67/drivers/block/deadline-iosched.c:40-44 | a dispatched request reaches the driver with exactly the bios it has: no later bio merges into it |
| `Barriers.BarrierSealsAll` | ucsb-io/ucsb-io-2.5.67/drivers/block/deadline-iosched.c:740-749 | after a barrier every request is sealed so, except those in ucsb_queue |
| `Barriers.BarrierPassesQos` | ucsb-io/ucsb-io-2.5.67/drivers/block/deadline-iosched.c:740-749 | a barrier does not drain ucsb_queue: exactly the requests waiting there are passed by it |
| `Service.NextRequestServes` | ucsb-io/ucsb-io-2.5.67/drivers/block/deadline-iosched.c:691-728 | nothing is handed out exactly when the queue is empty, or only QoS requests wait and the first has a negative priority; no request is lost |
| `Service.ServiceOrder` | ucsb-io/ucsb-io-2.5.67/drivers/block/deadline-iosched.c:704-721 | best effort is chosen only if the QoS queue is empty or its head has priority below 16; background QoS only when no best effort waits |
| `Service.FetchStarts` | ucsb-io/ucsb-io-2.5.67/drivers/block/elevator.c:315-353 | the request handed to the driver is marked started and is not last_merge, and no other request is marked |
| `Service.EmptyMeansNone` | ucsb-io/ucsb-io-2.5.67/drivers/block/deadline-iosched.c:785-798 | the four lists deadline_queue_empty looks at are empty exactly when the scheduler holds no request at all |
| `Service.ServeOne` | ucsb-io/ucsb-io-2.5.67/drivers/block/deadline-iosched.c:691-728 | with non-negative priorities a round takes exactly one request off a non-empty queue |
| `Service.ServesAll` | ucsb-io/ucsb-io-2.5.67/drivers/block/deadline-iosched.c:785-798 | so n pending requests are served in n rounds |
| `DeadlineQueue.Deadline.constructor` | ucsb-io/ucsb-io-2.5.67/drivers/block/deadline-iosched.c:857-933 | the fields stand for a fresh scheduler |
| `DeadlineQueue.Deadline.DelDrqRb` | ucsb-io/ucsb-io-2.5.67/drivers/block/deadline-iosched.c:227-244 | the tree loses the request, and next_drq, if it was this one, becomes its successor |
| `DeadlineQueue.Deadline.RemoveRequest` | ucsb-io/ucsb-io-2.5.67/drivers/block/deadline-iosched.c:388-414 | the request is off FIFO, hash and tree, or its QoS flag is cleared; last_merge forgets it |
| `DeadlineQueue.Deadline.MoveRequest` | ucsb-io/ucsb-io-2.5.67/drivers/block/deadline-iosched.c:547-566 | next_drq is the successor in this direction and none in the other, last_sector the end of the request, which is now dispatched |
| `DeadlineQueue.Deadline.AddDrqRb` | ucsb-io/ucsb-io-2.5.67/drivers/block/deadline-iosched.c:209-225 | the retry loop ends; an alias has been moved out and the request is on the tree |
| `DeadlineQueue.Deadline.AddRequestTo` | ucsb-io/ucsb-io-2.5.67/drivers/block/deadline-iosched.c:372-383 | the request is on the tree and at the tail of its FIFO with its expiry |
| `DeadlineQueue.Deadline.FindDrqHash` | ucsb-io/ucsb-io-2.5.67/drivers/block/deadline-iosched.c:148-173 | the pruning loop over the hash list returns what FindHashExact speaks of and leaves the pruned state |
| `DeadlineQueue.Deadline.LookupTarget` | ucsb-io/ucsb-io-2.5.67/drivers/block/deadline-iosched.c:432-467 | hash before tree, the answer of which LookupMergeSound and MergeMissesIff speak |
| `DeadlineQueue.Deadline.MergeTarget` | ucsb-io/ucsb-io-2.5.67/drivers/block/deadline-iosched.c:416-468 | last_merge first; the answer of which MergeSound speaks |
| `DeadlineQueue.Deadline.MergedRequestAt` | ucsb-io/ucsb-io-2.5.67/drivers/block/deadline-iosched.c:470-490 | the grown request is filed anew as MergedRequestAgree requires |
| `DeadlineQueue.Deadline.MergedRequestsAt` | ucsb-io/ucsb-io-2.5.67/drivers/block/deadline-iosched.c:492-530 | place, expiry and removal of which MergedRequestsAgree and InheritExpiryFramed speak |
| `DeadlineQueue.Deadline.UcsbAddRequest` | ucsb-io/ucsb-io-2.5.67/drivers/block/deadline-iosched.c:297-330 | the request is linked at the slot the scans find and counted |
| `DeadlineQueue.Deadline.UcsbDispatchRequest` | ucsb-io/ucsb-io-2.5.67/drivers/block/deadline-iosched.c:347-364 | the head goes to dispatch exactly when its priority suffices; otherwise nothing changes |
| `DeadlineQueue.Deadline.CheckBatch` | ucsb-io/ucsb-io-2.5.67/drivers/block/deadline-iosched.c:603-614 | the next request of either direction, and a non-sequential one ends the batch, in wrapping arithmetic |
| `DeadlineQueue.Deadline.ChooseDirection` | ucsb-io/ucsb-io-2.5.67/drivers/block/deadline-iosched.c:626-650 | reads unless writes wait and have been passed over often enough, with the count of that; none exactly when nothing is queued |
| `DeadlineQueue.Deadline.FindRequest` | ucsb-io/ucsb-io-2.5.67/drivers/block/deadline-iosched.c:656-679 | an expired head, the next request or the lowest sector, the batch counter begun anew for the first and the last; FreeChoice and DecisionCounts speak of it |
| `DeadlineQueue.Deadline.DispatchOne` | ucsb-io/ucsb-io-2.5.67/drivers/block/deadline-iosched.c:591-689 | one request goes to dispatch, by the choice of which DispatchAgree, StarvationBound and OneWay speak; nothing exactly when nothing is queued |
| `DeadlineQueue.Deadline.NextRequestOf` | ucsb-io/ucsb-io-2.5.67/drivers/block/deadline-iosched.c:691-728 | the head of dispatch after QoS, best effort and background have been asked in turn; ServiceOrder speaks of it |
| `DeadlineQueue.Deadline.InsertBarrierRequest` | ucsb-io/ucsb-io-2.5.67/drivers/block/deadline-iosched.c:740-749 | the drain loop ends with both FIFOs empty and the barrier last |
| `DeadlineQueue.Deadline.InsertRequestOf` | ucsb-io/ucsb-io-2.5.67/drivers/block/deadline-iosched.c:730-783 | barrier, QoS and best effort each take their branch |
| `DeadlineQueue.Deadline.Repositioned` | ucsb-io/ucsb-io-2.5.67/drivers/block/deadline-iosched.c:481-487 | the tree is touched only if the start moved |
| `DeadlineQueue.Deadline.FetchRequest` | ucsb-io/ucsb-io-2.5.67/drivers/block/elevator.c:315-353 | the request handed out is marked started and no longer last_merge |
| `DeadlineQueue.Deadline.DequeueRequest` | ucsb-io/ucsb-io-2.5.67/drivers/block/elevator.c:355-371 | the driver has the request and its bios; no index knows it |
| `DeadlineQueue.Deadline.NewRequestFor` | ucsb-io/ucsb-io-2.5.67/drivers/block/ll_rw_blk.c:1785-1826 | a request for this bio alone goes through the insert |
| `DeadlineQueue.Deadline.JoinRequests` | ucsb-io/ucsb-io-2.5.67/drivers/block/ll_rw_blk.c:1586-1627 | the second request's chain is appended to the first, which takes its earlier expiry; the second is gone |
| `DeadlineQueue.Deadline.MergeBack` | ucsb-io/ucsb-io-2.5.67/drivers/block/ll_rw_blk.c:1724-1740 | the bio is at the end of the chain, and the request is joined with its successor or filed anew |
| `DeadlineQueue.Deadline.MergeFront` | ucsb-io/ucsb-io-2.5.67/drivers/block/ll_rw_blk.c:1742-1767 | the bio is at the front of the chain, and the request is joined to its predecessor or filed anew |
| `DeadlineQueue.Deadline.MakeRequestFor` | ucsb-io/ucsb-io-2.5.67/drivers/block/ll_rw_blk.c:1679-1826 | on every path the fields end up as the step function says of which SubmitPlaces, MakeRequestAgree and StepGood speak |
| `Segments.RecountSegments` | ucsb-io/ucsb-io-2.5.67/drivers/block/ll_rw_blk.c:687-722 | the counting loop computes the two counts of which HwMeaning and ScatterlistBound speak: hardware segments at most physical ones, these at most the vectors |
| `Segments.HwMeaning` | ucsb-io/ucsb-io-2.5.67/drivers/block/ll_rw_blk.c:687-722 | physical segments are the entries of the scatterlist of the vectors; hardware segments are those of them that are first, or whose start and the end of the entry in front are not both on the virtual merge boundary; the counts agree exactly when no neighbours are |
| `Segments.CarryBound` | ucsb-io/ucsb-io-2.5.67/drivers/block/ll_rw_blk.c:1994-2015 | carrying a segment over from the bio before never costs an extra one |
| `Segments.ScatterlistBound` | ucsb-io/ucsb-io-2.5.67/drivers/block/ll_rw_blk.c:767-815 | a request's scatterlist has at most as many entries as its bios count segments, and exactly as many for one bio |
| `Segments.FewestEntries` | ucsb-io/ucsb-io-2.5.67/drivers/block/ll_rw_blk.c:767-815 | the list is as short as can be: however the vectors are cut into runs that make one entry each, there are at least as many runs |
| `Segments.MapRequest` | ucsb-io/ucsb-io-2.5.67/drivers/block/ll_rw_blk.c:771-815 | the loop over bios and vectors builds that list in place, never overruns an array of that size, and leaves the rest of it alone |
| `Segments.SgMeaning` | ucsb-io/ucsb-io-2.5.67/drivers/block/ll_rw_blk.c:771-815 | the entries stand for exactly the bytes of the vectors, in order |
| `Segments.EntriesOk` | ucsb-io/ucsb-io-2.5.67/drivers/block/ll_rw_blk.c:788-809 | entries keep within max_segment_size and a boundary block when every vector does |
| `Segments.MapVec` | ucsb-io/ucsb-io-2.5.67/drivers/block/ll_rw_blk.c:776-809 | one vector lengthens the last entry or begins another, in place |
| `Segments.JoinedEntries` | ucsb-io/ucsb-io-2.5.67/drivers/block/ll_rw_blk.c:771-815 | the scatterlist of two requests together has one entry less than the two apart, or none less; which of the two is decided by the open segment of the first and the first run of the second |
| `Segments.MinusOneIff` | ucsb-io/ucsb-io-2.5.67/drivers/block/ll_rw_blk.c:914-923 | when the reduced count of ll_merge_requests_fn covers the scatterlist of the merged request, for any two requests; where the first segment of the second is not cut by its length, exactly if the seam is not counted as contiguous or the open segment has room for that segment |
| `Segments.MinusOneRight` | ucsb-io/ucsb-io-2.5.67/drivers/block/ll_rw_blk.c:914-923 | room for the first segment of the second is always enough |
| `Segments.MinusOneSingle` | ucsb-io/ucsb-io-2.5.67/drivers/block/ll_rw_blk.c:914-923 | for a second request of one segment the condition is that all of it fits |
| `Segments.MinusOneUndercounts` | ucsb-io/ucsb-io-2.5.67/drivers/block/ll_rw_blk.c:914-923 | three contiguous bios for which the reduced count is smaller than the scatterlist |
| `BioPages.Bio.constructor` | ucsb-io/ucsb-io-2.5.67/fs/bio.c:367-371 | a fresh bio has no vectors and respects every limit |
| `BioPages.Bio.Refresh` | ucsb-io/ucsb-io-2.5.67/fs/bio.c:182-196 | a count is taken from a valid cache and recounted otherwise |
| `BioPages.Bio.AddPage` | ucsb-io/ucsb-io-2.5.67/fs/bio.c:367-436 | exactly when there is room and the counts, refreshed and after a retry recounted, are below both segment limits, the vector is appended, the size grows and the counts are valid and one above those; else vectors and size stay, and a refusal for segments leaves a recount; vector, sector and segment limits hold of the true counts |
| `BioPages.OneMoreSegment` | ucsb-io/ucsb-io-2.5.67/fs/bio.c:431-433 | one vector is at most one segment, so the incremented cache never understates |
| `BioPages.RefusedThoughRoomIff` | ucsb-io/ucsb-io-2.5.67/fs/bio.c:390-402 | the retry never succeeds: a page is refused though a recount would find room exactly when the valid cached count is at a limit |
| `BioPages.RetryRefusesRoom` | ucsb-io/ucsb-io-2.5.67/fs/bio.c:390-402 | such a bio and page |
| `BioPages.AllTaken` | ucsb-io/ucsb-io-2.5.67/fs/bio.c:431-433 | call after call on a fresh bio, while every page is accepted, the counts are valid and as many as the pages, so that these are at most the lower segment limit |
| `BioPages.RefusesAtLimit` | ucsb-io/ucsb-io-2.5.67/fs/bio.c:390-412 | over such a sequence, with room otherwise, the next page is refused exactly when as many as the lower segment limit have been accepted, however the pages lie in memory |
| `BioPages.SecondCallTakes` | ucsb-io/ucsb-io-2.5.67/fs/bio.c:390-412 | that refusal leaves a recount behind, so a second call for the same page is accepted exactly when the recount has room |
| `DioBlocks.ChunkGrows` | ucsb-io/ucsb-io-2.5.67/fs/direct-io.c:577-584 | growing a section in place is appending the blocks of the grown part |
| `DioBlocks.SentIsOneRun` | ucsb-io/ucsb-io-2.5.67/fs/direct-io.c:474-477 | the blocks of a bio are one contiguous run on disk from its first |
| `DirectIo.NrVecsPositive` | ucsb-io/ucsb-io-2.5.67/fs/direct-io.c:475-476 | bio_get_nr_vecs is positive, so the BUG_ON on nr_pages cannot fire while the page budget lasts |
| `DirectIo.NrVecsExact` | ucsb-io/ucsb-io-2.5.67/fs/bio.c:342-355 | bio_get_nr_vecs gives as many pages as the largest request has, cut down to the lower segment limit |
| `DirectIo.Dio.constructor` | ucsb-io/ucsb-io-2.5.67/fs/direct-io.c:842-880 | nothing taken over, nothing due, start of the request |
| `DirectIo.Dio.BioSubmit` | ucsb-io/ucsb-io-2.5.67/fs/direct-io.c:276-295 | submitting moves the bio's blocks, in order, behind those submitted; what has been packed stays the same |
| `DirectIo.Dio.NewBio` | ucsb-io/ucsb-io-2.5.67/fs/direct-io.c:466-481 | a new bio starts empty at the section's sector, with the smallest pool of vectors that holds the pages budgeted and the queue allows; it is had exactly when reap and allocation succeed, and a failure leaves none |
| `DirectIo.Dio.BioAddPage` | ucsb-io/ucsb-io-2.5.67/fs/direct-io.c:490-506 | success is exactly acceptance by bio_add_page; an empty bio never refuses a section; the bookkeeping is that of the bio |
| `DirectIo.Dio.SendCurPage` | ucsb-io/ucsb-io-2.5.67/fs/direct-io.c:518-552 | the deferred section's blocks come next in the packed list; the bio in hand is submitted exactly when a new one is needed (none, not contiguous, boundary set, or page refused), and the section then begins the new one, else it joins; it fails exactly when that is not had, and never asks for two; the BUG_ON at 547 cannot fire |
| `DirectIo.Dio.SubmitPageSection` | ucsb-io/ucsb-io-2.5.67/fs/direct-io.c:571-616 | a chunk that continues the deferred section in page and on disk grows it, any other replaces it, and in both cases exactly the chunk's blocks are appended to those taken over; at a boundary a grown section is sent at once, and a bio in hand when a deferred section is sent ends; it fails exactly when what has to be sent needs a bio that is not had, and then only the deferred section is gone |
| `DirectIo.Dio.GetMoreBlocks` | ucsb-io/ucsb-io-2.5.67/fs/direct-io.c:432-461 | get_blocks is asked for the filesystem blocks that the rest of the request covers, in whole or in part, and no more (at least one, BUG_ON at 449), exactly once unless a page fault came before; when it fails the mapping is cleared |
| `DirectIo.Dio.MapBlocks` | ucsb-io/ucsb-io-2.5.67/fs/direct-io.c:717-759 | the blocks made available are one run on disk, from the unaligned start to the end of all that was mapped |
| `DirectIo.Dio.ZeroBlock` | ucsb-io/ucsb-io-2.5.67/fs/direct-io.c:642-674 | zeros exactly the part of a new block before the request, or behind it, at its place on disk; it fails exactly when zeros are needed and the deferred section needs a bio that is not had, only at the end, and then that section and the zeros are what is lost |
| `DirectIo.Dio.StartZeros` | ucsb-io/ucsb-io-2.5.67/fs/direct-io.c:786-787 | the zeros in front go where the first block starts, and cannot fail |
| `DirectIo.Dio.NextBlocks` | ucsb-io/ucsb-io-2.5.67/fs/direct-io.c:717-787 | either the next block is mapped with a run from next_block_for_io, or it is a hole in a read |
| `DirectIo.Dio.ChunkSize` | ucsb-io/ucsb-io-2.5.67/fs/direct-io.c:793-801 | a chunk is not empty (BUG_ON at 801), stays in the page and the request, and is as large as these allow |
| `DirectIo.Dio.SubmitChunk` | ucsb-io/ucsb-io-2.5.67/fs/direct-io.c:789-814 | file position, page position and disk position advance together by the chunk |
| `DirectIo.Dio.ClearHole` | ucsb-io/ucsb-io-2.5.67/fs/direct-io.c:762-779 | over a hole inside the file exactly the block's place in the page is cleared |
| `DirectIo.Dio.WalkPage` | ucsb-io/ucsb-io-2.5.67/fs/direct-io.c:711-820 | the inner loop ends, never crosses the page, and has paired each block walked with its place in the page and on disk |
| `DirectIo.Dio.RefillPages` | ucsb-io/ucsb-io-2.5.67/fs/direct-io.c:132-170 | as many pages as get_user_pages gives, at most 64 and those left, and the queue holds the user's next pages in order; after a fault in a write with mapped blocks the zero page; it fails exactly when there is neither |
| `DirectIo.Dio.GetPage` | ucsb-io/ucsb-io-2.5.67/fs/direct-io.c:177-193 | pages come in order, and the queue is never empty after a refill (BUG_ON at 190) |
| `DirectIo.Dio.DoDirectIo` | ucsb-io/ucsb-io-2.5.67/fs/direct-io.c:692-828 | the walk ends, visits each block once and in order; data and cleared places are Transfer and Holes of the stretch walked, and every hole walked over lies inside the file; it stops early only with an error, or exactly at the first hole beyond the end of the file |
| `DirectIo.Dio.Flush` | ucsb-io/ucsb-io-2.5.67/fs/direct-io.c:925-933 | after the last section and bio are sent, the submitted bios hold all blocks taken over; it fails exactly when that section needs a bio that is not had |
| `DirectIo.Dio.Finish` | ucsb-io/ucsb-io-2.5.67/fs/direct-io.c:919-933 | unless a section was lost, the submitted bios read in order are zeros in front, data, zeros behind; something is lost exactly if some bio asked for was not had; the zeros fail exactly under the condition of ZeroBlock, and then no error is given |
| `FileLayout.MappedRun` | ucsb-io/ucsb-io-2.5.67/fs/direct-io.c:732-758 | a mapping of whole filesystem blocks is one run of the finer blocks from anywhere inside it |
| `FileLayout.TransferChunk` | ucsb-io/ucsb-io-2.5.67/fs/direct-io.c:789-805 | a run on disk inside one page is one chunk: the chunk means the same as block by block |
| `FileLayout.TransferSplit` | ucsb-io/ucsb-io-2.5.67/fs/direct-io.c:704-825 | walking n and then m blocks is walking n + m blocks |
| `FileLayout.TransferPrefix` | ucsb-io/ucsb-io-2.5.67/fs/direct-io.c:704-709 | pages got later do not change what earlier ones transfer |
| `DirectIoWorker.TotalPagesExact` | ucsb-io/ucsb-io-2.5.67/fs/direct-io.c:899-904 | total_pages is the number of pages spanned, also where the unsigned subtraction wraps, except exactly for an empty buffer inside a page |
| `DirectIoWorker.CountPages` | ucsb-io/ucsb-io-2.5.67/fs/direct-io.c:882-884 | the page budget is the sum over the segments |
| `DirectIoWorker.RunSegment` | ucsb-io/ucsb-io-2.5.67/fs/direct-io.c:887-911 | one segment: its bytes done are the blocks walked, over its own pages from its first byte, with every hole walked over inside the file; it breaks off only when a bio, a mapping or a page was not had |
| `DirectIoWorker.RunSegments` | ucsb-io/ucsb-io-2.5.67/fs/direct-io.c:886-917 | the segments follow each other in the file; success means each is complete or ended at the end of the file |
| `DirectIoWorker.Worker` | ucsb-io/ucsb-io-2.5.67/fs/direct-io.c:830-933 | every submitted bio respects its limits, and read in order they mean exactly what the segments transfer block by block, between the zeros; something is lost exactly if a bio was not had; it is lost although no error is given exactly when the walk got to its end, zeros are needed behind it and the section then deferred needs a bio that is not had, and then it is a write that ends inside a block of a new mapping |
| `DioCoverage.WriteCovers` | ucsb-io/ucsb-io-2.5.67/fs/direct-io.c:717-923 | a write covers the file's blocks from Low to High, each once, in order, each at the disk block get_blocks gives it; around the user's blocks are zeros |
| `DioCoverage.NewBlocksWhole` | ucsb-io/ucsb-io-2.5.67/fs/direct-io.c:633-674 | no new filesystem block that the data touches keeps an unwritten block |
| `DioCoverage.LostSilently` | ucsb-io/ucsb-io-2.5.67/fs/direct-io.c:669-671 | a run of the worker: a write of 512 bytes into a new filesystem block while no bio can be had gives 512 and no error, and has submitted nothing |
| `DioCoverage.WalkedOne` | ucsb-io/ucsb-io-2.5.67/fs/direct-io.c:919-923 | for any run on that input the walk succeeds and its one block is still deferred when the zeros are due |
| `DioCoverage.MovedCovers` | ucsb-io/ucsb-io-2.5.67/fs/direct-io.c:692-828 | the segments of a write cover the stretch from the start to where it ended |
| `DioEof.WalksReach` | ucsb-io/ucsb-io-2.5.67/fs/direct-io.c:762-769 | a segment walked without failure ends at its end or at the first hole at or beyond the end of the file, whichever comes first |
| `DioEof.ClearsInside` | ucsb-io/ucsb-io-2.5.67/fs/direct-io.c:762-779 | every place cleared stands for a hole below i_size; nothing behind it is cleared, over a whole request |
| `DioEof.ReadsToEnd` | ucsb-io/ucsb-io-2.5.67/fs/direct-io.c:762-769 | a read without failures, of a file with only holes from its end on, walks as many blocks as the buffer has room for, cut at the end of the file |
| `DioEof.ReadFile` | ucsb-io/ucsb-io-2.5.67/fs/direct-io.c:830-933 | and the result of the worker is then exactly the bytes of those blocks, without an error |
| `DioCompletion.StepInv` | ucsb-io/ucsb-io-2.5.67/fs/direct-io.c:199-380 | every step of submitter and completions keeps: each bio in one place; bio_count is the submitter's reference plus bios unprocessed; bios_in_flight those at the device; life and sleep rules |
| `DioCompletion.StepCounts` | ucsb-io/ucsb-io-2.5.67/fs/direct-io.c:276-289 | the counters part of that |
| `DioCompletion.StepSleep` | ucsb-io/ucsb-io-2.5.67/fs/direct-io.c:309-331 | a sleeping waiter implies bios in flight |
| `DioCompletion.SleeperWakes` | ucsb-io/ucsb-io-2.5.67/fs/direct-io.c:241-246 | no wakeup is lost and none is early: a sleeper runs exactly when no bio is in flight, and the end of a bio wakes it exactly when it is the last |
| `DioCompletion.CompletedLast` | ucsb-io/ucsb-io-2.5.67/fs/direct-io.c:199-207 | completion and free come after the submitter is done and every bio is processed, at most once each |
| `DioCompletion.NothingAfterFree` | ucsb-io/ucsb-io-2.5.67/fs/direct-io.c:939-960 | no step touches a freed dio |
| `DioCompletion.SomethingToDo` | ucsb-io/ucsb-io-2.5.67/fs/direct-io.c:364-380 | until it is freed something can always happen: no deadlock |
| `DioCompletion.StepDescends` | ucsb-io/ucsb-io-2.5.67/fs/direct-io.c:309-380 | every step brings the end nearer, so the wait loop returns |
| `DioCompletion.EveryRunEnds` | ucsb-io/ucsb-io-2.5.67/fs/direct-io.c:199-409 | under every interleaving, whatever fails, a request of up to n bios and s segments stops within 27n + 8s + 25 steps, and exactly then every bio submitted has been processed once, the dio freed once, an asynchronous request completed once |
| `DioCompletion.AllMade` | ucsb-io/ucsb-io-2.5.67/fs/direct-io.c:886-933 | when no bio fails and walk and last send have no error, all n bios are submitted and the result is the sum of the segments |
| `DioCompletion.StepTold` | ucsb-io/ucsb-io-2.5.67/fs/direct-io.c:336-409 | every step keeps: the result is -EIO plus the bytes added since the last failed bio was processed, or all bytes if none failed; dio_await_completion gives an error exactly if an awaited bio failed; walk or last send have one exactly if one of their reaps ended with a failed bio, or for a reason that is no bio's |
| `DioReports.AsyncReport` | ucsb-io/ucsb-io-2.5.67/fs/direct-io.c:199-207 | aio_complete is given an error exactly when a bio failed and fewer than EIO bytes were added to the result afterwards |
| `DioReports.SyncReport` | ucsb-io/ucsb-io-2.5.67/fs/direct-io.c:944-952 | a synchronous request returns an error exactly when walk or last send had one that is no bio's, a page was missing, a failed bio was awaited or the last of a reap whose answer is looked at, or fewer than EIO bytes were added after a failed bio was processed; else all bytes, or those added since less EIO |
| `DioReports.LateErrorReported` | ucsb-io/ucsb-io-2.5.67/fs/direct-io.c:919-952 | the error of a bio processed after the walk is always reported, also when it is met in the reap under the zeros at the end, whose answer is dropped |
| `DioReports.ErrorLost` | ucsb-io/ucsb-io-2.5.67/fs/direct-io.c:909-911 | an asynchronous run in which the first of three bios fails and the request is completed with 12283 bytes |
| `DioReports.SyncErrorLost` | ucsb-io/ucsb-io-2.5.67/fs/direct-io.c:389-407 | a synchronous run in which the 64th bio fails, is met first by the reap at the 65th, and the request returns 270331 bytes |
| `DioErrors.RetIsFirst` | ucsb-io/ucsb-io-2.5.67/fs/direct-io.c:887-933 | over every run the error of walk and last send is the first they were told of: of the walk itself, -ENOMEM, or -EIO from a reap that ended with a failed bio; none while the zeros at the end are sent |
| `DioErrors.SyncAnswer` | ucsb-io/ucsb-io-2.5.67/fs/direct-io.c:944-952 | what a synchronous request returns over every run: that first error, else -EIO if an awaited bio failed, else the error of a page, else its bytes, of which a failed bio leaves those added afterwards less EIO |
| `DioErrors.RefusedBio` | ucsb-io/ucsb-io-2.5.67/fs/direct-io.c:466-481 | a reap that ends with a failed bio, or want of memory, makes no bio: a walk is left, and behind the walk nothing more is sent; any other reap goes on to allocate, its counter back at 0 |
| `DioErrors.OldestDecides` | ucsb-io/ucsb-io-2.5.67/fs/direct-io.c:389-407 | bio_list is last in, first out: a reap of the bios that have ended answers for the one that ended first |
| `PartialCompletion.Request.EndFirst` | ucsb-io/ucsb-io-2.5.67/drivers/block/ll_rw_blk.c:2038-2130 | the BIO_BUG_ON fires exactly when Fires says, with the bios in front ended; else the loop tells bio_endio exactly Ended, leaves exactly Left, and returns 0 exactly when no bio is left; hard_nr_sectors stays the sum of what remains; on any request earlier calls have left |
| `PartialCompletion.Request.RecalcSectors` | ucsb-io/ucsb-io-2.5.67/drivers/block/ll_rw_blk.c:2017-2036 | positions move by the sectors ended; a count below the current vector is repaired |
| `PartialCompletion.BytesConserved` | ucsb-io/ucsb-io-2.5.67/drivers/block/ll_rw_blk.c:2059-2111 | the bytes ended are min(count, residual), the rest is left, nothing is left exactly when count covers the residual |
| `PartialCompletion.CallsConserve` | ucsb-io/ucsb-io-2.5.67/drivers/block/ll_rw_blk.c:2059-2111 | the same over any number of calls, clean or not: every byte asked for is ended once, up to those there are |
| `PartialCompletion.FrontToBack` | ucsb-io/ucsb-io-2.5.67/drivers/block/ll_rw_blk.c:2063-2068 | bios are ended whole front to back, at most the next one in part, the others untouched |
| `PartialCompletion.CutContent` | ucsb-io/ucsb-io-2.5.67/drivers/block/ll_rw_blk.c:2083-2092 | the remaining vectors stand for the remaining bytes exactly when the stop is on a vector boundary or in the first pending vector |
| `PartialCompletion.CutSurplus` | ucsb-io/ucsb-io-2.5.67/drivers/block/ll_rw_blk.c:2083-2092 | every other stop leaves the vectors longer than bi_size by the bytes it went into its vector |
| `PartialCompletion.CutInOrder` | ucsb-io/ucsb-io-2.5.67/drivers/block/ll_rw_blk.c:2086-2092 | so vector lengths and bi_size agree exactly for a clean stop |
| `PartialCompletion.NotBotched` | ucsb-io/ucsb-io-2.5.67/drivers/block/ll_rw_blk.c:2027-2034 | while they agree the count is never found botched |
| `PartialCompletion.ExactNeverFires` | ucsb-io/ucsb-io-2.5.67/drivers/block/ll_rw_blk.c:2080-2081 | while they agree in every bio the BUG_ON cannot fire |
| `PartialCompletion.CleanSurvives` | ucsb-io/ucsb-io-2.5.67/drivers/block/ll_rw_blk.c:2059-2111 | a request as submitted survives every sequence of clean calls |
| `PartialCompletion.SecondCall` | ucsb-io/ucsb-io-2.5.67/drivers/block/ll_rw_blk.c:2080-2081 | after one stop the next call fires exactly when it stops in that bio, in a vector longer than what is then to go |
| `PartialCompletion.SecondCallFires` | ucsb-io/ucsb-io-2.5.67/drivers/block/ll_rw_blk.c:2080-2092 | vectors of 512 and 4096, calls of 1024 and 512 bytes: the first edits the done vector, the second runs into the BUG_ON |
| `TagQueue.TagQueue.constructor` | ucsb-io/ucsb-io-2.5.67/drivers/block/ll_rw_blk.c:467-515 | every tag below the clamped depth free, every bit above it set |
| `TagQueue.TagQueue.FindFree` | ucsb-io/ucsb-io-2.5.67/drivers/block/ll_rw_blk.c:588-595 | the word scan stays in the map and finds the lowest free tag, or fails exactly when all are taken |
| `TagQueue.TagQueue.StartTag` | ucsb-io/ucsb-io-2.5.67/drivers/block/ll_rw_blk.c:575-605 | fails exactly when busy equals the depth; else the lowest free tag goes to this request, which moves from the waiting requests to the busy ones, and nothing else changes |
| `TagQueue.TagQueue.EndTag` | ucsb-io/ucsb-io-2.5.67/drivers/block/ll_rw_blk.c:531-555 | a busy tag is freed and only that; others change nothing |
| `TagQueue.TagQueue.FullWhenAllTaken` | ucsb-io/ucsb-io-2.5.67/drivers/block/ll_rw_blk.c:588-603 | busy is the number of distinct tags in use |
| `TagQueue.TagQueue.SetUpper` | ucsb-io/ucsb-io-2.5.67/drivers/block/ll_rw_blk.c:496-500 | the bits from the depth on |

## Left out

- Non-filesystem requests (deadline-iosched.c:751-757) and `blk_attempt_remerge`: requests the driver has taken are not merged again here.
- `prep_rq_fn` (elevator.c:331-349), the noop elevator, plugging timers, request statistics, sysfs and ioctl handling.
- Tunables are constant during a run, `writes_starved` is not negative, and a file's QoS does not change while its requests wait.
- `hash_long` and `rq_mergeable` are defined in headers that are not part of this model; a fixed function of the sector shifted right by 3 stands for the hash, of which the proofs use the range, and mergeable means none of started, no-merge and barrier.
- Red-black recolouring: `Rebalance` may change the tree's shape in any way that keeps its order.
- Jiffies do not wrap; the 32-bit batch counter does.
- Read-ahead bios that are dropped for want of a free request (ll_rw_blk.c:1789-1801); a request is always to be had.
- BlockQueue.MakeRequestAgree: the segment limits of `ll_back_merge_fn`, `ll_front_merge_fn` and `ll_merge_requests_fn` enter as answers, not as counts.
- `struct request` of the scheduler is a value in a table that the class updates; aliasing of request pointers is modelled by their identifiers.
- `clean_blockdev_aliases`, page reference counts (a read that ends at the end of the file returns with pinned pages still queued), bounce buffers and dirtying of pages.
- Before the first `get_blocks` the source reads an uninitialised `map_bh` if the first page cannot be got (direct-io.c:842, 650); here it starts clear.
- A segment is shorter than its address space by two pages, as every caller's size check gives; lengths and addresses are multiples of the block size, as `blockdev_direct_IO` makes sure (direct-io.c:992-1003).
- The cut of a read's return value at an end of file inside a block (direct-io.c:953-958).
- DioReports.AsyncReport: adding to `dio->result` is one step, as is replacing it; a race between the two on a multiprocessor is not modelled.
- DirectIo.Dio.DoDirectIo: after a page fault in a write the blocks are right but their pages are whatever the queue gave, as in the source; the user's pages are promised only without a fault.
- PartialCompletion.Request.EndFirst: bios are values of the request's chain, segment counts are not recomputed, and only filesystem requests are modelled.
- `blk_queue_find_tag`, `blk_queue_free_tags` and `blk_queue_invalidate_tags`.
- The SCSI benchmark of the repository: device I/O and floating-point timing.
