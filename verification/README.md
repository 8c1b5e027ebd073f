# A verified model of the block layer and of two parts of the crypto API

This project models, in Dafny, the parts of a Linux 3.2 tree where requests and
bios change hands, and proves what those parts promise over every input, every
run or every reachable state.

* **Flush sequencing** (`Flush*.dfy`, `block/blk-flush.c`). A state machine in
  which requests are submitted, fetched by the driver and completed by a device
  with a volatile cache, in any order and with any errors. Every reachable state
  keeps each sequenced request on one list; FUA writes and FLUSH barriers are
  durable; a flush is put off while DATA executes and for no longer than the timeout;
  the machinery never stalls; each bio is ended once. `FlushQueue` is the code in
  place, proved equal to the machine, with its checks asserted.
* **Partial completion** (`Completion*.dfy`, `block/blk-core.c`). For any bios,
  empty ones included, completing in two steps is completing at once, with the
  exact cases in which it is not; what is left are the last bytes of the memory and of
  the disk range, address by address; the loop in place does what is specified.
* **Segment counting** (`Layout.dfy`, `Segment*.dfy`, `block/blk-merge.c`). The
  count a request keeps through merges, recounts and partial completions is
  enough for the scatter-gather mapper, because greedy packing is minimal; a merge
  is refused exactly when a limit says so.
* **Throttling** (`Throttle*.dfy`, `block/blk-throttle.c`). The rate bound over
  whole runs across slices and trims; exactly when a bio may go, and that a wait is
  long enough and not much longer; conservation of bios, order, the bound on one
  dispatch pass, and the references of groups until they are destroyed.
* **Deadline** (`Deadline*.dfy`, `block/deadline-iosched.c`). Two indexes that
  agree, bounded waiting of writes, reads and expired requests, batches that go up
  the disk passing nobody, and the drain.
* **CFQ groups** (`Cfq*.dfy`, `block/cfq-iosched.c`). The spread of vdisktime and
  weighted fairness of service over any run.
* **Elevator** (`DispatchSort.dfy`, `Merge*.dfy`, `block/elevator.c`). The order of
  the dispatch list, the back-merge hash against a linear scan, and conservation of
  sectors through merges.
* **Tags** (`Tags.dfy`, `block/blk-tag.c`). The tag map through start, end, resize
  and invalidation.
* **Crypto** (`Spawn*.dfy`, `CryptoInc.dfy`, `crypto/algapi.c`). Removal of an
  algorithm removes exactly what is built on it, shared dependents included; what
  happens when a replacement is itself built on the algorithm; the word-wise
  increment is the big-endian one.

`ServiceTree.dfy` is the red-black tree with a cached leftmost node that the
throttle and CFQ share (and deadline uses its sorted lists); `ListOps.dfy` and
`Options.dfy` have list removal and null pointers.

## How to read it

State that the source updates in place is a class whose methods are proved equal
to a step function on values; the theorems are lemmas about those step functions
and about runs of them. Where the source has a `BUG_ON`, the method asserts its
negation or, when it is the caller's duty, requires it. Clocks, the outcome of
device operations, in-flight counts and memory allocation are parameters.

Some promises turned out to hold only under a condition, which is stated and proved
exact, with an input at which it fails:

* Two completions of whole sectors leave the same as one unless the second completes
  nothing and meets an empty bio, which it ends: `Completion.CompleteSplit`,
  `Completion.UpdateSplit` and `Completion.SplitMayDiffer`.
* They leave the same `__sector` as one unless the second finishes a file-system
  request of which the first did a part: `Completion.UpdateSplit` and
  `Completion.SectorMayDiffer`.
* A completion that covers the bytes of a request returns true when an empty bio is
  left at its end: `Completion.UpdateFits` and `Completion.EmptyBioStays`.
* A request absorbed by another of equal expiry that is more than one place behind
  it in the deadline fifo loses its place (`DeadlineWaiting.MergeCloser` is an
  equivalence). The bound that counts places, `DeadlineWaiting.ExpiredGoes`, is for
  requests to which that does not happen. When it does and k+1 selections of the
  direction follow, a request that had k ahead of it is still there, and otherwise it
  is not: `DeadlineWaiting.FallenWaits` and `DeadlineWaiting.FallenExact`.
  `DeadlineExample.AbsorbedMayWait` is a run from an empty scheduler, and
  `DeadlineWaiting.ExpiredGoesAnyway` a bound for all requests.
* The dispatch list loses its order in two ways: when a barrier that is requeued moves
  the boundary (`DispatchSort.FrontKeepsOrder`, `DispatchSort.RequeueBreaksOrder`),
  and when the flush request is appended behind requests below the boundary
  (`DispatchSort.FlushKeepsOrder`, `DispatchSort.FlushBreaksOrder`).
* A replacement keeps what it is built on exactly if no such instance uses the old
  algorithm in two ways: `SpawnLinks.ReplacementStands` and
  `SpawnLinks.ReplacementMayFall`.
* A deadline batch goes on at or above the sector of the last request unless its next
  request was merged at the front with a bio from below, to whose sector it then goes:
  `DeadlineBatch.BatchGoesUp` and `DeadlineBatch.FrontMovesNext`.
* Reads wait for at most fifo_batch writes in a row if writes_starved is not 0; if it is,
  every selection takes a write while there is one: `DeadlineBatch.ReadsNotStarved` and
  `DeadlineBatch.ZeroPrefersWrites`.
* Growing a tag map is correct exactly when the clamp leaves it no smaller than it
  was: `Tags.ResizeOk` and `Tags.GrowMayOverrun`.

## Model

| member | source | states |
|---|---|---|
| `FlushTheorems.NextKeeps` | block/blk-flush.c:144-347 | every submission, fetch, kick and completion keeps the invariant that joins lists, sequence bits, flight and durability |
| `FlushTheorems.ReachableInv` | block/blk-flush.c:144-347 | it holds in every state reachable from an idle queue of any capabilities |
| `FlushTheorems.OneList` | block/blk-flush.c:144-229 | a sequenced request is on exactly one of the two flush queues and the data list, as its bits dictate; the indexes differ exactly while one flush is in flight; a delayed queue implies one |
| `FlushTheorems.FuaDurable` | block/blk-flush.c:94-108 | a FUA write reported as successful is on the media, also when the device has a cache and no FUA |
| `FlushTheorems.FlushIsBarrier` | block/blk-flush.c:244-273 | what was written when a FLUSH was submitted is on the media before its data goes to the device and before it is reported successful |
| `FlushTheorems.BioEndedOnce` | block/blk-core.c:149-175 | the submitter's bio is ended once, when the whole sequence is done, with an error exactly if the request ended with one |
| `FlushTheorems.RunOrders` | block/blk-flush.c:298-347 | no later step changes what a request asked for |
| `FlushTiming.FlushOnTimeAlways` | block/blk-flush.c:38-62 | over every run from an idle queue: a flush issued although DATA of a sequence executes when the step first considers it has a request that has waited for 5*HZ since it joined (C2); after a step that completes part of a sequence, requests wait for a flush not in flight only while DATA executes and none has waited that long (C3) |
| `FlushOrder.OnlyIfAsked` | block/blk-flush.c:94-108 | a request waits for a flush only if the device has a cache and it asked for one, before DATA for FLUSH and behind it for FUA the device lacks; the device sees FUA exactly if it was asked for and is supported |
| `FlushOrder.PlainGoesAtOnce` | block/blk-flush.c:298-347 | a request that needs no flush joins the dispatch list at once, or is done if it is empty |
| `FlushOrder.DispatchOrder` | block/blk-flush.c:144-347 | every step keeps the order of the dispatch list, puts DATA of a sequence at its head and the flush or a plain request at its tail |
| `FlushOrder.HeldNoted` | block/blk.h:58-92 | a fetch that finds nothing is noted exactly when the list is empty and a flush that cannot be queued is in flight |
| `FlushOrder.HeldRemembered` | block/blk-flush.c:215-228 | that is remembered over every run until the flush ends |
| `FlushSteps.CompleteKeeps` | block/blk-flush.c:144-192 | completing a step of a sequence keeps the invariant, the kick included |
| `FlushSteps.LoopKeeps` | block/blk-flush.c:205-214 | the loop over the running list keeps its invariant although each round may issue a new flush |
| `FlushSteps.FlushKeeps` | block/blk-flush.c:194-229 | the completion of a flush, with or without error, keeps the invariant |
| `FlushSteps.DataKeeps` | block/blk-flush.c:275-285 | so does the completion of DATA, in parts or whole |
| `FlushSteps.InsertKeeps` | block/blk-flush.c:298-347 | so does an insertion, for every policy |
| `FlushProgress.DeviceLowers` | block/blk-flush.c:144-192 | everything the driver and the device do lowers a measure of unset bits and work left |
| `FlushProgress.NeverStuck` | block/blk-flush.c:207-228 | when neither driver nor device can act, every request is done |
| `FlushProgress.Drains` | block/blk-flush.c:244-273 | finite input drains within the measure, and then every bio has been ended once |
| `FlushProgress.SuccessWithoutErrors` | block/blk-flush.c:174-185 | without device errors every finished request succeeded |
| `FlushQueue.RequestQueue.KickFlush` | block/blk-flush.c:244-273 | the flush is issued exactly if none is in flight, requests wait for it, and DATA does not execute or 5*HZ have passed since the first of them came; the new state is that of the machine, for which FlushTiming.FlushOnTimeAlways is proved |
| `FlushQueue.RequestQueue.CompleteStep` | block/blk-flush.c:144-192 | moving a request to its next list equals the machine's step |
| `FlushQueue.RequestQueue.FlushEndIo` | block/blk-flush.c:194-229 | the loop in place equals the machine's step and no check fires |
| `FlushQueue.RequestQueue.EndBytes` | block/blk-flush.c:275-285 | DATA completion in place equals the machine's step, and asks for the queue to be run exactly if it queued something |
| `FlushQueue.RequestQueue.InsertFlush` | block/blk-flush.c:298-347 | insertion in place equals the machine's step |
| `FlushTransfer.UpdateAgrees` | block/blk-core.c:2070-2218 | the flush model's completion of a request with at most one bio is that of the next rows: same result, same rest, same bio_endio calls |
| `Completion.CompleteFits` | block/blk-core.c:2118-2180 | the bios left hold exactly the bytes not completed, each with vectors that sum to its size; none is left exactly when the bytes reach past the last bio but one and to the end |
| `Completion.CompleteSplit` | block/blk-core.c:2118-2180 | completing a and then c bytes leaves the same bios and vectors, and ends the same bios with the same errors, as completing both at once, exactly if c is not 0 or the first part does not stop before an empty bio |
| `Completion.UpdateFits` | block/blk-core.c:2070-2218 | the remaining sizes sum to the data length, and the call returns false exactly when the bytes end every bio, empty ones included |
| `Completion.EmptyBioStays` | block/blk-core.c:2118-2180 | an empty last bio for which it returns true with no bytes left |
| `Completion.UpdateSplit` | block/blk-core.c:2070-2218 | two calls agree with one in result, bios, data length and endings under exactly that condition; the sector is equal exactly if the request is not finished, or was by the first call, or is not a file-system one, or the first call did nothing |
| `Completion.SplitMayDiffer` | block/blk-core.c:2118-2180 | a request with an empty last bio for which two calls do not agree with one |
| `Completion.SectorMayDiffer` | block/blk-core.c:2195-2197 | a request of two sectors for which they differ |
| `CompletionBytes.CompleteAddrs` | block/blk-core.c:2118-2190 | the memory addresses left are the old ones less the first n, for any bios and any n |
| `CompletionBytes.CompleteDisk` | block/blk-core.c:2118-2190 | so are the places on the disk, for whole sectors |
| `CompletionBytes.CompleteOver` | block/blk-core.c:2118-2180 | the bios ended are the first ones, each with the error given and its own up-to-date bit, and only the one the count stops in is shortened and loses that bit on an error |
| `CompletionBytes.UpdateFollows` | block/blk-core.c:2192-2206 | a request that starts at the sector of its first bio, with each bio where the last ends, goes on to |
| `CompletionLoop.Step` | block/blk-core.c:2118-2180 | one round of the loop, a bio, a vector or part of one, stays on course to the specified result |
| `CompletionLoop.Request.UpdateRequest` | block/blk-core.c:2070-2218 | the loop in place computes the specified completion for any bios, empty ones included, returns false exactly when every bio is ended, and leaves exactly the addresses behind the first n |
| `CompletionLoop.Request.Finish` | block/blk-core.c:2185-2190 | the bio the loop stopped in advances by exactly the bytes done of it, its first live vector trimmed: its addresses are the old ones behind them |
| `CompletionLoop.NotBotched` | block/blk-core.c:2208-2211 | the data length is never below bio_cur_bytes of the first bio, so the botched check does not fire |
| `Layout.GreedyFeasible` | block/blk-merge.c:12-69 | greedy cuts obey the limits |
| `Layout.GreedyBest` | block/blk-merge.c:117-169 | greedy cuts make no more segments than any feasible ones |
| `Layout.Bridge` | block/blk-merge.c:277-315 | two feasible layouts with contiguous ends make one with a segment less |
| `SegmentLimits.FeasibleExactly` | block/blk-merge.c:12-69 | a layout is feasible exactly if every segment is adjacent memory, no larger than the maximum and within one boundary window |
| `SegmentLimits.CountLeast` | block/blk-merge.c:12-69 | the count is the least number of such segments that keep bounce pages apart |
| `SegmentLimits.CachedExactly` | block/blk-merge.c:50-66 | the recount raises the cached sizes of the first and last bio to the real ones and changes nothing else |
| `Segments.Recalc` | block/blk-merge.c:12-69 | the count is that of the greedy cuts with bounce pages apart, and the cached end sizes are never below the real ones |
| `Segments.MapSg` | block/blk-merge.c:117-169 | the entries touch the bytes of the request in order, are no more than the segments of any feasible layout, and obey the limits |
| `SegmentMerge.StandsBridged` | block/blk-merge.c:87-111 | joining on the cached sizes is safe: they do not under-estimate |
| `SegmentMerge.PhysSegments` | block/blk-merge.c:71-84 | a bio's own count and sizes stand for a feasible layout of it |
| `SegmentBond.BondBios` | block/blk-merge.c:87-111 | the total for two requests is one less exactly if clustering is on, their ends are adjacent, the cached sizes together fit the maximum, and both ends lie in one boundary window; it still stands for a feasible layout |
| `SegmentRequest.Request.BackMerge` | block/blk-merge.c:228-250 | a bio is appended exactly if sectors and segments stay within the limits, and keeps the request good; a refusal leaves its bytes, length and count, sets the no-merge mark and may raise the cached sizes it recounts |
| `SegmentRequest.Request.FrontMerge` | block/blk-merge.c:252-275 | the same at the front |
| `SegmentRequest.Request.Absorb` | block/blk-merge.c:367-447 | a whole request is merged exactly if neither is special and sectors and segments together stay within the limits; it keeps the request good |
| `SegmentRequest.Request.CompletePart` | block/blk-core.c:2182-2217 | a partial completion and its recount keep it good, and leave exactly the addresses behind the part done |
| `SegmentRequest.Request.Map` | block/blk-merge.c:117-199 | after any such history the mapper emits at most nr_phys_segments entries |
| `ThrottleRate.RateBound` | block/blk-throttle.c:487-582 | bytes and bios charged since the first slice never exceed the rate times elapsed time plus one slice, whatever slices and trims come between; the slice never counts more than was released; slice_end never falls behind slice_start |
| `ThrottleRate.NextSound` | block/blk-throttle.c:686-747 | each step keeps the account, and slices start more than throtl_slice apart |
| `ThrottleRate.TrimAccount` | block/blk-throttle.c:525-582 | a trim forgets no more than the rate allowed for the time trimmed |
| `ThrottleMetered.MeteredBound` | block/blk-throttle.c:634-674 | the same bound for what a limited direction of a group has released, since its first slice and since the group was made |
| `ThrottleMetered.RoundMetered` | block/blk-throttle.c:802-833 | a round keeps each limited direction of a group within it |
| `ThrottleMetered.ServeMetered` | block/blk-throttle.c:835-864 | so does one service of a group with all others on the queue |
| `ThrottleMetered.AdmitMetered` | block/blk-throttle.c:1152-1198 | so does a bio that comes, whether it passes, waits behind others or is the first to wait |
| `ThrottleMetered.AddGroupMetered` | block/blk-throttle.c:184-262 | a new group starts within it, although its slice is all zero |
| `ThrottleMetered.TickMetered` | block/blk-throttle.c:514-522 | and time passing keeps it |
| `ThrottleRun.NextKeeps` | block/blk-throttle.c:835-1204 | every bio of every control group, every service, every tick and every destruction of a group keeps tree, counts, references and rates, and the groups that a lookup finds on the list |
| `ThrottleRun.RunWithinRate` | block/blk-throttle.c:487-864 | after any run every limited direction of every group has released no more bytes and bios than its rate allows for its age and one slice, and in order of arrival |
| `ThrottleRun.GetTgExactly` | block/blk-throttle.c:306-369 | a control group has one group, made when it first comes with its limits and nothing in it; the root serves when memory is short |
| `ThrottleRun.LeftAloneExactly` | block/blk-throttle.c:676-684 | a bio is left alone exactly if its group is found without the lock and both limits of its direction are all ones |
| `ThrottleSlice.RoundUpIsRoundup` | block/blk-throttle.c:593-598 | the rounding is that of the kernel macro; what it means for a bio is the next row |
| `ThrottleGrant.GoesExactly` | block/blk-throttle.c:584-735 | a bio may go exactly if the direction has no limit, or the bytes and bios of its slice with it are within the rates times the slices begun since the slice started, one at least; a slice that is over counts as a new one |
| `ThrottleGrant.AdmitExactly` | block/blk-throttle.c:1152-1198 | a bio that comes waits exactly if others do or it may not go |
| `ThrottleGrant.FreshPasses` | block/blk-throttle.c:584-674 | one that the rates allow for a slice passes on a fresh slice |
| `ThrottleGrant.WaitTells` | block/blk-throttle.c:600-674 | a refused bio fits when its wait is over, a tick later for bytes, and did not fit a slice, and for bytes the time of one byte, before; the slice lasts through the wait |
| `ThrottleGrant.AskedSlice` | block/blk-throttle.c:686-735 | the slice still on is kept with its charges, a new one starts empty, and it is extended only if it has to be, to a multiple of a slice |
| `ThrottleGrant.TrimExactly` | block/blk-throttle.c:525-582 | a trim after n whole slices forgets exactly what the rates allow for them, in whole bytes and bios, and their time, unless both are none |
| `ThrottleGrant.TrimKeepsPace` | block/blk-throttle.c:525-582 | so a trim lets no bytes go that did not fit before, but for the tick at which the slice it leaves begins, whose allowance would count at the next; and it holds back none that fitted with a byte to spare while something is still charged |
| `ThrottleGrant.RoundShares` | block/blk-throttle.c:802-833 | three quarters of the quantum go to reads and the rest to writes, and a share is left unused only when nothing waits or the next bio may not go |
| `ThrottleGrant.DatedEarliest` | block/blk-throttle.c:762-780 | the next time of a group is the earlier of the times told for its two directions |
| `ThrottleGroup.Round` | block/blk-throttle.c:802-833 | a round releases at most throtl_grp_quantum bios and keeps counts and references |
| `ThrottleGroup.Dated` | block/blk-throttle.c:762-780 | when nothing may go the next time is past now |
| `ThrottleGroup.IdleRoundWaits` | block/blk-throttle.c:762-833 | a round that lets nothing go moves the group past now |
| `ThrottleTree.ServeOk` | block/blk-throttle.c:835-864 | serving the first group keeps counts, tree, flags and references |
| `ThrottleTree.ServeLowers` | block/blk-throttle.c:835-864 | and dispatches something or leaves fewer groups due |
| `ThrottleTree.QueuedMeansTree` | block/blk-throttle.c:467-485 | queued bios imply a group on the tree, so the check at 477 does not fire |
| `ThrottleTree.AdmitOk` | block/blk-throttle.c:1152-1198 | a new bio, throttled or not, keeps all of that |
| `ThrottleTree.AddGroupOk` | block/blk-throttle.c:184-262 | so does a new group, linked, with one reference and off the tree |
| `ThrottleTree.AdmitInOrder` | block/blk-throttle.c:1152-1198 | a bio joins the end of its queue or passes an empty one: none overtakes another |
| `ThrottleTree.UnlinkOk` | block/blk-throttle.c:976-990 | a group on the list has a reference to give up, so the check at 168 does not fire, and taking it off keeps counts, tree, flags and references |
| `ThrottleTree.FreedIsIdle` | block/blk-throttle.c:166-182 | the last reference is gone exactly when a group is off the list and holds no bio; then it is off the tree |
| `ThrottleTree.AllGone` | block/blk-throttle.c:1212-1239 | an empty tree means that no bio waits anywhere |
| `ThrottleQueue.DrainLoop` | block/blk-throttle.c:802-833 | the loop over one direction computes the specified releases |
| `ThrottleQueue.ThrotlData.SelectDispatch` | block/blk-throttle.c:835-864 | terminates, dispatches at most throtl_quantum-1+throtl_grp_quantum bios, in order, stops short of the quantum only when nothing is due, and keeps every rate |
| `ThrottleQueue.ThrotlData.FindTg` | block/blk-throttle.c:311-369 | the group of a control group is found, also when another thread has made it meanwhile, or made, or the root's when memory is short |
| `ThrottleQueue.ThrotlData.ThrotlBio` | block/blk-throttle.c:1112-1204 | a marked bio, a dead queue and a direction without a limit change nothing and let the bio pass; otherwise it waits exactly if others do or it may not go, passes on a fresh slice that allows it, and lookup and decision equal the specified ones; the invariant and the rates are kept |
| `ThrottleQueue.ThrotlData.DestroyTg` | block/blk-throttle.c:976-990 | destruction in place takes the group off the list and out of reach, with a reference to give up, and keeps the invariant and the rates |
| `ThrottleQueue.ThrotlData.DrainAll` | block/blk-throttle.c:1212-1239 | everything that waits is released in order and the counts end at zero |
| `ServiceTree.FirstIsLeast` | block/blk-throttle.c:372-385 | the node found through the cache has the least key |
| `ServiceTree.AddOk` | block/blk-throttle.c:412-438 | insertion keeps order, uniqueness and the cache |
| `ServiceTree.EraseOk` | block/blk-throttle.c:393-399 | so does removal |
| `Deadline.MergedRequestsOk` | block/deadline-iosched.c:168-187 | a merge keeps both indexes sorted, with the same members, less the absorbed one |
| `Deadline.FrontMergedOk` | block/deadline-iosched.c:154-166 | repositioning after a front merge keeps them too |
| `Deadline.AddRequestOk` | block/deadline-iosched.c:98-110 | so does adding a request |
| `DeadlineRun.ChooseOk` | block/deadline-iosched.c:243-325 | what is dispatched is held in its direction; nothing is dispatched only when nothing is held |
| `DeadlineRun.RunKeeps` | block/deadline-iosched.c:84-220 | in every run fifo and tree hold the same requests, next_rq is one of them in one direction at most, and nr_sorted counts them |
| `DeadlineWaiting.WritesNotStarved` | block/deadline-iosched.c:243-325 | while a write is queued at most (writes_starved+1)*fifo_batch-1 reads are dispatched in a row, whatever is added and merged meanwhile |
| `DeadlineWaiting.ExpiredGoes` | block/deadline-iosched.c:226-325 | an expired request with k ahead of it goes within k+1 selections of its direction, if no later one of equal expiry absorbs it |
| `DeadlineWaiting.MergeCloser` | block/deadline-iosched.c:168-187 | a merge moves no request back in the fifo except exactly one absorbed by a later one of equal expiry |
| `DeadlineWaiting.FallenWaits` | block/deadline-iosched.c:168-325 | an expired request with k ahead of it that such a one absorbs is still there after k+1 selections of its direction that follow at once |
| `DeadlineWaiting.FallenExact` | block/deadline-iosched.c:168-325 | after k+1 such selections an absorbed request is still there exactly if it lost its place |
| `DeadlineWaiting.ExpiredGoesAnyway` | block/deadline-iosched.c:168-325 | whatever is merged, an expired request goes within as many selections of its direction as there are requests that expire no later |
| `DeadlineExample.AbsorbedMayWait` | block/deadline-iosched.c:176-181 | a run in which an expired request with none ahead of it is absorbed and the next selection takes another |
| `DeadlineBatch.NextAfter` | block/deadline-iosched.c:62-73 | no request of the tree lies between the one that went and the next one, and there is a next one if one lies above |
| `DeadlineBatch.BatchGoesUp` | block/deadline-iosched.c:243-325 | whatever is added and merged between two dispatches, a batch goes on in its direction, at or above the last sector unless its next request was merged from below, for fewer than fifo_batch; it passes no request that was ahead and stays where it is, and does not end before it |
| `DeadlineBatch.FrontMovesNext` | block/deadline-iosched.c:154-166 | a front merge onto the next request takes the batch to the sector of the bio |
| `DeadlineBatch.SelectionGoesOn` | block/deadline-iosched.c:286-312 | when the same direction is selected again, the head of the fifo goes if it has expired, and else the scheduler goes on upwards passing nobody |
| `DeadlineBatch.DirectionLaw` | block/deadline-iosched.c:243-285 | at any time of any run, read off the log of dispatches: a batch goes on only below fifo_batch, and a selection takes reads exactly if there are any and writes are none or were passed over fewer than writes_starved times since they last went |
| `DeadlineBatch.CountersTell` | block/deadline-iosched.c:243-325 | the counters batching and starved are the counts of that log |
| `DeadlineBatch.ReadsNotStarved` | block/deadline-iosched.c:243-325 | while a read is queued at most fifo_batch writes go in a row, if writes_starved is not 0 |
| `DeadlineBatch.ZeroPrefersWrites` | block/deadline-iosched.c:264-282 | if it is 0, every selection takes a write while one is held |
| `DeadlineBatch.AddedExpires` | block/deadline-iosched.c:98-110 | a request joins the end of its fifo with the expiry of its direction, and the tree at its sector |
| `DeadlineBatch.MergedExpiry` | block/deadline-iosched.c:168-187 | the request that stays has the earlier expiry of the two |
| `DeadlineQueue.DeadlineData.PickRequest` | block/deadline-iosched.c:243-312 | the selection in place picks the specified request, and neither empty-tree check fires |
| `DeadlineQueue.DeadlineData.DispatchRequests` | block/deadline-iosched.c:243-325 | returns 0 exactly when nothing is queued; the request moved, and the new state, are those of the machine, for which the DeadlineBatch and DeadlineWaiting rows are proved |
| `DeadlineQueue.DeadlineData.MergeRequests` | block/elevator.c:560-577 | the merge in place equals the machine's step |
| `DeadlineQueue.DeadlineData.DrainElevator` | block/elevator.c:605-618 | the drain dispatches every request held, each once, and nr_sorted ends at 0 |
| `Cfq.QueueAddOk` | block/cfq-iosched.c:889-912 | a queue added to a group keeps tree, cache, flags and total_weight |
| `Cfq.ServedOk` | block/cfq-iosched.c:972-992 | charging a group off the tree keeps them, with a weight change taking effect there |
| `Cfq.ChooseOk` | block/cfq-iosched.c:2289-2299 | the group chosen has the least vdisktime, and min_vdisktime becomes it and has not decreased |
| `CfqSteps.JoinExactly` | block/cfq-iosched.c:868-912 | a group that gets its first queue is put CFQ_IDLE_DELAY behind the last busy group, or at min_vdisktime if there is none, and a weight asked for takes effect; the others keep what they have |
| `CfqSteps.LeaveExactly` | block/cfq-iosched.c:914-942 | a group that loses its last queue leaves the tree and keeps vdisktime and weight |
| `CfqSteps.ServedExactly` | block/cfq-iosched.c:972-992 | vdisktime grows by the charge times 4096*500 in whole parts of the weight in force so far, and then a weight asked for takes effect |
| `CfqSteps.WeighExactly` | block/cfq-iosched.c:1022-1028 | asking for a weight changes nothing yet |
| `CfqFairness.RunOk` | block/cfq-iosched.c:542-578 | over any run min_vdisktime never decreases, total_weight is the sum over the tree, and a group is on the tree exactly while it has queues |
| `CfqFairness.SpreadBound` | block/cfq-iosched.c:835-992 | the spread of vdisktime stays within the largest scaled charge, plus CFQ_IDLE_DELAY for each group that joins |
| `CfqFairness.ScaledFair` | block/cfq-iosched.c:972-992 | two groups that stay on the tree receive the same scaled service up to twice that charge and those delays, however long the run |
| `CfqFairness.WeightedFair` | block/cfq-iosched.c:542-549 | with constant weights their service is in proportion to the weights within the same bound and a unit of rounding a turn |
| `CfqFairness.PickedStaysLeast` | block/cfq-iosched.c:889-942 | the chosen group stays the least until it is charged or leaves |
| `CfqGroups.CfqData.GetNextCfqg` | block/cfq-iosched.c:2289-2299 | the selection in place returns a group of least vdisktime |
| `CfqGroups.CfqData.GroupServed` | block/cfq-iosched.c:972-992 | the charge in place equals the machine's step |
| `CfqGroups.CfqData.NotifyQueueAdd` | block/cfq-iosched.c:889-912 | joining in place equals the machine's step |
| `CfqGroups.CfqData.NotifyQueueDel` | block/cfq-iosched.c:922-940 | leaving in place equals the machine's step |
| `DispatchSort.SortKeepsOrder` | block/elevator.c:409-446 | the part of the dispatch list behind the last stop point stays in one-way elevator order |
| `DispatchSort.SortPlaces` | block/elevator.c:409-446 | the request passes no started, barrier, other-direction or discard-mismatched one, goes behind all that is due no later, and the others keep their order |
| `DispatchSort.OrderIsSweep` | block/elevator.c:409-446 | the order of the scan is that in which one sweep up from the boundary, round the end of the disk, meets the sectors |
| `DispatchSort.SortPasses` | block/elevator.c:409-446 | the request goes ahead of just the last ones that it may all pass |
| `DispatchSort.BoundaryMoves` | block/elevator.c:645-651 | when end_sector changes the list stays in order exactly if the new boundary parts it as the old one did |
| `DispatchSort.FrontKeepsOrder` | block/elevator.c:639-662 | the same for a request put at the head, as a requeued one is |
| `DispatchSort.RequeueBreaksOrder` | block/elevator.c:588-603 | an instance in which it does not |
| `DispatchSort.TailKeepsOrder` | block/blk-flush.c:264-271 | a request put at the tail keeps the order exactly if it is behind a stop point, is one, or is due no earlier than the last |
| `DispatchSort.FlushKeepsOrder` | block/blk-flush.c:264-271 | the flush request keeps it exactly if it is behind a stop point or behind a request at or above the boundary |
| `DispatchSort.FlushBreaksOrder` | block/blk-flush.c:264-271 | an instance in which it does not |
| `DispatchSort.DispatchList.DispatchSorted` | block/elevator.c:409-446 | the scan from the tail in place computes the specified list |
| `MergeHash.FindAgrees` | block/elevator.c:329-349 | a lookup succeeds exactly when some mergeable request the elevator holds ends at the offset, and drops only entries that cannot be merged |
| `MergeHash.NextOk` | block/elevator.c:304-326 | insertion, back, front and request merges (the absorbed request sorted or not), dispatch, no-merge marks and lookups keep every hashed request in the bucket of its end sector |
| `MergeHash.RunAgrees` | block/elevator.c:454-577 | after any run lookups agree with a scan, and last_merge is null or still held |
| `MergeSteps.MergeJoins` | block/elevator.c:560-577 | the request that stays starts where it did, ends where the absorbed one ended, is hashed and is last_merge; the absorbed one is held no more |
| `MergeSteps.BackExtends` | block/elevator.c:547-558 | a back merge moves the end by the sectors of the bio and nothing else |
| `MergeSteps.FrontExtends` | block/elevator.c:547-558 | a front merge moves the start |
| `MergeSteps.RunVolume` | block/elevator.c:454-577 | over any run the sectors held are those that came in less those that went: merges neither lose nor repeat any |
| `MergeHash.Elevator.HashFind` | block/elevator.c:329-349 | the walk with lazy removal in place is the specified lookup |
| `MergeHash.Elevator.MergeRequests` | block/elevator.c:560-577 | absorbing a request, sorted or about to be inserted, equals the machine's step in place |
| `MergeHash.Elevator.AddRequest` | block/elevator.c:689-699 | inserting in place equals the machine's step |
| `Tags.TagIsUnique` | block/blk-tag.c:282-309 | a bit is set exactly when some request carries the tag, and that is the one the index names |
| `Tags.Choice` | block/blk-tag.c:351-365 | the tag given is the least free one below the limit of the request's kind; it is refused exactly when there is none or too many are in flight |
| `Tags.GiveOk` | block/blk-tag.c:360-376 | giving a tag keeps map, index, requests and busy lists in step |
| `Tags.GiveLeavesList` | block/blk-tag.c:370-376 | a started request comes off its queue's dispatch list, where the others keep their order; no other list changes |
| `Tags.EndOk` | block/blk-tag.c:282-309 | so does taking it back |
| `Tags.ResizeOk` | block/blk-tag.c:220-265 | resizing keeps every tag with its request; the copy overruns exactly when the map must grow and twice nr_requests is below the old depth |
| `Tags.GrowMayOverrun` | block/blk-tag.c:107-138 | an instance of that |
| `Tags.OrderKept` | block/blk-tag.c:370-376 | the busy list records the order of starting through starts and ends |
| `Tags.TagsFreed` | block/blk-tag.c:392-398 | invalidation frees exactly the tags of the queue |
| `Tags.TagQueues.StartTag` | block/blk-tag.c:330-377 | the search and assignment in place give the specified tag |
| `Tags.TagQueues.ResizeTags` | block/blk-tag.c:220-265 | the resize in place computes the specified map or refusal |
| `Tags.TagQueues.InvalidateTags` | block/blk-tag.c:392-398 | the queue's requests end up at the head of its dispatch list in the order they were started, all its tags free, other queues untouched |
| `Spawns.WalkFinds` | crypto/algapi.c:83-104 | the instances whose spawns the walk takes are exactly those reachable by a chain of spawns, shared ones included |
| `Spawns.SurvivorsKeep` | crypto/algapi.c:130-176 | what survives a removal is built on exactly what it was built on before |
| `SpawnLinks.Walk` | crypto/algapi.c:130-168 | the walk over stack, top and secondary lists terminates on every graph and takes exactly the spawns on the algorithm or on something built on it; its check fires exactly when the algorithm is built on itself |
| `SpawnLinks.PopLinking` | crypto/algapi.c:83-104 | a spawn popped with its link intact puts back the right link below it: what is kept is on a way to the replacement, and what a kept spawn sits on is kept |
| `SpawnLinks.PopNested` | crypto/algapi.c:83-104 | without cycles at most one spawn of an instance is kept, and what sits on an instance is done with before its spawns |
| `SpawnLinks.AllDie` | crypto/algapi.c:130-176 | without a replacement exactly what is built on the algorithm is marked dead |
| `SpawnLinks.OthersDie` | crypto/algapi.c:130-176 | the replacement is never marked dead, and everything built on the algorithm that the replacement is not built on is |
| `SpawnLinks.ReplacementStands` | crypto/algapi.c:94-97 | nothing the replacement is built on is marked dead exactly if each such instance is reached from the algorithm by one spawn only |
| `SpawnLinks.ReplacementMayFall` | crypto/algapi.c:94-97 | a graph in which it is reached by two |
| `SpawnTypes.StruckExactly` | crypto/algapi.c:133-147 | the walk follows exactly the chains whose first spawn has no bit of its mask in which the flags of the algorithm and the replacement differ |
| `SpawnTypes.WhoDies` | crypto/algapi.c:130-176 | nothing dies that no such chain leads to, nor the replacement; everything such a chain leads to dies that the replacement is not built on |
| `SpawnRegistry.SafeOrder` | crypto/algapi.c:127-127 | no spawn is back on an instance's list when the last loop meets a cut spawn of it, so the empty-users check does not fire |
| `SpawnRegistry.Registry.RemoveSpawn` | crypto/algapi.c:106-128 | the instance is marked dead once and moves to the list only if it was hashed and its template can be taken |
| `SpawnRegistry.Registry.RemoveSpawns` | crypto/algapi.c:130-176 | a spawn on the algorithm whose mask meets a difference of type stays with its link; only what a chain of spawns that fit leads to dies, never the replacement, and all of it does that the replacement is not built on; of the rest it is exactly what has a spawn taken and cut; each is moved at most once, and each list keeps exactly the spawns that still point at its algorithm |
| `SpawnRegistry.Registry.RemoveUsers` | crypto/algapi.c:130-176 | without one, exactly what is built on the algorithm dies and exactly those lists are emptied |
| `SpawnRegistry.Registry.RemoveAlg` | crypto/algapi.c:373-385 | removal fails without effect when the algorithm is not listed, and otherwise kills it and what is built on it and no other |
| `CryptoInc.IncAddsOne` | crypto/algapi.c:863-874 | the byte-wise increment adds one to the big-endian number, modulo its range |
| `CryptoInc.WordStep` | crypto/algapi.c:876-886 | a 32-bit step does what four byte steps do |
| `CryptoInc.Increment` | crypto/algapi.c:876-889 | the word-wise loop leaves the same bytes as the byte-wise increment |

## Left out

- blk_abort_flushes, blkdev_issue_flush and a change of a queue's flush flags while requests are in flight.
- FlushTiming.FlushOnTimeAlways: says nothing of a timeout that passes between two steps that complete part of a sequence, because the source looks at the time only there; no timer issues a flush.
- Failfast flags of mixed merges; discard, bidirectional and integrity requests, the DMA drain and padding of the mapper, and requests without data in the segment count.
- Limits of a throttled group that change while bios wait, the count of groups not yet destroyed, and the drain of a queue as part of the rate bound.
- Wrap-around of jiffies and of 32 and 64 bit products: times and products are unbounded numbers.
- ThrottleRate.RateBound: is for a limit that stays the same from the start of the first slice.
- The rebalancing of red-black trees: a tree is the sequence of its nodes in order.
- Deadline's search for a front merge and its settings files; fifo_batch and writes_starved are constants of a run.
- DeadlineWaiting.ExpiredGoes: does not cover a request absorbed by a later one of equal expiry, for which DeadlineWaiting.FallenWaits shows the bound false; DeadlineWaiting.ExpiredGoesAnyway covers all.
- CFQ's queues inside a group, its idling, preemption and slice lengths; the charge of a slice is a parameter. Signed 64-bit comparison of vdisktime is plain comparison.
- The boundary that elv_dispatch_add_tail moves on a list that elv_dispatch_sort also uses: no scheduler uses both.
- Completion.CompleteSplit: is for bios of whole sectors and a first part of whole sectors; a sector number moves by whole sectors only.
- Completion.UpdateSplit: the same.
- The value of the hash function: the hash is proved for every function into the buckets.
- Two queues racing for one tag in a shared map: a start is one step, so the retry of its loop does not occur.
- Tags.TagQueues.ResizeTags: promises nothing of the state when the copy overruns, the case that Tags.ResizeOk delimits.
- SpawnRegistry.Registry.RemoveSpawns: requires a spawn graph without cycles, as registration makes it; the walk itself is proved for every graph.
- Registration, larvals, notification and reference counts of modules in the crypto API; whether a template can be taken is a parameter.
- crypto_queue, crypto_xor, attribute parsing, and everything outside the files named above, the ext4 variant of this tree included.
- Locking and memory ordering: operations under the queue lock are atomic steps.
