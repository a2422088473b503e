# Memory management and submission core of the amdgpu driver, in Dafny

This project models the concurrent protocols, allocators and list algorithms at the
core of the driver and proves whole-run properties of them. Each file is one
component.

- `UserptrRestore.dfy`: eviction of user-pointer buffers by MMU notifiers, racing
  with the worker that restores them. Every atomic access is an event; the theorems
  hold for every interleaving.
- `UserptrProgress.dfy`: from every such state the queues can be running again, with
  every mapping back.
- `ScatteredCopy.dfy`: the copy between two lists of memory nodes, against a flat copy.
- `Reservation.dfy`, `ReservationDeadlock.dfy`: the loop that reserves a validation
  list, and any number of threads running it at once.
- `TtmLock.dfy`: the reader, writer, VT and suspend lock with its wait queue.
- `BoLifetime.dfy`: the list references of a buffer object, and its place on the lists,
  under users, evictors, swappers, delayed deletion and release.
- `Placement.dfy`: the two-pass search for space, and the check it must agree with.
- `PagePool.dfy`: the page pool, run alone (`PagePool`) and interleaved (`PoolRuns`).
- `TtSwap.dfy`: page contents across swapping.
- `ZoneAccounting.dfy`: the memory zones and the ledger of charges they stand for.
- `FenceRing.dfy`: the per-context fence ring, against an unbounded history.
- `BoList.dfy`: building and sorting the buffer list of a submission.
- `AudioClock.dfy`: HDMI audio clock regeneration (section 7.2.1 of the HDMI 1.3a
  specification).
- `Base.dfy`, `Arithmetic.dfy`: shared definitions and small facts.

Protocols are given as `Enabled`, `Apply` and `Runs` over an `Event` type; an
invariant is shown for each event, and the theorems speak about every run from an
initial state. Code that loops over memory it updates is a method, with a contract
that names a function of the old state or states the result outright. What the
kernel, the hardware and user space answer (allocations, lock outcomes, fences,
failures) are parameters, and the contracts hold for all of them.

## Findings

- TTM lock (`ttm/ttm_lock.c:100-171`): a trylock reader can sleep through the acquisition
  that would refuse it, because a writer clears its pending flag without waking the
  queue. `TryLockOversleeps` is a run; `NoLostWakeUp` says exactly when it happens. No
  waiter that could get the lock ever sleeps.
- Swap (`ttm/ttm_tt.c:351-403`): swapping out an array that is swapped out already loses
  its contents unless the buffer has a swap file of its own, the call fails, or
  everything is zero (`SwapoutTwice`, `SwapoutTwiceLoses`).
- Scattered copy (`amd/amdgpu/amdgpu_amdkfd_gpuvm.c:2481-2507` and `2546-2563`): neither
  the seek loops nor the copy loop stop at the end of a node list. With usable regions
  and accepted commands the code goes on to a node after the last exactly when a range
  does not fit (`CopyAccepted`, `FitsInVram`), which includes an empty copy at the very
  end of a VRAM region; `OverrunExample` is an input. The caller compares with the end of
  the destination buffer only after the copy (`amd/amdkfd/kfd_chardev.c:1833-1876`). In
  the GART an offset past the node is not noticed at all (`GartPastEnd`).
- Placement (`ttm/ttm_bo.c:941-984`): the first pass of the search keeps a result of an
  earlier place. If the preferred list ends in a system place whose manager is unusable,
  after a compatible one, it reports a region of the system type although no place can be
  had (`StaleSuccess`, and `FreeSpace` for the exact condition). The compatibility check
  accepts even that region. Device set-up makes the system manager usable
  (`ttm/ttm_bo.c:1605`).

## Model

| member | source | states |
|---|---|---|
| `UserptrRestore.RunningQueuesSeeCurrentPages` | amd/amdgpu/amdgpu_amdkfd_gpuvm.c:1938-2261 | in every run, when the stop count is 0 and no notifier call is in flight, every buffer is on the valid list with `invalid` 0, and each of its page-table entries shows the pages of its latest epoch, or is cleared if and only if the last attempt to get its user pages gave none; validation never meets a missing page array |
| `UserptrRestore.NoLostRestart` | amd/amdgpu/amdgpu_amdkfd_gpuvm.c:1938-2261 | while the process lives, counted evictions with no notifier call in flight have a worker queued or running |
| `UserptrRestore.StopCountExact` | amd/amdgpu/amdgpu_amdkfd_gpuvm.c:1945-2251 | the stop count is exactly one for a period whose first evictor has stopped the queues plus one for a worker between its final exchange and the resume, so it is never negative |
| `UserptrRestore.MapsCurrentPages` | amd/amdgpu/amdgpu_amdkfd_gpuvm.c:1257-1370 | in every run, whatever notifiers do between the read of `invalid` and the write: a new entry shows the pages that were current at the read, and is cleared if and only if the buffer was invalid or on the invalid list, or no pages could be had; nothing else changes |
| `UserptrRestore.ValidatesFetchedBuffers` | amd/amdgpu/amdgpu_amdkfd_gpuvm.c:2231-2237 | in every run the recheck lets validation begin only if every buffer that is invalid again belongs to a notifier call whose eviction is not counted yet |
| `UserptrRestore.UnmapUndoesMap` | amd/amdgpu/amdgpu_amdkfd_gpuvm.c:1560-1645 | mapping a buffer and unmapping it again is a run back to the same state |
| `UserptrRestore.FailedCreateUndone` | amd/amdgpu/amdgpu_amdkfd_gpuvm.c:547-625 | a creation that fails is a run back to the same state |
| `UserptrProgress.QueuesCanRunAgain` | amd/amdgpu/amdgpu_amdkfd_gpuvm.c:1938-2261 | from every reachable state of a living process, with nothing new beginning, some continuation ends with nothing evicted, the queues not stopped, no buffer or mapping lost, and every mapping showing the current pages of its buffer unless getting them had failed already |
| `UserptrProgress.WorkerEnds` | amd/amdgpu/amdgpu_amdkfd_gpuvm.c:2200-2261 | with no call in flight the worker, wherever it is, gets there: a pass that was overtaken backs off and reschedules, the next pass is not overtaken and ends |
| `UserptrRestore.RunKeepsInv` | amd/amdgpu/amdgpu_amdkfd_gpuvm.c:1938-2261 | every run keeps the invariant: one restart token per period, stale pages covered by a nonzero `invalid`, entries that differ from the pages of their buffer about to be rewritten, lock ownership, what the worker has and has not looked at |
| `UserptrRestore.NotifyControl` | amd/amdgpu/amdgpu_amdkfd_gpuvm.c:1938-1956 | marking, counting, stopping and scheduling keep the restart tokens and the stop count right |
| `UserptrRestore.WorkControl` | amd/amdgpu/amdgpu_amdkfd_gpuvm.c:2200-2261 | so does every step of the worker, winning or losing its exchanges |
| `UserptrRestore.EvictMarkData` | amd/amdgpu/amdgpu_amdkfd_gpuvm.c:1938-1944 | the first increment of an eviction covers everything it makes stale, wherever the worker is |
| `UserptrRestore.EvictStepData` | amd/amdgpu/amdgpu_amdkfd_gpuvm.c:1944-1956 | counting the eviction later, on its own, leaves nothing uncovered |
| `UserptrRestore.InitDoneData` | amd/amdgpu/amdgpu_amdkfd_gpuvm.c:547-625 | creation with pages fetched before a concurrent invalidation is covered, and the buffer has its pages exactly if the fetch gave some; a failed creation leaves nothing behind |
| `UserptrRestore.MapWriteData` | amd/amdgpu/amdgpu_amdkfd_gpuvm.c:1257-1370 | mapping a buffer that was seen valid, or as invalid with cleared entries, never leaves an uncovered stale entry, nor a cleared one that nobody will write |
| `UserptrRestore.UnmapData` | amd/amdgpu/amdgpu_amdkfd_gpuvm.c:1560-1645 | unmapping keeps the invariant at any point of the worker outside validation of that buffer |
| `UserptrRestore.UnregisterData` | amd/amdgpu/amdgpu_amdkfd_gpuvm.c:1162-1222 | removing the notifier of a buffer with no call in flight keeps the invariant |
| `UserptrRestore.ScanBuffers` | amd/amdgpu/amdgpu_amdkfd_gpuvm.c:1974-1991 | moving an invalid buffer to the second list keeps its pages and entries covered |
| `UserptrRestore.ScannedBuffers` | amd/amdgpu/amdgpu_amdkfd_gpuvm.c:1992-1998 | after the first loop only late invalidations are left on the first list |
| `UserptrRestore.UpdateBuffers` | amd/amdgpu/amdgpu_amdkfd_gpuvm.c:2000-2009 | looking at a buffer of the second list keeps the invariant, with or without a fetch to come |
| `UserptrRestore.FetchBuffers` | amd/amdgpu/amdgpu_amdkfd_gpuvm.c:2010-2047 | fetching pages keeps the page array present and its epoch honest, and records whether pages came |
| `UserptrRestore.ExchangeBuffers` | amd/amdgpu/amdgpu_amdkfd_gpuvm.c:2048-2057 | clearing `invalid` by compare-and-exchange is sound: it succeeds only if the fetched pages are current |
| `UserptrRestore.ValidateBuffers` | amd/amdgpu/amdgpu_amdkfd_gpuvm.c:2065-2192 | a buffer that reaches validation has a page array, and returns to the valid list with the fetched pages if there were any, current or covered, and with all its entries to be written |
| `UserptrRestore.WritePteBuffers` | amd/amdgpu/amdgpu_amdkfd_gpuvm.c:2065-2192 | each entry that has been rewritten shows the pages of the buffer; a failure marks the buffer invalid again; no uncovered stale entry is left |
| `UserptrRestore.FinalBuffers` | amd/amdgpu/amdgpu_amdkfd_gpuvm.c:2200-2261 | if the final exchange succeeds, no invalid buffer is left whose eviction was counted |
| `ScatteredCopy.CopyMemToMem` | amd/amdgpu/amdgpu_amdkfd_gpuvm.c:2414-2584 | for every offset and size: the emitted pieces, byte by byte and in order, are the flat copy of the first `actual` bytes, in fewer commands than there are nodes; success is the whole copy of ranges that fit; otherwise a region is unusable, a command was rejected, or the code went on to a node after the last, and that only if a range does not fit |
| `ScatteredCopy.CopyAccepted` | amd/amdgpu/amdgpu_amdkfd_gpuvm.c:2469-2565 | with usable regions and no rejected command, it leaves a node list if and only if the source or the destination range does not fit |
| `ScatteredCopy.OverrunExample` | amd/amdgpu/amdgpu_amdkfd_gpuvm.c:2555-2563 | two pages to a destination of one page: it goes on to the node after the last, having copied 4096 bytes |
| `ScatteredCopy.FitsInVram` | amd/amdgpu/amdgpu_amdkfd_gpuvm.c:2481-2484 | in VRAM a range fits if and only if it starts inside the list and ends inside it |
| `ScatteredCopy.GartPastEnd` | amd/amdgpu/amdgpu_amdkfd_gpuvm.c:2494 | in the GART an offset past the node is not noticed, because the bytes left wrap, and every byte then lies past the node; up to its end the addresses are those of the node |
| `ScatteredCopy.CopyLoop` | amd/amdgpu/amdgpu_amdkfd_gpuvm.c:2520-2565 | the loop, from two cursors, ends; if it leaves a list then exactly at the end of one range |
| `ScatteredCopy.CopyRound` | amd/amdgpu/amdgpu_amdkfd_gpuvm.c:2520-2565 | a round extends the flat copy by one piece, and uses up a node unless it is the last round |
| `ScatteredCopy.Locate` | amd/amdgpu/amdgpu_amdkfd_gpuvm.c:2469-2518 | the seek loop ends at the node and address of the logical offset; it leaves the list if and only if a VRAM offset is at or past the end |
| `ScatteredCopy.Advance` | amd/amdgpu/amdgpu_amdkfd_gpuvm.c:2544-2563 | advancing a cursor keeps it at the address of the logical position, across node boundaries; it leaves the list only at the end of the range |
| `ScatteredCopy.OneMorePiece` | amd/amdgpu/amdgpu_amdkfd_gpuvm.c:2520-2543 | a piece no longer than either cursor's rest extends a flat copy to a longer flat copy |
| `ScatteredCopy.AddressInNode` | amd/amdgpu/amdgpu_amdkfd_gpuvm.c:2469-2516 | the address of a logical offset, defined by walking the nodes, is the one computed from the node that contains it |
| `Reservation.Validation.ReserveBuffers` | ttm/ttm_execbuf_util.c:93-176 | whatever each lock attempt answers: entries are split between list and duplicates, none lost; on success each object is on the list once and held, every duplicate is held through the list, and the buffers left the LRU; on any error nothing is held, the LRU is as before, and the error has its cause; if every attempt is granted it succeeds |
| `Reservation.Validation.ReserveEntry` | ttm/ttm_execbuf_util.c:105-168 | one round keeps "held is exactly what precedes the cursor", or fails holding nothing with both lists unchanged; exactly when each error comes, and where the entry and the cursor go |
| `Reservation.Validation.LostOut` | ttm/ttm_execbuf_util.c:135-168 | every reservation is dropped; after a deadlock only this entry is held, at the front, unless the wait was interrupted |
| `Reservation.Validation.BackoffReverse` | ttm/ttm_execbuf_util.c:35-43 | the backwards walk unlocks exactly the held entries, each while it is held |
| `Reservation.Validation.BackoffReservation` | ttm/ttm_execbuf_util.c:55-78 | undoes a reservation: nothing is held and the evictable buffers are back on the LRU |
| `Reservation.Validation.FenceBufferObjects` | ttm/ttm_execbuf_util.c:179-211 | nothing stays held, evictable buffers are back on the LRU, the fences are those of `Fenced` |
| `Reservation.FencedOnce` | ttm/ttm_execbuf_util.c:199-208 | every object on the list gets the fence exactly once, shared or exclusive as its entry asks; no other object gets it |
| `Reservation.HoldNext` | ttm/ttm_execbuf_util.c:108-125 | locking the entry at the cursor keeps the loop invariant one position further |
| `Reservation.DropDuplicate` | ttm/ttm_execbuf_util.c:112-117 | moving an entry whose object is held to the duplicates keeps the invariant at the same position |
| `Reservation.MoveToFront` | ttm/ttm_execbuf_util.c:137-168 | moving the entry locked alone to the front keeps the invariant with the cursor after it |
| `ReservationDeadlock.EverybodyCanFinish` | ttm/ttm_execbuf_util.c:81-168 | from every reachable state and for every thread, some run in which nobody comes in or gives up ends with that thread holding everything it asked for |
| `ReservationDeadlock.NoDeadlock` | ttm/ttm_execbuf_util.c:81-168 | in every reachable state with an unfinished thread some thread can get on without anybody giving up |
| `ReservationDeadlock.Unblocked` | ttm/ttm_execbuf_util.c:81-168 | a thread to which no unfinished holder is younger can step, or the finished holder in its way can release |
| `ReservationDeadlock.NoWaitCycle` | ttm/ttm_execbuf_util.c:81-91 | in every reachable state, threads that want what another holds and need not back off never form a cycle, of any length |
| `ReservationDeadlock.OldestNeverBacksOff` | ttm/ttm_execbuf_util.c:81-168 | over every run in which later threads get later tickets, the oldest ticket never backs off and its holdings never shrink until it releases or gives up |
| `ReservationDeadlock.LeavesFree` | ttm/ttm_execbuf_util.c:55-78 | whoever releases or gives up leaves everything it held free and everybody else as they were |
| `ReservationDeadlock.ReservedHoldsAll` | ttm/ttm_execbuf_util.c:93-176 | a finished thread holds each object of its list once, its duplicates through the list, and shares none with another thread |
| `ReservationDeadlock.RunKeepsInv` | ttm/ttm_execbuf_util.c:93-176 | every run keeps: holdings are list prefixes, threads hold disjoint sets, tickets differ, slow waiters hold nothing |
| `TtmLock.Exclusion` | ttm/ttm_lock.c:60-306 | in every run `rw` is the number of readers, or -1 with exactly one writer; while VT or suspend is locked nobody reads or writes nor can begin to |
| `TtmLock.ModeHoldersExclude` | ttm/ttm_lock.c:193-306 | in every run, from the grant of VT or suspend to the first unlock by a holder of that mode, whatever others lock and unlock in between, its flag is set, nobody reads or writes, and no reader, trylock or writer would be granted |
| `TtmLock.ModeFlagsBacked` | ttm/ttm_lock.c:193-306 | in every run a set VT or suspend flag has a thread that holds the mode |
| `TtmLock.OnlyOwnFlags` | ttm/ttm_lock.c:60-306 | no event of a thread changes a flag other than the pending and mode flag of its own kind |
| `TtmLock.NoLostWakeUp` | ttm/ttm_lock.c:60-306 | a sleeper's attempt would not be granted; its wait would be over only for a trylock reader under a writer with no flag set |
| `TtmLock.TryLockOversleeps` | ttm/ttm_lock.c:100-171 | a run that reaches this exception |
| `TtmLock.PendingFlagsBacked` | ttm/ttm_lock.c:152-306 | every pending flag has a waiter of its kind or the clean-up of one |
| `TtmLock.FreeLockIsTaken` | ttm/ttm_lock.c:60-306 | with the lock free and someone waiting, an awake waiter's next attempt succeeds or a clean-up is under way |
| `TtmLock.LockObject.ReadLock` | ttm/ttm_lock.c:69-85 | keeps the invariant of all runs; a reader gets the lock if and only if nobody writes and no flag is set, and joins the readers; flags as before |
| `TtmLock.LockObject.ReadTryLock` | ttm/ttm_lock.c:100-122 | keeps the invariant; granted as a reader is, refused if and only if somebody writes and no flag is set, and asleep with a flag; flags as before |
| `TtmLock.LockObject.WriteLock` | ttm/ttm_lock.c:152-171 | keeps the invariant; a writer gets the lock if and only if nobody holds it and only writers are pending, and is then the only holder; otherwise new readers are held back; flags of other kinds as before |
| `TtmLock.LockObject.VtLock` | ttm/ttm_lock.c:218-232 | keeps the invariant; locked if and only if there is no reader and no writer, and there is none afterwards; flags of other kinds as before |
| `TtmLock.LockObject.SuspendLock` | ttm/ttm_lock.c:286-300 | keeps the invariant; locked if and only if there is no reader and no writer, and there is none afterwards; flags of other kinds as before |
| `TtmLock.LockObject.ReadUnlock` | ttm/ttm_lock.c:60-67 | keeps the invariant; removes this reader only, and wakes everybody if and only if it was the last; flags as before |
| `TtmLock.LockObject.WriteUnlock` | ttm/ttm_lock.c:143-150 | keeps the invariant; no reader and no writer is left and everybody is awake; flags as before |
| `TtmLock.LockObject.VtUnlock` | ttm/ttm_lock.c:193-205 | keeps the invariant and the readers and writers; everybody is awake; the error comes if and only if the flag was gone already; flags of other kinds as before |
| `TtmLock.LockObject.SuspendUnlock` | ttm/ttm_lock.c:277-284 | keeps the invariant and the readers and writers; everybody is awake; flags of other kinds as before |
| `TtmLock.LockObject.ClearPending` | ttm/ttm_lock.c:173-191 | keeps the invariant; the flag of the interrupted wait is gone and every other waiter is awake to set it again; flags of other kinds as before |
| `BoLifetime.ListReferencesExact` | ttm/ttm_bo.c:144-232 | in every run no check fails, no put that must not be the last is the last, and the list reference count is base reference plus three lists plus transient holders |
| `BoLifetime.FreedOnce` | ttm/ttm_bo.c:144-169 | the buffer is freed at most once, exactly when nothing refers to it any more, with no memory node, no user and on no list; afterwards only the shared reservation lock is ever touched |
| `BoLifetime.NeverLeaks` | ttm/ttm_bo.c:444-662 | from every reachable state without users some continuation frees the buffer |
| `BoLifetime.StaysEvictable` | include/drm/ttm/ttm_bo_driver.h:902-976 | in every run, while the buffer is in use and nobody works on its lists, it is on the LRU if and only if not pinned, and on the swap list if it had pages to swap when it was put on, unless it was last swapped out or its creation failed; with the reservation free and the buffer not pinned any thread can pick it |
| `BoLifetime.QueuedIsEvictable` | ttm/ttm_bo.c:444-497 | in every run a busy buffer queued by its last user is no longer pinned, and can be picked if it was pinned or listed |
| `BoLifetime.RunKeepsListed` | ttm/ttm_bo.c:171-800 | every run keeps the agreement between the lists and what last happened to them |
| `BoLifetime.RemoveAllInsists` | ttm/ttm_bo.c:511-662 | delayed deletion that is to remove everything waits for a queued buffer, or unqueues it from all lists and strips it of its memory; it never passes over it |
| `BoLifetime.NoWaitNeverWaits` | ttm/ttm_bo.c:511-800 | eviction without waiting, and ordinary delayed deletion, never wait, and clean up an idle buffer |
| `BoLifetime.RunKeepsInv` | ttm/ttm_bo.c:144-800 | every run keeps counts, reservation ownership and the rules about who may find the buffer on which list |
| `BoLifetime.UserKeeps` | include/drm/ttm/ttm_bo_driver.h:902-976 | creating, sharing, reserving, moving, unreserving and dropping a buffer keep counts and ownership |
| `BoLifetime.UserListed` | include/drm/ttm/ttm_bo_driver.h:902-976 | so does the agreement of the lists with what last happened to them: an unreserved buffer is back on them |
| `BoLifetime.HolderKeeps` | ttm/ttm_bo.c:583-800 | evicting, swapping out and delayed deletion keep it, at every point where they let go of the LRU lock |
| `BoLifetime.CleanupKeeps` | ttm/ttm_bo.c:511-576 | every branch of the clean-up keeps it: idle, busy without waiting, waiting, no longer queued |
| `BoLifetime.OtherKeeps` | ttm/ttm_bo.c:444-497 | every branch of the last user's release keeps it, against foreign holders of a shared reservation |
| `BoLifetime.TakenOff` | ttm/ttm_bo.c:200-215 | taking the buffer off its lists keeps the count and never drops the last reference |
| `BoLifetime.PutOn` | ttm/ttm_bo.c:171-193 | putting it back keeps the count and never finds it listed already |
| `BoLifetime.Unqueued` | ttm/ttm_bo.c:566-573 | unqueueing it for destruction keeps the count and leaves it on no list |
| `BoLifetime.BufferObject.AddToLru` | ttm/ttm_bo.c:171-193 | the list step of unreserving, creating and putting back an evicted buffer: keeps the count exact and all checks quiet; listed afterwards if and only if not pinned |
| `BoLifetime.BufferObject.DelFromLru` | ttm/ttm_bo.c:200-215 | the list step of reserving, evicting and releasing: keeps the count exact; on neither list afterwards, and the caller's reference keeps the count above zero |
| `BoLifetime.BufferObject.MoveToLruTail` | ttm/ttm_bo.c:225-232 | keeps the count exact; a listed live buffer stays listed, and references other than those of the lists do not change |
| `BoLifetime.BufferObject.Put` | ttm/ttm_bo.c:144-169 | keeps the count exact and all checks quiet; frees if and only if nothing refers to the buffer any more, once, without user and memory node |
| `Placement.BufferObject.Validate` | ttm/ttm_bo.c:1111-1145 | after success the compatibility check holds for the same request, whatever the device, and a system buffer has a page array; a buffer that was compatible is not moved and, bit by bit, has the access flags of the first fitting place and its other flags as before; a moved buffer has the access flags of its place, and is where the search should put it unless the list is `Stale`; on a failed search it stays |
| `Placement.RefreshKeepsFit` | ttm/ttm_bo.c:1126-1134 | validating a compatible buffer keeps it compatible, and validating it once more changes nothing |
| `Placement.FlaggedFits` | ttm/ttm_bo.c:921-1090 | a region with the flags the search settles on passes the independently written check |
| `Placement.SettledFlags` | ttm/ttm_bo.c:869-913 | bit by bit: the access flags of the place, its memory type and no other, and of the caching modes that place and manager allow those in use, else the default, else the first of cached, write-combined and uncached; so they share a caching mode with the place |
| `Placement.ElectedFlags` | ttm/ttm_bo.c:869-1034 | the region the search answers with has exactly these flags, for the place it elected |
| `Placement.MemType` | ttm/ttm_bo.c:58-69 | the lowest memory type the flags name, or none |
| `Placement.PlacesCompat` | ttm/ttm_bo.c:1068-1090 | finds the first place that fits, if and only if there is one |
| `Placement.MemCompat` | ttm/ttm_bo.c:1092-1109 | holds if and only if a place of either list fits, also when the busy list is skipped because it is a prefix of the same array |
| `Placement.FreeSpace` | ttm/ttm_bo.c:939-984 | the region for the first preferred place that can be had; without one a region comes out exactly when the list is `Stale`; untyped places and allocator errors end the search with their error |
| `Placement.StaleSuccess` | ttm/ttm_bo.c:941-984 | VRAM full and the system manager unusable: a list for which the first pass reports a region although no place can be had |
| `Placement.BusySpace` | ttm/ttm_bo.c:986-1034 | the region for the first busy place that can be had by evicting, or the right error: no candidate, no memory, or restart if and only if a candidate was interrupted |
| `Placement.ForceSpace` | ttm/ttm_bo.c:843-867 | the first node or the first error of the rounds of allocation and eviction, with a node in the range of the place |
| `Placement.MemSpace` | ttm/ttm_bo.c:921-1035 | the region for the first preferred place that can be had, else for the first busy one; "no type" only without candidates, "no memory" only with candidates none of which can be had |
| `PagePool.Pool.Free` | ttm/ttm_page_alloc.c:308-391 | over all restarts frees exactly the last min(nr_free, length) pages, from the end backwards, stays inside its buffer and returns what is left to free; FREE_ALL empties the pool; without a buffer nothing happens |
| `PagePool.Pool.Collect` | ttm/ttm_page_alloc.c:337-346 | the backward walk fills the buffer with the last pages, within its bounds |
| `PagePool.Pool.FreeBatch` | ttm/ttm_page_alloc.c:334-388 | one locked section removes exactly what it collected and keeps the counter |
| `PagePool.FreedTwice` | ttm/ttm_page_alloc.c:334-369 | freeing in two batches frees the same pages in the same order as freeing at once |
| `PagePool.FreedConserves` | ttm/ttm_page_alloc.c:308-391 | no page is lost or doubled by freeing |
| `PagePool.Pool.Take` | ttm/ttm_page_alloc.c:650-679 | both walks cut the same prefix: taken ++ remaining is the old list, and the return value is what is still missing |
| `PagePool.Pool.FillBegin` | ttm/ttm_page_alloc.c:579-604 | only a request below the administrator's limit that the pool cannot meet fills it, and only if nobody else does; such a request is otherwise met or somebody is filling |
| `PagePool.Pool.FillEnd` | ttm/ttm_page_alloc.c:612-631 | new pages go before the old ones and the counter equals the length, on success and on failure |
| `PagePool.Pool.PoolGetPages` | ttm/ttm_page_alloc.c:637-679 | taken ++ pool is new ++ old pool; new pages come in exactly when a fill was due, and never for a request the pool can meet |
| `PagePool.Pool.PutLocked` | ttm/ttm_page_alloc.c:703-722 | the present pages go to the end of the pool, the array is cleared, the surplus is at least a full batch |
| `PagePool.Pool.PutPages` | ttm/ttm_page_alloc.c:682-725 | the pool ends at or below its limit when a buffer could be had; pool and freed pages are together what there was; nothing is freed at or below the limit, and never more than the excess or one batch |
| `PagePool.AllocNewPages` | ttm/ttm_page_alloc.c:499-572 | succeeds if and only if every allocation and the last change of caching do; the pages delivered, newest first, are those before the first failure without a partial batch whose caching failed |
| `PagePool.Pool.GetPages` | ttm/ttm_page_alloc.c:730-805 | fills the whole array, or gives everything to the pool for a cause; pages are conserved either way |
| `PagePool.Pool.GetExtra` | ttm/ttm_page_alloc.c:784-801 | the part beyond the pool, with the same conservation |
| `PagePool.ShrinkScan` | ttm/ttm_page_alloc.c:400-426 | frees and returns exactly min(nr_to_scan, total), from whatever pool it starts, leaving a prefix of each list |
| `PoolRuns.PoolConsistent` | ttm/ttm_page_alloc.c:579-679 | in every interleaving the counter is the list length whenever the lock is free, no page is lost or doubled, and at most one thread fills |
| `PoolRuns.InvKept` | ttm/ttm_page_alloc.c:308-725 | each locked section keeps this, moving the counter the way the code does |
| `PoolRuns.SharedPool.Begin` | ttm/ttm_page_alloc.c:637-679 | the pool methods, up to dropping the lock, are the section `GetBegin`, so keep the invariant of all runs |
| `PoolRuns.SharedPool.End` | ttm/ttm_page_alloc.c:610-679 | the pool methods after a refill of any size are the section `GetEnd`; the request kept over the dropped lock is met from the refilled pool |
| `PoolRuns.SharedPool.PutSection` | ttm/ttm_page_alloc.c:702-722 | the locked part of a put is the section `Put` of the pages present |
| `PoolRuns.SharedPool.FreeSection` | ttm/ttm_page_alloc.c:334-388 | a batch of a free is the section `FreeSome`, and what it hands out is what leaves the pool |
| `TtSwap.ContentsSurvive` | ttm/ttm_tt.c:289-403 | after any sequence of swapout, populate, bind, unbind and writes, successful or failed, the contents are the initial ones with the writes applied |
| `TtSwap.CallKeeps` | ttm/ttm_tt.c:289-403 | each call keeps the contents and the populated or swapped form |
| `TtSwap.SwapoutKeeps` | ttm/ttm_tt.c:351-403 | swapping out a populated array keeps its contents, on success and on failure at any page; it succeeds if and only if there is storage and every page can be read, and otherwise leaves the pages in place |
| `TtSwap.PopulateKeeps` | ttm/ttm_page_alloc.c:870-907 | populating keeps the contents, on success and on failure at any page; it succeeds if and only if the array is populated already, or every page can be allocated and read back; a newly populated array is unbound with no storage left, and a failure changes nothing |
| `TtSwap.UnbindUndoesBind` | ttm/ttm_tt.c:278-311 | a bind leaves the array bound if and only if it could be populated and bound, and an unbind then leaves what populating alone leaves |
| `TtSwap.SwapoutTwice` | ttm/ttm_tt.c:351-403 | swapping out a swapped array keeps the contents if and only if it has its own file, the call fails, or all is zero |
| `TtSwap.SwapoutTwiceLoses` | ttm/ttm_tt.c:351-403 | one page holding 7 reads 0 after a second swapout |
| `TtSwap.Tt.Swapout` | ttm/ttm_tt.c:351-403 | the code, with its copy loop and early exits, does what `AfterSwapout` says, also when storage and file are the same |
| `TtSwap.Tt.CopyOut` | ttm/ttm_tt.c:377-390 | copies exactly the present pages before the first unreadable one |
| `TtSwap.Tt.Swapin` | ttm/ttm_tt.c:313-349 | fills every page from storage and drops it, or fails and keeps it |
| `TtSwap.Tt.Populate` | ttm/ttm_page_alloc.c:870-907 | the code does what `AfterPopulate` says, with all pages released on every failure |
| `TtSwap.Tt.Unpopulate` | ttm/ttm_tt.c:405-426 | no missing page is followed, and all pages are gone |
| `ZoneAccounting.LedgerExact` | ttm/ttm_memory.c:452-535 | after any run of charges, refunds and limit writes each counter is the sum of the outstanding charges that include its zone, on 64 bits, and max <= emer <= zone memory |
| `ZoneAccounting.AllRefunded` | ttm/ttm_memory.c:452-514 | when everything is refunded every counter is zero |
| `ZoneAccounting.OrdinaryStaysWithin` | ttm/ttm_memory.c:476-513 | over every run in which only ordinary callers charge and no limit is written, no zone goes more than one charge above `max_mem` |
| `ZoneAccounting.AdminMayToo` | ttm/ttm_memory.c:491-492 | with ordered limits, whatever an ordinary caller may charge an administrator may charge |
| `ZoneAccounting.ChargeBalances` | ttm/ttm_memory.c:498-505 | a charge moves counters and ledger together |
| `ZoneAccounting.RefundBalances` | ttm/ttm_memory.c:452-467 | a refund takes exactly one charge out of both |
| `ZoneAccounting.StartsBalanced` | ttm/ttm_memory.c:246-312 | the zones as set up are balanced and have ordered limits |
| `ZoneAccounting.Stored` | ttm/ttm_memory.c:112-148 | a write to a limit keeps the limits ordered and the counter as it is |
| `ZoneAccounting.StoredIsShown` | ttm/ttm_memory.c:85-148 | a limit written in KiB reads back as written, cut to the zone; the swap limit is independent, and the other limit moves only as far as their order asks |
| `ZoneAccounting.PageZones` | ttm/ttm_memory.c:550-586 | a high-memory page counts in the high-memory zone only; without high memory a page counts in the DMA32 zone if and only if it starts at or below 4 GiB, and always in the kernel zone |
| `ZoneAccounting.MemGlobal.Reserve` | ttm/ttm_memory.c:476-513 | charges all included zones or none; an ordinary caller succeeds if and only if no included zone uses more than `max_mem`, an administrator if and only if none uses more than `emer_mem`; leaves each at most `amount` above that |
| `ZoneAccounting.MemGlobal.HasRoom` | ttm/ttm_memory.c:486-497 | true if and only if no included zone uses more than `max_mem`, or for an administrator `emer_mem` |
| `ZoneAccounting.MemGlobal.ChargeAll` | ttm/ttm_memory.c:499-504 | adds to the included zones and no other |
| `ZoneAccounting.MemGlobal.AllocZone` | ttm/ttm_memory.c:516-535 | whatever other threads charge, refund and write between the attempts: the charge is made, once, if and only if there is room at the last attempt, and leaves each charged zone at most `memory` above its limit; it is given up only without waiting or after all retries |
| `ZoneAccounting.MemGlobal.Meanwhile` | ttm/ttm_memory.c:214-236 | any legal activity of others, carried out by the same methods, is the run it stands for and keeps the balance |
| `ZoneAccounting.MemGlobal.FreeZone` | ttm/ttm_memory.c:452-467 | takes back an outstanding charge from the zones it includes |
| `ZoneAccounting.MemGlobal.AllocPage` | ttm/ttm_memory.c:550-571 | the same, for exactly the zones the page belongs to |
| `ZoneAccounting.MemGlobal.FreePage` | ttm/ttm_memory.c:573-586 | takes the outstanding charge of the page back from the same zones |
| `ZoneAccounting.MemGlobal.StoreLimit` | ttm/ttm_memory.c:112-148 | the code writes limits as `Stored`, keeping the balance |
| `FenceRing.Context.constructor` | amd/amdgpu/amdgpu_ctx.c:28-47 | the ring slices are disjoint and empty |
| `FenceRing.Context.AddFence` | amd/amdgpu/amdgpu_ctx.c:286-313 | appends to the history of its ring only, returns its number, and waits for exactly the fence it overwrites |
| `FenceRing.Context.GetFence` | amd/amdgpu/amdgpu_ctx.c:315-341 | answers as an unbounded history does: the fence for the last J numbers, an error for future ones, NULL for 0 and for older ones, which were waited for; ~0 is the latest |
| `FenceRing.RingAdd` | amd/amdgpu/amdgpu_ctx.c:286-313 | a submission keeps ring and history in agreement, and finds in its slot the fence submitted J before, if any |
| `FenceRing.SlotKeepsWindow` | amd/amdgpu/amdgpu_ctx.c:296-305 | the slot of a number among the last J still holds its fence |
| `FenceRing.SlotUnused` | amd/amdgpu/amdgpu_ctx.c:296-305 | a slot not yet reached is empty |
| `FenceRing.MaskIsModulo` | amd/amdgpu/amdgpu_ctx.c:42-44 | for a power of two J, masking with J - 1 is the remainder modulo J |
| `BoList.SetList` | amd/amdgpu/amdgpu_bo_list.c:121-207 | the two cursors meet: the other entries in request order, then the user-pointer entries in reverse; otherwise the error of the first bad request |
| `BoList.PlaceEntry` | amd/amdgpu/amdgpu_bo_list.c:163-180 | an entry goes to the end of the front part or before the back part, overwriting neither |
| `BoList.ClampedPriority` | amd/amdgpu/amdgpu_bo_list.c:174-175 | a priority up to 32 is kept, a larger one becomes 32, and the order of two requests is never reversed |
| `BoList.GetList` | amd/amdgpu/amdgpu_bo_list.c:243-272 | a stable sort by descending priority, in front of what was on the list |
| `BoList.FillBuckets` | amd/amdgpu/amdgpu_bo_list.c:252-265 | each bucket holds the entries of its priority in order |
| `BoList.StableSortPermutes` | amd/amdgpu/amdgpu_bo_list.c:243-272 | the output is a permutation of the array |
| `BoList.StableSortUnique` | amd/amdgpu/amdgpu_bo_list.c:243-272 | a stable sort is determined by its input |
| `AudioClock.CalcCts` | amd/amdgpu/amdgpu_afmt.c:51-87 | N*clock*1000 = CTS*128*freq exactly; N is the least such number from floor(128*freq/1000) on; everything fits an int; the "too small" warning is unreachable |
| `AudioClock.AcrFor` | amd/amdgpu/amdgpu_afmt.c:89-105 | every pair is exact, from the table if the clock is in it and least otherwise |
| `AudioClock.TableExact` | amd/amdgpu/amdgpu_afmt.c:32-45 | every table entry is exact |
| `AudioClock.ScaledIsLeast` | amd/amdgpu/amdgpu_afmt.c:57-72 | no smaller N at or above the bound is exact, by coprimality of the reduced fraction |
| `AudioClock.ScaledBounds` | amd/amdgpu/amdgpu_afmt.c:65-72 | scaling past the optimum never leaves the range of the unreduced pair |
| `AudioClock.Bezout` | amd/amdgpu/amdgpu_afmt.c:61 | the divisor is a linear combination of its arguments |

## Left out

- Registers, ATOM BIOS, ACPI, ioctl plumbing, sysfs, debugfs, tracing: no visible logic or only easy members.
- The DMA page pool, `ttm_object.c`, `ttm_bo_vm.c` and the mapping code of `ttm_bo_util.c`: the same ideas again, or unseen callees.
- The two user-pointer lists are one flag per buffer; the worker visits them in any order. Stopping and resuming queues is assumed to succeed.
- Counters are unbounded except where 64 or 32 bits are written out: `invalid`, `evicted_bos`, reference counts and fence sequence numbers do not wrap.
- Tickets are numbers; that later tickets are larger is used only where a row says so. ww_mutex is its waiting rule, evaluated at every moment: a holder waits only for a younger ticket, otherwise it drops everything and waits holding nothing.
- Failures of `reservation_object_reserve_shared`: assumed not to happen, in reservation and in placement.
- The writer check after a slow-path lock is not repeated by the code and not claimed.
- TTM lock: kill-takers mode, and exclusion between two VT lockers, which the code does not provide. The flag word is a set of its five flags.
- Buffer life: a foreign holder that gives a listed buffer its first page array leaves it off the swap list until it is put on again, as the code does. That foreign holders of a shared reservation do not pin a listed buffer is part of the model; CPU writers and the io-memory lists are not.
- Placement: flag words are sets of bits, and memory types outside the manager array are not modelled. `Placement.BufferObject.Validate` relies on the managers' available caching modes being caching modes.
- The page pool on machines with highmem, the failure of a full caching batch in `ttm_alloc_new_pages`, and the failed charge in `ttm_pool_populate`.
- `amdgpu_bo_list_set`: the reference counts of its error unwind.
- Scattered copy: what is read from the memory after a node list; the model stops there. Addresses are unbounded, and a region in the GART is one node.
- PagePool.Pool.PutPages: page counts stay below 2^32 - 1, the value that means all pages.
- PagePool.ShrinkScan: the request fits a signed int, as the code stores it.
