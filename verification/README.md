# Transom snapshot: what the checkpoint engine guarantees

Transom snapshot keeps training checkpoints in the memory of the training nodes. A node saves a file
into shared memory, backs it up to the next node of a ring, writes it to disk, and later evicts it. This
project models that behaviour in Dafny and proves what the engine promises: that copies survive, that
eviction never overtakes persistence, that no work is lost, and that the layers underneath (channel,
parallel copies, RDMA chunks, wire format, rate limiter, base64, memory accounting) do what the upper
layers rely on.

`dafny verify dfyconfig.toml` checks the whole project.

## How the model is built

**The lifecycle** (`Lifecycle*.dfy`) is a transition system over any number of nodes and files. Its state is the
metadata table, each node's two dictionaries, iteration list and eviction in progress, the disk, and the reconcile
tasks. One call of `AddRateLimited` is one task; it is posted, queued, and then passes through the stages of one
`Reconcile` call, with every other node, worker and http handler free to act between two stages. Database, copy,
disk and allocation calls may fail. `CanHappen` and `Apply` say what the code allows. A copy to the next node is
looked up there, installed when the lookup missed, and then sent (`Begin`, `Install`, `Arrive`, `Finish`): a lookup
that hits reuses the memory, and fresh memory that takes the place of older memory leaves the copies into the older
one `Orphaned`. A copy that fails leaves each byte as it was or as sent; if its lookup missed, the server's handler
may outlive it (`late`) and save fresh memory at any time. An eviction reads the states of all its files once, when
it begins (`Eviction.seen`), and again only for the file it is waiting for, as `deleteOldestIteration` does. A rule
says what the clients do: `DisciplinedClient` (the assumptions below), `HastyClient` (a file may be saved again
while its key still waits in the queue), `QuietEviction` (as disciplined, and a file is marked for eviction only
while no worker of its owner stands between reading its row and looking for its data), `Sparing(f)` (as
disciplined, and `f` is not marked once more) and `LateHandlers` (disciplined clients, and handlers that outlive
their failed copies). `LifecycleGuarantees.dfy` holds what every disciplined run keeps, and
`LifecycleConditions.dfy`, `LifecycleLate.dfy` and `LifecycleResave.dfy` the exact condition of each promise that
some runs break. For the last of these, `LifecycleHiding.dfy` takes one file out of a run, `LifecycleTwin.dfy`
keeps an invariant of a file whose reconciles overlap, and `LifecycleClearing.dfy` and `LifecycleOldest.dfy` show
how a node's list can be emptied, from any state, until a given file is the next to be evicted.

**The sequential code** is proved against that system. `CoordinatorServer.dfy` runs `Reconcile` and one turn
of the worker loop as methods on mutable state, and `ReconcileIsRun` shows each call to be a run of the
system. `HttpHandlers.dfy` does the same for the http handlers; each time a handler sleeps, any run of
everyone else may happen, as long as nobody else takes the lock holder's own steps. `Coordinator.dfy` says,
case by case, what one call of `Reconcile` decides, and bounds how often a key is handled.

**The layers below** stand on their own: `Channel.dfy` and `FanIn.dfy` (interleavings of the bounded
channel and of the two worker pools on it), `Tiling.dfy`, `Memcpy.dfy` and `Rdma.dfy` (concurrent copies, byte
by byte in any order), `Bytes.dfy`, `Codec.dfy`, `Buffer.dfy` and `Wire.dfy` (messages from fields to a
fragmenting and failing socket and back), `RateLimiter.dfy`, `Base64.dfy`, `Storage.dfy` and `MemoryRace.dfy`
(memory accounting in sequence, and under every interleaving of allocating threads).

### Assumptions of the lifecycle results

- Each file has one owner node and keeps its size when it is saved again.
- A file is saved again only when its key is neither waiting nor running at the owner, nor running
  elsewhere, and while it is not on the list of an eviction; the training process writes only files it has
  asked to save and not yet completed.
- No row of the oldest iteration is PENDING when its eviction begins. For every file after the first, the state
  an eviction goes by may be the one read at that time, before all its waiting.
- `createMetadata` after its iteration bookkeeping is one step. The runs behind the guarantees have no failing
  write of a new row; the handlers are modelled with it.
- The server handler of a failed copy has ended before the key is handled again. A handler that missed in its
  lookup saves fresh memory later without a lock around both (`src/coordinator/server.cpp:129-140`); the client
  may meanwhile have failed on its own side (`src/coordinator/client.cpp:86-90`) and try again. No
  `DisciplinedClient` run has such a handler; `LifecycleLate.dfy` says exactly what becomes of the backup with it.
- A failed database update changes nothing. Iteration strings are canonical decimals or "unknown". The
  persistence flag is "on" or "off". File names are not empty.
- No node crashes during a run; `SurvivesNodeLoss` then says what the loss of any one node leaves.
- Queued keys are taken in any order by any number of workers, which covers the queue's own order.

### What came out

- `SurvivesNodeLoss`, `PersistentOnDisk`, `FreedOnlyWhenOnDisk`, `NoLostWork`, `EvictionReachesBothCopies`,
  `BoundedCache` and `CorrectReads` hold in every reachable state.
- `EvictionBreaksIff`: marking a file for eviction can lead to a BROKEN row, which leaves a backup behind that
  nothing will free, exactly when some worker of its owner has read the row and not yet looked for the data.
- `SaveDurableIff`: saving a file again keeps its two copies in memory, whatever happens later, exactly when its
  key is neither waiting nor running at the owner, or the save names no iteration and the next node already has
  memory for the file. Otherwise a copy that missed in its lookup can put zeroed memory over a finished backup, or
  the file can be evicted under a reconcile that then writes BACKED_UP over the row. The engine does not check
  this, and `transomSnapshot/tests/maxIteration_test.py` saves a file twice in a row. The condition is about
  memory only: two overlapping reconciles may also truncate each other's file on disk.
- `HeldTwiceIff`, `LateLosesIff`, `LostToLateHandler`: with server handlers that outlive their failed copies, a
  backed-up file keeps its second copy exactly as long as no such handler has saved its fresh memory.
- `CorrectReads` holds for one node too, except that `OwnerRefusesIff`: the owner of a live row may answer that it
  has no data exactly on a single node that persists.
- `DroppedOncePersistent`, `DroppedOnceFreed`: with nothing failing, a key is dropped only when its work is done.
- `NextNodeReadsIff`: the next node serves the last completed save in every row state but CACHED, where it may
  answer OK with the bytes of an earlier save.
- `FreesUnsavedIff` and `ReadsFreedIff`: on a single node an eviction waits neither for the write to disk to
  begin nor for it to end, so a file may be freed unwritten, or while it is being written.
- `StuckUntil`, `StuckByFailedSaves`: when no row carries the oldest of a full list of iterations,
  for instance because its saves failed, every save of a new iteration is refused until someone saves a file
  in that oldest iteration.
- `PendingNeverReconciled` proves the comment that reconciling a PENDING row will not happen.
- A worker that loses the race for the last item works on a default item. `TrueMeansAllSucceeded`: an overall
  "true" can still be trusted. `FalseAlarmIff`: an overall "false" of the loading pool can not, with two workers
  or more. `ProcessEndsIff`: in the backup pool the same race ends the process, because a default item has an
  empty file name. In the loading pool, if the item's arbitrary rank names a node, it is that node's process.
- On the device path the image is complete exactly when each tensor has an even number of whole 512 KiB
  blocks (`DeviceCompleteIffEven`); otherwise the last whole block keeps its old contents.
- `rdma_write` and `rdma_read` move the caller's buffer exactly when it is apart from the region, or is the region
  and the local offset is 0 (`SendsBufferIff`, `FillsBufferIff`). The callers in the repository use offset 0.
- A message arrives unchanged exactly when its strings hold no NUL and the elements of a batch have the
  success code (`SeenIffClean`).
- The socket calls' error result becomes a large unsigned number, so `Write` and `Read` report success after an
  error; their true results stand for a whole frame exactly when no call failed (`Wire.Write`, `Wire.Read`).
- `try_aquire` is documented to take seconds; the code compares microseconds with 1000 times the timeout, so
  the model follows the code and the bound is in milliseconds.
- An allocation that passes the memory test and then fails stays on the usage counter, and so does the difference
  when a memory file is resized (`drift`).
- The memory test and the charge take no lock together. `StaysBelowIff`: the counter stays below the capacity in
  every interleaving exactly when one thread at most allocates. `NeverOverIff`: it can rise above
  the capacity as soon as the others have two bytes in flight, and then the test lets pass almost anything.

## Model

| member | source | states |
|---|---|---|
| LifecycleGuarantees.SurvivesNodeLoss | transom_snapshot_server/src/coordinator/coordinator.cpp:246-314 | a BACKED_UP or PERSISTENT row's last saved bytes are at the owner and at the next node, so wiping any one node's memory leaves a full copy elsewhere |
| LifecycleGuarantees.PersistentOnDisk | transom_snapshot_server/src/coordinator/coordinator.cpp:286-314 | a PERSISTENT row's last saved bytes are on disk, for any world size |
| LifecycleGuarantees.NeverReadsFreedMemory | transom_snapshot_server/include/storage/storage.h:27-30 | a worker that copies a file finds the complete last save in memory, without any lock |
| LifecycleGuarantees.PendingNeverReconciled | transom_snapshot_server/src/coordinator/coordinator.cpp:227-244 | no running reconcile has read a PENDING row, and a node that is not the owner only handles OBSOLESCENT rows |
| LifecycleGuarantees.RowsMoveForward | transom_snapshot_server/src/coordinator/coordinator.cpp:227-345 | in a world of any size every step moves a row along one edge of the lifecycle, taken by the event that owns that edge |
| LifecycleGuarantees.EvictionWaits | transom_snapshot_server/include/communicator/http/http_service_impl.h:346-366 | on a ring with persistence on, no step takes a CACHED or BACKED_UP row to OBSOLESCENT, though the eviction goes by states read earlier |
| LifecycleGuarantees.FreedOnlyWhenOnDisk | transom_snapshot_server/src/coordinator/coordinator.cpp:321-339 | a step that frees a memory copy does so only when the last saved bytes are on disk |
| LifecycleGuarantees.EvictionReachesBothCopies | transom_snapshot_server/src/coordinator/coordinator.cpp:321-339 | for an OBSOLESCENT row the owner's copy has a task at the owner, and once it is gone the next node has no copy or a task |
| LifecycleGuarantees.NoLostWork | transom_snapshot_server/src/operator/operator.cpp:26-43 | a CACHED row has a task at its owner, and so has a BACKED_UP row unless a disk write for it failed |
| LifecycleGuarantees.GivesUpOnlyOnDiskFailure | transom_snapshot_server/src/coordinator/coordinator.cpp:300-305 | the mark that excuses a BACKED_UP row is set only by a failed disk write, and cleared by the next completed save |
| LifecycleGuarantees.BoundedCache | transom_snapshot_server/include/communicator/http/http_service_impl.h:165-187 | the iteration list has no duplicates, stays within the cap, and covers every file the node holds |
| LifecycleGuarantees.CorrectReads | transom_snapshot_server/include/communicator/http/http_service_impl.h:97-136 | in a world of any size, what the owner serves for a live row, and the next node for a BACKED_UP or PERSISTENT one, is the last completed save; on a ring they always serve it, and a single node does unless the row is PERSISTENT |
| LifecycleGuarantees.ServedIff | transom_snapshot_server/include/communicator/http/http_service_impl.h:109-136 | in every reachable state nobody serves a PENDING, OBSOLESCENT or BROKEN row; the owner of any other serves it, unless a single node has freed a PERSISTENT file, and so does the next node, if it has a backup, which is certain unless the row is CACHED |
| LifecycleConditions.OwnerRefusesIff | transom_snapshot_server/include/communicator/http/http_service_impl.h:97-136 | the owner of some reachable live row has nothing to serve if and only if a single node persists |
| LifecycleTheorems.StepSafe | transom_snapshot_server/src/coordinator/coordinator.cpp:120-357 | every event keeps the combined invariant of data, work, eviction and cache |
| LifecycleTheorems.ReachableSafe | transom_snapshot_server/src/coordinator/coordinator.cpp:120-357 | the combined invariant holds in every reachable state |
| LifecycleConditions.EvictionBreaksIff | transom_snapshot_server/src/coordinator/coordinator.cpp:175-189 | from any reachable state, a permitted marking of a file can be followed by a run, without another marking of it, to a BROKEN row if and only if some worker of its owner has read the row in a live state and not yet looked for the data |
| LifecycleConditions.QuietNeverBreaks | transom_snapshot_server/src/coordinator/coordinator.cpp:175-189 | runs in which every marking meets that condition have no BROKEN row |
| LifecycleRuns.BrokenByUnquietEviction | transom_snapshot_server/include/communicator/http/http_service_impl.h:361-374 | a run that ends with a BROKEN row, a leftover backup and no task |
| LifecycleResave.SaveDurableIff | transom_snapshot_server/include/communicator/http/http_service_impl.h:189-219 | after a save, every disciplined continuation keeps the saved bytes of a BACKED_UP or PERSISTENT row at the owner and at the next node, if and only if the file's key was neither waiting nor running at the owner, or the save names no iteration and the next node has memory for the file |
| LifecycleTwin.TwinDurable | transom_snapshot_server/src/coordinator/server.cpp:129-148 | a file saved again outside every iteration, while its old key still waits, keeps both copies although its reconciles overlap, because the server reuses the memory it finds |
| LifecycleResave.EvictedUnderWork | transom_snapshot_server/include/communicator/http/http_service_impl.h:333-378 | from any reachable state, a file saved again in an iteration while its old key still waits can be evicted under that key's copy, whatever else the node holds |
| LifecycleOldest.Foreground | transom_snapshot_server/include/communicator/http/http_service_impl.h:165-187 | disciplined clients can always bring a file of a node to the front of its full list, alone in its iteration and untouched |
| LifecycleHiding.ProjectEvent | transom_snapshot_server/src/coordinator/coordinator.cpp:120-357 | a step about other files is permitted and does the same in the system without a given file |
| LifecycleLate.HeldTwiceIff | transom_snapshot_server/src/coordinator/server.cpp:129-148 | when handlers may outlive failed copies, a backed-up file has both copies if and only if no such handler's fresh memory has replaced the backup, or the file is all zeros |
| LifecycleLate.LateLosesIff | transom_snapshot_server/src/coordinator/client.cpp:86-90 | some late handler's next step loses the backup if and only if one lingers for the file and the file is not all zeros |
| LifecycleLate.LostToLateHandler | transom_snapshot_server/src/communicator/rdma_communicator.cpp:217-225 | a run in which a failed copy's handler replaces the finished backup behind a BACKED_UP row |
| LifecycleRuns.LostByHastyClient | transomSnapshot/tests/maxIteration_test.py:33-49 | a run in which saving twice in a row ends with a BACKED_UP row whose data the owner has freed |
| LifecycleConditions.NextNodeReadsIff | transom_snapshot_server/include/communicator/http/http_service_impl.h:116-136 | over all reachable rows in a state, every answer of the next node is the last completed save if and only if the state is not CACHED |
| LifecycleConditions.StaleReadAtNextNode | transom_snapshot_server/include/communicator/http/http_service_impl.h:116-136 | a run in which the next node serves a CACHED row with the bytes of an earlier save |
| LifecycleConditions.FreesUnsavedIff | transom_snapshot_server/include/communicator/http/http_service_impl.h:346-357 | a step of some run frees memory whose last save is not on disk if and only if persistence is off or the node is alone |
| LifecycleConditions.ReadsFreedIff | transom_snapshot_server/src/coordinator/coordinator.cpp:246-265 | a worker of some run copies from freed memory if and only if a single node persists |
| LifecycleConditions.StuckUntil | transom_snapshot_server/include/communicator/http/http_service_impl.h:165-187 | whatever anyone does, a node whose full list begins with an iteration of no row stays so and, by `StuckRefuses`, can begin no eviction, except after a save in that oldest iteration |
| LifecycleConditions.StuckByFailedSaves | transom_snapshot_server/include/communicator/http/http_service_impl.h:165-197 | saves that fail to allocate leave a stuck node |
| Lifecycle.RingInverse | transom_snapshot_server/src/coordinator/client.cpp:406-429 | next and previous node undo each other on the ring |
| Coordinator.HandleProgress | transom_snapshot_server/src/operator/operator.cpp:26-33 | one call drops the key or, when nothing fails, brings it strictly closer; it never loses ground |
| Coordinator.DroppedWithinNeed | transom_snapshot_server/src/operator/operator.cpp:26-33 | a key is dropped within as many calls as its state needs, plus the calls in which an operation fails |
| Coordinator.DroppedWithinThree | transom_snapshot_server/src/operator/operator.cpp:26-33 | a key is dropped within three calls plus the failing ones |
| Coordinator.DroppedOncePersistent | transom_snapshot_server/src/coordinator/coordinator.cpp:246-319 | with persistence on and no failing operation, the key of a CACHED, BACKED_UP or PERSISTENT row is dropped only once the row is PERSISTENT, with the bytes on disk and, on a ring, at the next node |
| Coordinator.DroppedOnceFreed | transom_snapshot_server/src/coordinator/coordinator.cpp:321-339 | with no failing operation, the owner drops the key of an OBSOLESCENT row once its own copy is gone and the next node has the key, and the next node drops it once the backup is gone |
| Coordinator.HandleMovesForward | transom_snapshot_server/src/coordinator/coordinator.cpp:120-357 | one call never moves a row backwards and touches no other row |
| Coordinator.DecidesByRow | transom_snapshot_server/src/coordinator/coordinator.cpp:120-146 | a row that cannot be read is tried again with nothing changed; a key without a row, or of another node's file that is not being evicted, is dropped |
| Coordinator.DecidesByData | transom_snapshot_server/src/coordinator/coordinator.cpp:148-190 | without the data an OBSOLESCENT or BROKEN row is done with; any other turns BROKEN, or is tried again when that cannot be written |
| Coordinator.DecidesNothing | transom_snapshot_server/src/coordinator/coordinator.cpp:227-320 | PENDING, PERSISTENT and BROKEN rows, and without persistence those that would be written to disk, change nothing but an empty file on disk |
| Coordinator.DecidesBackup | transom_snapshot_server/src/coordinator/coordinator.cpp:266-284 | on a ring a CACHED file is copied to the next node and its row becomes BACKED_UP; whatever fails, the row stays and the key is tried again |
| Coordinator.DecidesDisk | transom_snapshot_server/src/coordinator/coordinator.cpp:246-314 | a CACHED file of a single node or a BACKED_UP one is written to disk and its row becomes PERSISTENT; a failed write is tried again by the single node and given up otherwise |
| Coordinator.DecidesEviction | transom_snapshot_server/src/coordinator/coordinator.cpp:321-339 | the owner on a ring frees its copy only after the next node has queued the key, and tries again if that fails; any other node frees its copy at once |
| Coordinator.HandleAtNonOwner | transom_snapshot_server/src/coordinator/coordinator.cpp:140-146 | at a node that is not the owner the row, the disk and that node's own dictionary stay as they are |
| CoordinatorServer.Cluster.Reconcile | transom_snapshot_server/src/coordinator/coordinator.cpp:120-357 | the sequential code leaves the state the stages of the transition system lead to, and its answer is whether they drop the key |
| CoordinatorServer.Cluster.ActCachedAlone | transom_snapshot_server/src/coordinator/coordinator.cpp:246-284 | the CACHED branch for one node |
| CoordinatorServer.Cluster.ActCachedOnRing | transom_snapshot_server/src/coordinator/coordinator.cpp:266-284 | the CACHED branch on a ring |
| CoordinatorServer.Cluster.ActBackedUp | transom_snapshot_server/src/coordinator/coordinator.cpp:286-314 | the BACKED_UP branch, which gives up after a failed write |
| CoordinatorServer.Cluster.ActObsolescent | transom_snapshot_server/src/coordinator/coordinator.cpp:321-339 | the OBSOLESCENT branch: the next node is told before the local copy goes |
| CoordinatorServer.Cluster.BackUp | transom_snapshot_server/src/coordinator/client.cpp:30-111 | the bytes replace the next node's backup, which may queue the key |
| CoordinatorServer.Cluster.RunOnce | transom_snapshot_server/src/operator/operator.cpp:26-43 | fetch, handle and post again unless done is exactly one pass of the system |
| CoordinatorServer.ReconcileIsRun | transom_snapshot_server/src/coordinator/coordinator.cpp:120-357 | an uninterrupted call is a run of the system, under every rule |
| HttpHandlers.CreateMetadata | transom_snapshot_server/include/communicator/http/http_service_impl.h:139-220 | whatever others do meanwhile, the call is a run of the system; without need for room it succeeds if and only if the size is not 0, memory can be had and the row written, and what it leaves is stated in full; with it, it fails if and only if the oldest iteration cannot be loaded or has no row, a database call that was due fails, or else for the same reasons, and it waits on only when its turns are used up; an eviction that is over leaves every file of the oldest iteration evicted |
| HttpHandlers.DeleteOldestIteration | transom_snapshot_server/include/communicator/http/http_service_impl.h:333-378 | with its wait loops it is a run of the system; it fails if and only if the iteration cannot be loaded or has no row, or a reload or a marking that was due fails, and then unlocks; it succeeds if and only if it got through all files; the files before the one it stopped at were marked, their keys posted and their data gone; on a stuck node it fails and changes nothing |
| HttpHandlers.EvictFile | transom_snapshot_server/include/communicator/http/http_service_impl.h:346-374 | fails if and only if reading the row again fails while a CACHED or BACKED_UP state has to be waited for, or marking it fails when not; succeeds if and only if neither does and the data goes, and then the file was marked OBSOLESCENT with its key posted at some point of the run and its data gone at a later one |
| HttpHandlers.Mark | transom_snapshot_server/include/communicator/http/http_service_impl.h:361-367 | on the strength of the last read, the row becomes OBSOLESCENT and its key is posted; nothing else changes |
| HttpHandlers.BatchLoad | transom_snapshot_server/include/communicator/http/http_service_impl.h:334-337 | exactly the node's rows of its oldest iteration |
| HttpHandlers.UpdateMetadata | transom_snapshot_server/include/communicator/http/http_service_impl.h:222-243 | any reported state goes into the row, if there is one, and the key is posted; a completed save becomes the last one |
| HttpHandlers.ReadMetadata | transom_snapshot_server/include/communicator/http/http_service_impl.h:97-136 | serves an entry if and only if the row is CACHED, BACKED_UP or PERSISTENT and the node is its owner or the next one and holds the file; at any other node a row in these states leads to a fetch; everything else is refused |
| Channel.BoundedChannel.Push | transom_snapshot_server/include/util/channel.h:185-200 | one value is appended, and counter and capacity stay right |
| Channel.BoundedChannel.Pop | transom_snapshot_server/include/util/channel.h:202-220 | the front value is taken, or the variable keeps its value when there is none |
| Channel.FifoUnderEveryInterleaving | transom_snapshot_server/include/util/channel.h:185-263 | in every interleaving, values taken and then the queue are the values pushed; the counter is the length, within the capacity; an open channel never yields a default |
| Channel.OpenChannelDelivers | transom_snapshot_server/include/util/channel.h:202-220 | on a channel that is not closed the k-th receive returns the k-th value pushed |
| FanIn.StepKeeps | transom_snapshot_server/src/coordinator/client.cpp:271-319 | every step of feeder, workers and collector keeps each item with one holder and each true result genuine |
| FanIn.TrueMeansAllSucceeded | transom_snapshot_server/src/coordinator/client.cpp:271-327 | if all N collected results are true, each of the N tasks ran and returned true |
| FanIn.Verdict | transom_snapshot_server/src/coordinator/server.cpp:404-417 | the collecting loop is true exactly when every result is |
| FanIn.FalseAlarmIff | transom_snapshot_server/src/coordinator/client.cpp:271-319 | some interleaving collects a false result although every task returned true, if and only if the pool loads, with an item and two workers or more |
| FanIn.ProcessEndsIff | transom_snapshot_server/src/coordinator/server.cpp:356-387 | some interleaving ends the process on a default item, if and only if the pool backs up, with an item and two workers or more |
| Tiling.AnyOrder | transomSnapshot/transom_memcpy/transom_memcpy.cpp:145-216 | copies that are apart have one writer per address (`OneWriter`), so every order of the byte writes leaves the image on the covered addresses and the rest untouched |
| Tiling.CompleteIffNoGap | transomSnapshot/transom_memcpy/transom_memcpy.cpp:145-216 | the image is complete under every order if and only if the copies leave no gap |
| Memcpy.HostCopies | transomSnapshot/transom_memcpy/transom_memcpy.cpp:193-207 | four quarters and a remainder copy the tensor exactly |
| Memcpy.DeviceBlocks | transomSnapshot/transom_memcpy/transom_memcpy.cpp:160-171 | one device thread copies its whole blocks and nothing else |
| Memcpy.DeviceCopies | transomSnapshot/transom_memcpy/transom_memcpy.cpp:157-192 | the three writers are disjoint and cover all but the last whole block of an odd number of blocks |
| Memcpy.TransomMemcpy | transomSnapshot/transom_memcpy/transom_memcpy.cpp:81-248 | true exactly when the file opens and maps and both sizes equal the image's; the copies started carry the image's own bytes in place |
| Memcpy.HostImageUnderEverySchedule | transomSnapshot/transom_memcpy/transom_memcpy.cpp:145-215 | on the host path every schedule leaves metadata, then size and data per tensor, and nothing outside |
| Memcpy.MissedKeepsOldContents | transomSnapshot/transom_memcpy/transom_memcpy.cpp:157-192 | on the device path missed blocks keep their old bytes and all others get the image's |
| Memcpy.DeviceCompleteIffEven | transomSnapshot/transom_memcpy/transom_memcpy.cpp:157-192 | the device path is complete under every schedule if and only if every tensor has an even number of whole blocks |
| Memcpy.ImageLayout | transomSnapshot/transom_memcpy/transom_memcpy.cpp:145-155 | the metadata comes first, and tensor i behind the ones before it: eight bytes of element count, least significant first, and its data |
| Memcpy.CheckpointSize | transomSnapshot/engine/engine.py:76-86 | the engine's size is the image's length; an empty checkpoint is refused |
| Rdma.Transfer | transom_snapshot_server/src/communicator/rdma_communicator.cpp:761-781 | the posted requests are the chunks up to the first that cannot be posted; success means every post and completion succeeded, and then in every order of the byte writes the peer's memory, for a write, or the local memory, for a read, is one copy of the other side's bytes at the given addresses |
| Rdma.ChunksTile | transom_snapshot_server/src/communicator/rdma_communicator.cpp:761-773 | the chunks write every byte at most once and in place, and all of them together every byte; they fit the queue of 100 requests up to 100 GiB (`QueueFitsIff`) |
| Rdma.ChunksRefineOneCopy | transom_snapshot_server/src/communicator/rdma_communicator.cpp:746-788 | every completion order, byte by byte, leaves what one sequential copy between the two memories would |
| Rdma.Process.RdmaWrite | transom_snapshot_server/src/communicator/rdma_communicator.cpp:746-788 | what is staged, posted and changed on both sides, for a write that succeeds, fails or ends the process: the peer's memory is one copy of the staged bytes at the remote address, or part of one |
| Rdma.Process.Arrive | transom_snapshot_server/src/communicator/rdma_communicator.cpp:817-833 | a chunked read in any order is one copy into the region |
| Rdma.Process.RdmaRead | transom_snapshot_server/src/communicator/rdma_communicator.cpp:801-846 | succeeds if and only if the size is not 0, every post and completion succeeds and the buffer does not lie inside the region past its start, and ends the process if and only if it does lie there once the bytes have come; the region is then one copy of the peer's bytes at the remote address, and after a failure part of one |
| Rdma.SendsBufferIff | transom_snapshot_server/src/communicator/rdma_communicator.cpp:750-766 | memory counts as registered at the region's first address only (`RegisteredIffAtStart`), so whatever memory holds, a write sends the caller's buffer if and only if that is apart from the region, or is the region used from its start |
| Rdma.FillsBufferIff | transom_snapshot_server/src/communicator/rdma_communicator.cpp:809-839 | a read fills the caller's buffer, whatever the peer sent, under the same condition |
| Codec.MetadataLayout | transom_snapshot_server/src/api/api.cpp:58-65 | job name, file name, rank, iteration, state and size stand in this order at their offsets, strings as length, characters and terminator |
| Codec.MessageLayout | transom_snapshot_server/src/api/api.cpp:107-253 | the fields of each kind of message stand in their order at their offsets |
| Codec.RoundTrip | transom_snapshot_server/src/api/api.cpp:58-257 | decoding an encoded message, wherever it stands, gives what a receiver should see and ends right after it |
| Codec.SeenIffClean | transom_snapshot_server/src/api/api.cpp:221-239 | the receiver sees the message itself if and only if no string holds a NUL and every batch element has the success code |
| Codec.ReadItems | transom_snapshot_server/src/api/api.cpp:221-239 | a batch reads back element by element, with the codes reset to success |
| Codec.ReadText | transom_snapshot_server/include/buffer/buffer.h:123-127 | a string reads back up to its first NUL |
| Buffers.Buffer.Add | transom_snapshot_server/include/buffer/buffer.h:78-116 | contents grow by the item, capacity by whole 4096-byte blocks, and offset, length and capacity stay ordered |
| Buffers.Buffer.AddString | transom_snapshot_server/include/buffer/buffer.h:123-127 | length field, characters up to the first NUL, terminator |
| Buffers.Buffer.Get | transom_snapshot_server/include/buffer/buffer.h:158-186 | the next bytes, or the end of the process past the length |
| Buffers.Buffer.GetString | transom_snapshot_server/include/buffer/buffer.h:193-196 | the characters up to the terminator |
| Buffers.Buffer.Realloc | transom_snapshot_server/include/buffer/buffer.h:237-244 | at least the target capacity, contents kept |
| Buffers.Buffer.Reset | transom_snapshot_server/include/buffer/buffer.h:249-253 | empty and zeroed, same capacity |
| Buffers.MarshalMetadata | transom_snapshot_server/src/api/api.cpp:58-65 | appends the metadata's encoding |
| Buffers.MarshalBatch | transom_snapshot_server/src/api/api.cpp:221-228 | appends count, elements and code |
| Buffers.Marshal | transom_snapshot_server/src/api/api.cpp:107-253 | appends the message's encoding |
| Buffers.UnmarshalMetadata | transom_snapshot_server/src/api/api.cpp:67-74 | reads what decoding the contents gives |
| Buffers.UnmarshalItems | transom_snapshot_server/src/api/api.cpp:230-237 | reads the batch, or stops where decoding stops |
| Buffers.Unmarshal | transom_snapshot_server/src/api/api.cpp:113-257 | reads what decoding the contents gives, and moves the offset there |
| Wire.SockSend | transom_snapshot_server/src/communicator/rdma_communicator.cpp:945-963 | all bytes go out in order whatever the pieces, or 0 at the end of the stream; an error is returned as the largest word |
| Wire.SockRecv | transom_snapshot_server/src/communicator/rdma_communicator.cpp:919-936 | exactly `size` bytes come in whatever the pieces, or 0 at the end of the stream; an error is returned as the largest word |
| Wire.FrameLayout | transom_snapshot_server/src/communicator/rdma_communicator.cpp:179-203 | eight bytes of length, least significant first, and then the contents |
| Wire.Write | transom_snapshot_server/src/communicator/rdma_communicator.cpp:179-203 | sends length and contents; an empty message is sent but reported as failed; a true result means that the frame went out if and only if no call failed |
| Wire.Read | transom_snapshot_server/src/communicator/rdma_communicator.cpp:138-170 | takes exactly one frame off the stream, and refuses a buffer that holds data; a true result means a whole frame if and only if no call failed |
| Wire.Exchange | transom_snapshot_server/src/communicator/rdma_communicator.cpp:138-203 | Marshal, Write, Read, Unmarshal under any fragmentation give the message as seen, the same one exactly when clean, with buffer and stream consumed |
| RateLimiters.RateLimiter.SetRate | transom_snapshot_server/src/operator/rate_limiter.cpp:101-108 | the interval of a positive rate; other rates are refused |
| RateLimiters.RateLimiter.Sync | transom_snapshot_server/src/operator/rate_limiter.cpp:61-68 | the next free time never goes back, and no permits are stored |
| RateLimiters.RateLimiter.ClaimNext | transom_snapshot_server/src/operator/rate_limiter.cpp:70-95 | the grant comes at the later of clock and next free time, and pushes the next by the truncated cost |
| RateLimiters.RateLimiter.Aquire | transom_snapshot_server/src/operator/rate_limiter.cpp:31-40 | as claimed; a request for no permits ends the process |
| RateLimiters.RateLimiter.TryAquire | transom_snapshot_server/src/operator/rate_limiter.cpp:46-59 | refuses exactly when the wait would be longer, and then charges nothing; what it grants is charged at the second clock reading, waits at most 1000 microseconds per unit of timeout, and not at all for a negative one |
| RateLimiters.WindowBound | transom_snapshot_server/src/operator/rate_limiter.cpp:70-95 | grants that each charge at least d are d apart, so n of them take (n - 1) * d microseconds |
| RateLimiters.SinglePermits | transom_snapshot_server/include/config/config.h:83 | at 500 permits per second, with any clock, grants come as early as allowed and any window of T microseconds holds at most T / 2000 + 1 |
| Base64.Base64Encode | transom_snapshot_server/src/util/util.cpp:164-195 | the encoding of section 4 of RFC 4648 without padding |
| Base64.EncodingAt | transom_snapshot_server/src/util/util.cpp:164-195 | character i stands for bits 6 * i to 6 * i + 5 of the bytes, most significant first, in the alphabet of RFC 4648 |
| Base64.Base64Decode | transom_snapshot_server/src/util/util.cpp:197-223 | empty for a character outside the alphabet; for letters with any padding, the whole bytes among their bits |
| Base64.DecodingAt | transom_snapshot_server/src/util/util.cpp:197-223 | byte j is bits 8 * j to 8 * j + 7 of the letters, whether or not bits are dropped at the end |
| Base64.RoundTrip | transom_snapshot_server/src/util/util.cpp:164-223 | decoding the encoding, with any amount of padding appended, gives the bytes back |
| Base64.Reencode | transom_snapshot_server/src/util/util.cpp:164-223 | decoding a text and encoding again gives it back if and only if no bits were dropped |
| Base64.Find | transom_snapshot_server/src/util/util.cpp:72-80 | the position of a character in the alphabet, or none |
| Storage.MemoryMonitor.constructor | transom_snapshot_server/src/monitor/monitor.cpp:61-78 | the capacity is the smaller of the control group's limit and the user's, or the physical memory without one |
| Storage.MemoryMonitor.Enough | transom_snapshot_server/src/monitor/monitor.cpp:86-89 | strictly more idle memory than asked for |
| Storage.MemoryMonitor.TryMemfdMalloc | transom_snapshot_server/src/monitor/monitor.cpp:91-98 | charges before allocating, and not at all when out of memory |
| Storage.Store.Save | transom_snapshot_server/src/storage/storage.cpp:31-49 | the entry goes to the dictionary of its owner or of backups |
| Storage.Store.Load | transom_snapshot_server/src/storage/storage.cpp:51-77 | the entry of the dictionary the row's rank selects; an empty name ends the process |
| Storage.Store.Delete | transom_snapshot_server/src/storage/storage.cpp:79-105 | frees one entry and discharges the row's size, right or wrong; the bound is kept when the size is the entry's |
| Storage.Store.Allocate | transom_snapshot_server/src/coordinator/server.cpp:129-148 | a file without an entry gets one if and only if strictly more than its size is idle, the size is not 0 and the system call succeeds, and is out of memory if and only if no more is idle; one with an entry is resized if and only if the size is not 0 and the same or the call succeeds; resizing charges nothing, allocating charges the size, even when it then fails; the counter stays below the capacity when sizes do not change |
| Storage.Run | transom_snapshot_server/src/monitor/monitor.cpp:86-113 | under a user limit any sequence of allocations and deletes, up to one with an empty name, leaves exactly the entries that the sizes and the capacity determine; the counter is the sum of the live entries plus that of failed allocations, and 0 or strictly below the capacity |
| MemoryRace.StaysBelowIff | transom_snapshot_server/src/monitor/monitor.cpp:86-98 | over every interleaving of allocating threads and frees the counter is 0 or strictly below the capacity if and only if one thread at most allocates, or no request can pass |
| MemoryRace.NeverOverIff | transom_snapshot_server/src/monitor/monitor.cpp:75-98 | it never exceeds the capacity if and only if all threads but one can have one byte at most in flight; above the capacity the test passes nearly every request (`OverIsBlind`) |

## Left out

- Restoring a node at start-up: `BatchLoadRemote` asks each item's own rank for the data, and
  `handleNotifyBackup` can return without a response; only the survival of copies is proved.
- `remoteFileLoader` and copies at third nodes; `getMetadata` there answers `FromThirdNode`.
- Node crashes in the middle of a run, and several failures at once.
- Waking up and liveness of the channel: one condition variable serves readers and writers, and `close` does
  not take the lock; safety only. The lifetime of the channels on the caller's stack is not modelled.
- The mapping of a memory file that is resized, which the source leaves at its old length.
- MySQL text and connections, protobuf and http plumbing, NIC selection, logging, environment variables.
- InfiniBand verbs, queue-pair set-up, CUDA calls, mmap and memfd calls: taken as copies that succeed or fail.
  The pinned staging buffers of the device path are part of one copy.
- The exact size of the work queue and the order of its keys: a posted key is queued and taken at any time.
- Memcpy.TransomMemcpy: the source passes a tensor's size / 4 through a double, exact below 2^53, that is for tensors below 32 PiB; sums below 2^64.
- Rdma.Process.RdmaWrite: addresses do not wrap, and the buffer and its staging area do not overlap, as memcpy demands.
- Buffers.Buffer.GetString: a received string without terminator, and a length that wraps around 2^64, are read past the buffer by the source, which is undefined; the model stops there.
- Codec.ReadItems: the source counts elements with an `int`; batches of 2^31 elements and more are not considered.
- Base64.Base64Decode: the result for a text with '=' before a letter is not specified.
- RateLimiters.RateLimiter.ClaimNext: times and products are exact numbers, where the source uses doubles.
- HttpHandlers.CreateMetadata: after the lock is released, finding or allocating memory and writing the row are one step.
- HttpHandlers.ReadMetadata: a database that cannot be read, which the source answers like a missing row.
- HttpHandlers.EvictFile: an eviction that reads a row again keeps looking for the data as the owner, even if the row has changed hands meanwhile.
- LifecycleGuarantees.CorrectReads: a single node's PERSISTENT row may have no data left; `OwnerRefusesIff` says that this is exact.
- LifecycleLate.LateLosesIff: one step of a late handler; how often handlers outlive their copies is up to the network.
- LifecycleResave.SaveDurableIff: copies in memory, for two nodes or more; the copy on disk is `PersistentOnDisk`'s, for disciplined saves.
- LifecycleGuarantees.NeverReadsFreedMemory: for two nodes or more; `ReadsFreedIff` says when one node fails it.
- LifecycleGuarantees.FreedOnlyWhenOnDisk: for two nodes or more with persistence on; `FreesUnsavedIff` says that this is exact.
- LifecycleGuarantees.EvictionWaits: for two nodes or more; a single node does not wait for CACHED rows.
- Lifecycle.CreateEntry: a file with an empty name is saved like any other, where the source ends the process.
- MemoryRace.StaysBelowIff: `+=` and `-=` on the counter are taken as atomic, where the source leaves them unsynchronised.
- RateLimiters.RateLimiter.TryAquire: the product of timeout and 1000 does not overflow; a source `int` would from 2147484 on.
