# Gemini-NOS: queues, tables and allocators

Gemini-NOS is a small network-OS kernel in C. Nodes exchange messages over Unix sockets and shared
memory; inside a node every thread runs a scheduler with a message ring, timers and components. This
project models its hand-written concurrent and stateful cores and proves what they keep over every
run, interleaving or history.

| file | models | form |
|---|---|---|
| `ShmQueue.dfy` | the lock-free multi-producer queue in shared memory | step machine, one atomic access per step, and class `Queue` |
| `ShmPool.dfy` | the lock-free free list of shared blocks and their reference counts | step machine and class `Pool` |
| `ShmDelivery.dfy` | a shared-memory message from send to release, built on the two machines above | step machine and class `Delivery` |
| `SleepWake.dfy` | a thread's message ring and its sleep/wake protocol | step machine and class `Thread` |
| `FireLoop.dfy`, `TimerHeap.dfy` | the timers of a thread: laws of the fire loop for every clock and every script of callbacks; the array heap that performs it, start, stop and delete | functions on sets of timers; class `Heap` over an array of timers |
| `KvSpec.dfy`, `KvTable.dfy` | the key-value table: a reference map with laws over histories, and the chained hash table that refines it | functions; class `Table` over arrays |
| `IpcTx.dfy` | the transmit queue of an IPC connection with back-pressure and reconnect | functions on the queued messages; class `Conn` over a ring |
| `BufferPool.dfy` | the sized buffer pool and the headroom arithmetic | step machine; class `PoolBin`, method `AllocFrom` |
| `LogRing.dfy` | the ticketed log ring | step machine and class `Logger` |
| `NodeRouting.dfy` | service registry, thread component lists, loaded-component table | functions and class `Node` |
| `Ring.dfy`, `Wrapped.dfy`, `Runs.dfy` | ring index arithmetic, wrapped positions, runs of step machines | functions and lemmas |

A step machine is a total function `Next`; `Runs.Exec` folds it over a sequence of actions, and
`Runs.Along` says that every step of a run meets a hypothesis. A theorem "in every run" quantifies
over all action sequences, that is, over all interleavings of any number of threads. Each class
holds the C object's fields; every method performs one access or critical section and its contract
equates the new view of the object with the step of the machine.

Memory is sequentially consistent throughout. The C code uses weaker orders in places, and the
sender has no explicit fence between the unlock and its load of `is_sleeping`
(src/core/nos_scheduler.c:312-315); what follows holds under sequential consistency.

## What does not hold, and exactly when

- A producer overtaken by a lap of 4096 reservations between its tail load and its CAS can reserve on
  a full queue, which then looks empty (`ShmQueue.OvertakingLapHidesAFullQueue`). It is the only step
  that can break the queue (`ShmQueue.StepKeepsInvIff`, `ShmQueue.FullReservationIsOvertaken`).
- `NOS_ERR_BUSY` also comes from an empty queue, when the tail a producer loaded is stale
  (`ShmQueue.BusyOnEmptyQueue`); `ShmQueue.EnqueueEndsIff` says exactly when a call returns it.
- A popped head that is recycled between load and CAS puts a block that somebody owns on the free
  list (`ShmPool.RecycledHeadFreesAHeldBlock`). A stale pop is the only step that can break the pool
  (`ShmPool.StepKeepsInvIff`).
- A wake event that the sender cannot allocate or queue, or that the receiver drops because it has
  no buffer for it, strands a message although the sender was told success
  (`ShmDelivery.LostEventStrands`); nothing else can (`ShmDelivery.StepStrandsIff`).
- Stopping or deleting a timer in the middle of the heap can break heap order, because the moved
  node is only sifted down (`TimerHeap.RemovalCanBreakOrder`); `TimerHeap.Heap.RemoveAt` has the
  exact condition.
- Re-arming a timer after its callback stores it twice or past the array exactly when the timer is
  then periodic and the callback restarted it or left the heap full (`FireLoop.BreaksIff`; inputs:
  `FireLoop.RestartIsStoredTwice`, `FireLoop.FilledHeapOverflows`). A one-shot timer may restart
  itself (`FireLoop.OneShotMayRestart`).
- HELLO is not the first message of a new link when messages of the old link are still queued, or
  when there is no buffer for it, and only then (`IpcTx.HelloIsFirstIff`; runs:
  `IpcTx.LeftoverGoesFirst`, `IpcTx.MissingHelloIsSkipped`).
- A buffer request whose size plus headroom wraps around 2^32 is served with a broken layout
  (`BufferPool.WrappedRequestIsServed`, `BufferPool.HandedGeometryIff`).
- One dropped log entry is enough to leave ticket order (`LogRing.OneDropLeavesOrder`); without an
  overtaking lap, nothing but a drop is (`LogRing.TicketOrderIff`).
- Loaded components that share the id of a service provided here and sit on different threads can
  make a thread run another thread's component (`NodeRouting.TwinsCrossThreads`); routing is sound in
  every later run exactly if there are none (`NodeRouting.RoutingIsSoundIff`,
  `NodeRouting.CrossingIsTwoThreads`).
- The loop that sizes a KV table's buckets does not end for capacities above 2^31
  (`KvTable.BucketLoopEndsIff`).

## Model

| member | source | states |
|---|---|---|
| `ShmQueue.ExactlyOnceFifo` | src/infra/nos_shm.c:184-222 | in every run of any number of producers and the consumer without an overtaking lap: offsets taken are a prefix of offsets in successful-CAS order, at most 4095 positions are reserved, a non-zero slot belongs to a reserved position, and head == tail means everything was taken |
| `ShmQueue.StepKeepsInvIff` | src/infra/nos_shm.c:187-195 | a step keeps the queue's invariant if and only if it is not a CAS that wins on a full ring |
| `ShmQueue.FullReservationIsOvertaken` | src/infra/nos_shm.c:187-195 | such a CAS belongs to a producer that a whole lap of reservations overtook since its tail load |
| `ShmQueue.OvertakingLapHidesAFullQueue` | src/infra/nos_shm.c:187-209 | a reachable state in which an overtaken producer's CAS wins on the full ring; 4096 positions are then reserved and the consumer reports empty |
| `ShmQueue.BusyIff` | src/infra/nos_shm.c:188-192 | the test against the head fails if and only if the loaded tail is current and the ring is full, or it is stale and the consumer is one position plus whole laps past it |
| `ShmQueue.EnqueueEndsIff` | src/infra/nos_shm.c:184-202 | over every step of every thread, a call in progress returns BUSY, with nothing queued, if and only if it makes that test and it fails; it wins if and only if it makes a CAS that is not spurious and to which nothing or whole laps went by since its tail load, and then its own offset is queued; otherwise it goes on with its offset, and its own steps take it further |
| `ShmQueue.LostCasAppendsLater` | src/infra/nos_shm.c:187-200 | after a lost or spurious CAS with room left, the next tail load, head load, CAS and store of the same call append its own offset |
| `ShmQueue.BusyOnEmptyQueue` | src/infra/nos_shm.c:188-192 | a reachable state in which BUSY is returned although the queue is empty |
| `ShmQueue.SpinHasAnOwner` | src/infra/nos_shm.c:211-216 | whenever the consumer spins on an empty slot, one producer has won exactly that position and its single outstanding store ends the spin with the right offset |
| `ShmQueue.DequeueEndsIff` | src/infra/nos_shm.c:204-222 | over every step, a dequeue reports an empty queue if and only if its tail load finds everything reserved taken, and otherwise delivers the oldest offset; nothing else takes anything |
| `ShmQueue.EnqueueAlone` | src/infra/nos_shm.c:184-202 | an uninterrupted enqueue into a queue with room appends its offset and changes nothing else |
| `ShmQueue.DequeueAlone` | src/infra/nos_shm.c:204-222 | an uninterrupted dequeue of a published entry takes the oldest offset |
| `ShmQueue.Queue.ProducerStep` | src/infra/nos_shm.c:184-202 | each producer access on the queue object is the machine's step |
| `ShmQueue.Queue.ConsumerStep` | src/infra/nos_shm.c:204-222 | each consumer access on the queue object is the machine's step |
| `ShmPool.BlocksConserved` | src/infra/nos_shm.c:125-182 | in every run in which no popped head is recycled under the popping thread: the free list is acyclic and zero-terminated, and every block is exactly one of free, held with a count equal to its owners' references, or in the hands of one thread |
| `ShmPool.StepKeepsInvIff` | src/infra/nos_shm.c:133-138 | a step keeps the pool's invariant if and only if it is not a pop that installs a stale successor |
| `ShmPool.StalePopBreaks` | src/infra/nos_shm.c:133-138 | after a stale pop no list whatsoever starts at the head and holds exactly the free blocks |
| `ShmPool.StalePopIsRecycled` | src/infra/nos_shm.c:133-138 | a stale pop needs its head block to have been popped since the load |
| `ShmPool.RecycledHeadFreesAHeldBlock` | src/infra/nos_shm.c:125-173 | from every initial list of two or more blocks, a run after which the winning CAS leaves the free list headed by a block somebody owns, so that the pool's invariant is gone |
| `ShmPool.HandoutIsExclusive` | src/infra/nos_shm.c:138-141 | a block being handed out has no owner, is on no list and in nobody else's hands |
| `ShmPool.AllocEndsIff` | src/infra/nos_shm.c:125-141 | over every step of every thread, an allocation fails if and only if its head load finds the free list empty, and gets a block, the first of the list, exactly at its winning CAS; a lost CAS goes round again |
| `ShmPool.AllocAloneServesIff` | src/infra/nos_shm.c:125-154 | an uninterrupted allocation returns a block if and only if the size is at most 4096 and the list is not empty: the first block, with one reference |
| `ShmPool.LostPopAllocatesLater` | src/infra/nos_shm.c:125-141 | after a lost or spurious CAS the next round gets the first free block, if there is one |
| `ShmPool.ReleaseEndsIff` | src/infra/nos_shm.c:163-171 | over every step, a last release ends exactly at its winning CAS, with its own block at the front of the list; until then the block stays in its hands and its own steps take it further |
| `ShmPool.LostPushReturnsLater` | src/infra/nos_shm.c:165-169 | after a lost or spurious CAS the next round puts the block back |
| `ShmPool.RetainsAndDropsCount` | src/infra/nos_shm.c:156-182 | a retain adds one reference and a release takes it back; the release of the last one, and no other, starts the way back |
| `ShmPool.TilesFit` | src/infra/nos_shm.c:29-49 | the initialiser's blocks lie inside the segment, behind the header, without overlap, and one more would not fit |
| `ShmPool.LinkTiles` | src/infra/nos_shm.c:36-46 | the initialiser's loop links every block to its successor, the last to 0, with count zero |
| `ShmPool.Pool.constructor` | src/infra/nos_shm.c:29-49 | after initialisation all blocks are free and form the free list |
| `ShmPool.Pool.PopCas` | src/infra/nos_shm.c:138-138 | the pop's CAS on the pool object is the machine's step |
| `ShmPool.Pool.PushCas` | src/infra/nos_shm.c:169-169 | the push's CAS on the pool object is the machine's step |
| `ShmPool.Pool.Drop` | src/infra/nos_shm.c:163-163 | the decrement on the pool object is the machine's step; the last one starts the return |
| `ShmDelivery.CountIsAllReferences` | src/infra/nos_ipc_p2p.c:160-179 | in every run: a block's ref_count is the number of references held by clients, senders, queue entries, the drain, thread rings and handlers together, and it is on the free list or on its way there if and only if that total is zero |
| `ShmDelivery.FreedExactlyAtZero` | src/infra/nos_shm.c:156-173 | a block starts its way back in exactly those steps in which the last of all references is given up |
| `ShmDelivery.BusyRollsBack` | src/infra/nos_ipc_p2p.c:278-286 | a send that finds the queue full leaves pool, queue and everybody's references as they were |
| `ShmDelivery.SendEndsIff` | src/infra/nos_ipc_p2p.c:278-286 | over every step, a send is refused exactly when its queue step finds the ring full, and queued exactly at its winning CAS, with its own block |
| `ShmDelivery.SendAloneQueues` | src/infra/nos_ipc_p2p.c:266-301 | an uninterrupted send into a queue with room queues its block with one more reference and puts its event on the way |
| `ShmDelivery.EventFetchesOldest` | src/infra/nos_ipc_p2p.c:160-172 | from every reachable state with an event in flight and a published head, the drain's next six steps take the oldest message out for dispatch and touch nothing else |
| `ShmDelivery.DispatchDelivers` | src/core/nos_scheduler.c:303-340 | a dispatched message is at the end of the routed thread's ring with one more reference if fewer than 1023 are there, and otherwise, or without a route, rings and pool stay as they were; all other threads stay |
| `ShmDelivery.DrainGoesOn` | src/infra/nos_ipc_p2p.c:162-176 | after every dispatch the drain gives up the queue's reference and dequeues again |
| `ShmDelivery.DrainEndsIff` | src/infra/nos_ipc_p2p.c:163-163 | over every step, the drain ends if and only if its tail load finds every accepted message taken |
| `ShmDelivery.DispatchedInOrder` | src/infra/nos_ipc_p2p.c:160-179 | in every run, the messages dispatched so far and the one in turn are, in order, the offsets taken, a prefix of the accepted ones |
| `ShmDelivery.HandledInOrder` | src/core/nos_scheduler.c:303-361 | in every run and for every thread, the messages it has handled and released, the one in its hand and those in its ring are, in that order, those dispatched to it while its ring had room |
| `ShmDelivery.WorkerHandlesOldest` | src/core/nos_scheduler.c:342-361 | a free thread's next two steps handle the oldest message of its ring and give its reference back |
| `ShmDelivery.RetainIsUndone` | src/infra/nos_shm.c:156-182 | a client's retain adds one to all references on the block, and its release restores the pool |
| `ShmDelivery.StepKeepsInv` | src/infra/nos_ipc_p2p.c:266-301 | every step of sending, draining, dispatching and handling keeps the ledger of references and both machines' invariants |
| `ShmDelivery.NeverStranded` | src/infra/nos_ipc_p2p.c:160-179 | if every wake event is allocated and queued by the sender and kept by the receiver, then in every run a non-empty queue has an event in flight, a drain in progress or a producer about to send its event |
| `ShmDelivery.StepStrandsIff` | src/infra/nos_ipc_p2p.c:288-300 | a step strands a message if and only if it loses, at the sender or at the receiver, the last event of a non-empty queue with no drain under way |
| `ShmDelivery.LostEventStrands` | src/infra/nos_ipc_p2p.c:288-300 | a run in which one event is lost: the sender got NOS_OK, its message stays in the queue, nothing is under way |
| `ShmDelivery.Delivery.SendShm` | src/infra/nos_ipc_p2p.c:266-281 | retain before enqueue, on the pool and queue objects |
| `ShmDelivery.Delivery.LoseEvent` | src/infra/nos_ipc_p2p.c:129-134 | an event that finds no buffer at the receiver is gone; pool, queue and references stay |
| `ShmDelivery.Delivery.RollBack` | src/infra/nos_ipc_p2p.c:282-286 | the failed enqueue's release, on the objects |
| `ShmDelivery.Delivery.Dispatch` | src/core/nos_scheduler.c:303-340 | local dispatch retains for the ring entry, or drops the message on a full ring or a missing entry |
| `ShmDelivery.Delivery.DrainRelease` | src/infra/nos_ipc_p2p.c:174-176 | the drain releases the queue's reference after dispatch |
| `ShmDelivery.Delivery.WorkerRelease` | src/core/nos_scheduler.c:354-359 | the worker releases the ring's reference after its handler |
| `SleepWake.ExactlyOnceFifo` | src/core/nos_scheduler.c:303-361 | over every interleaving, accepted messages are those released, the one being handled and those in the ring, in order; occupancy is at most 1023; a send is refused exactly at 1023 |
| `SleepWake.NoLostWakeupEver` | src/core/nos_scheduler.c:303-447 | in every reachable state: blocked with a non-empty ring implies a positive eventfd or a sender about to make it so; the same for blocked after a stop request |
| `SleepWake.StepKeepsNoLostWakeup` | src/core/nos_scheduler.c:414-431 | every single step of senders, stoppers, timer starters and the thread keeps that property |
| `SleepWake.BlockedThreadGetsOldest` | src/core/nos_scheduler.c:314-361 | from every reachable blocked state with a non-empty ring, at most six steps start the handler on the oldest message |
| `SleepWake.OldestIsHandledNext` | src/core/nos_scheduler.c:385-448 | from every reachable state with a non-empty ring, wherever the thread is in its loop unless it has left it or is about to after a stop request: at most two steps of one sender and seven of the thread, none of them a timeout, take the oldest message out of the ring into its handler |
| `SleepWake.AloneDrains` | src/core/nos_scheduler.c:342-361 | processing messages goes on until the ring is empty, two steps a message, and then every accepted message is released; coming from the spin, the thread polls its descriptors next |
| `SleepWake.ExitIff` | src/core/nos_scheduler.c:385-385 | over every step, the loop is left exactly at its top with stop set, and stop is set exactly by a stop request, for good |
| `SleepWake.ExitsOnlyOnRequest` | src/core/nos_scheduler.c:363-385 | in every run without a stop request no thread leaves its loop |
| `SleepWake.StopEndsLoop` | src/core/nos_scheduler.c:363-448 | from every reachable state after a stop request, at most one pending eventfd write and then a bounded number of the thread's own steps, none of them a timeout, end the loop; a thread that was blocked or processing has then released every accepted message |
| `SleepWake.IdleThreadSleeps` | src/core/nos_scheduler.c:385-431 | with nothing to do and no stop request the thread spins for exactly the configured number of polls and then blocks |
| `SleepWake.WakeIsUsedUp` | src/core/nos_scheduler.c:393-447 | a wake with nothing to do leads back to sleep with the eventfd at zero |
| `SleepWake.TimerStartWakes` | src/core/nos_scheduler.c:459-470 | after a timer start on a blocked thread, in every run as long as it stays blocked, the eventfd is positive or somebody is about to write it |
| `SleepWake.Thread.Send` | src/core/nos_scheduler.c:303-312 | the locked part of a local send on the thread object |
| `SleepWake.Thread.StartTimer` | src/core/nos_scheduler.c:467-468 | a timer start is about to write the eventfd, on the thread object |
| `SleepWake.Thread.Take` | src/core/nos_scheduler.c:342-352 | taking the oldest message on the thread object |
| `SleepWake.Thread.LoopStep` | src/core/nos_scheduler.c:385-448 | each access of the run loop on the thread object |
| `SleepWake.Thread.Deinit` | src/core/nos_scheduler.c:174-180 | the deinit loop releases every queued message exactly once, in order |
| `TimerHeap.Heap.HeapifyUp` | src/core/nos_scheduler.c:65-74 | sift-up permutes the timers and restores heap order when only the given node may be below its parent |
| `TimerHeap.Heap.HeapifyDown` | src/core/nos_scheduler.c:76-89 | sift-down permutes the timers; the result is ordered if and only if the start index was not below its parent |
| `TimerHeap.Heap.RemoveAt` | src/core/nos_scheduler.c:478-479 | removal drops exactly one timer; from an ordered heap the result is ordered if and only if the index is the root or the last node, or the last node's deadline is at least the parent's |
| `TimerHeap.Heap.Stop` | src/core/nos_scheduler.c:472-483 | succeeds exactly on a running timer of this heap, removes it and nothing else, with the same order condition |
| `TimerHeap.Heap.Delete` | src/core/nos_scheduler.c:485-498 | a running timer leaves the heap, no other does, with the same order condition |
| `TimerHeap.Heap.Start` | src/core/nos_scheduler.c:459-470 | fails exactly on a running timer or a full heap and then changes nothing; otherwise sets the deadline, adds the timer and keeps the order |
| `TimerHeap.Heap.ProcessTimers` | src/core/nos_scheduler.c:91-109 | for every clock, every script of callback starts and every heap: the log of firings (timer, deadline, reading) takes an earliest due timer each time and fixes heap and timer fields at the end; the call ends when nothing is due, or at exactly the rounds that store a timer twice or past the array, never so if callbacks start nothing; a timer that did not fire stays, one that was not started is gone exactly if it was one-shot and fired; under a monotone clock nothing fires before its deadline or out of order; with a frozen clock and positive periods a finished call fired exactly the due timers |
| `FireLoop.FiringsAreOrdered` | src/core/nos_scheduler.c:91-109 | for every legal log under a monotone clock: each timer fires at a reading not before its deadline, deadlines and readings never decrease, and what remains is no earlier than anything fired |
| `FireLoop.Remaining` | src/core/nos_scheduler.c:91-109 | a timer that did not fire stays unchanged; one that no callback started is in the heap afterwards if and only if it was there and is not a fired one-shot timer |
| `FireLoop.FrozenFiresTheDue` | src/core/nos_scheduler.c:91-109 | with a frozen clock and positive periods only timers due at the start fire, each at most once, and firings plus timers still due are conserved, so the loop ends |
| `FireLoop.DrainedFiredTheDue` | src/core/nos_scheduler.c:91-109 | a call that ends with nothing due has then fired exactly the timers that were due |
| `FireLoop.PeriodIsKept` | src/core/nos_scheduler.c:91-109 | for every legal log under a monotone clock: a periodic timer no callback restarted keeps its interval; its next deadline is at least one interval after the reading it last fired at and at most one after the last reading, and any two of its firings are at least one interval apart |
| `FireLoop.StartTakesEffect` | src/core/nos_scheduler.c:459-465 | a stopped timer that a callback starts while the heap has room is in the heap after the callback, due its interval after a reading of the callback |
| `FireLoop.RunningIsInHeap` | src/core/nos_scheduler.c:94-102 | over every call a timer is marked running exactly while it is in the heap |
| `FireLoop.BreaksIff` | src/core/nos_scheduler.c:97-105 | after the callback the re-arm is unsafe for the array if and only if the firing timer is periodic and was restarted or the heap is full |
| `FireLoop.QuietNeverBreaks` | src/core/nos_scheduler.c:97-105 | if callbacks start nothing, no round is unsafe |
| `FireLoop.RestartIsStoredTwice` | src/core/nos_scheduler.c:97-105 | a periodic timer that its callback restarts is in the heap when the re-arm stores it again |
| `FireLoop.FilledHeapOverflows` | src/core/nos_scheduler.c:97-105 | on a heap of 128 a callback start takes the firing timer's place, and the re-arm has none left |
| `FireLoop.OneShotMayRestart` | src/core/nos_scheduler.c:97-105 | a one-shot timer restarted by its callback is in the heap once, with its new deadline |
| `TimerHeap.RemovalCanBreakOrder` | src/core/nos_scheduler.c:478-479 | an ordered heap of seven timers and an index that fail the condition |
| `TimerHeap.RemovedIsOrderedBelow` | src/core/nos_scheduler.c:478-479 | after the last node moved to the removed index only that index can be out of order, and it is against its parent if and only if the condition fails |
| `TimerHeap.RootIsMinimum` | src/core/nos_scheduler.c:93-94 | the root of an ordered heap has the earliest deadline |
| `TimerHeap.Heap.RemoveAtRepaired` | src/core/nos_scheduler.c:478-479 | a repair, not in the source: with an additional sift-up the order always survives |
| `KvTable.Serve` | src/infra/db/nos_kv.c:41-328 | for every hash function and every sequence of operations, a table answers like the reference map |
| `KvTable.Perform` | src/infra/db/nos_kv.c:100-328 | one operation on the table is one operation on the map it stands for |
| `KvTable.Table.Put` | src/infra/db/nos_kv.c:100-157 | put refines the map's put, null values included: Err, Busy exactly on a full table with an absent key, or stored with the key's subscribers notified |
| `KvTable.Table.Get` | src/infra/db/nos_kv.c:159-182 | get answers the map's value cut to the buffer, and its full length |
| `KvTable.Table.Del` | src/infra/db/nos_kv.c:290-328 | del removes exactly the key, and fails if it is absent |
| `KvTable.Table.Subscribe` | src/infra/db/nos_kv.c:219-254 | subscribe adds a pair at the front unless it is there |
| `KvTable.Table.Unsubscribe` | src/infra/db/nos_kv.c:256-288 | unsubscribe removes the pair, or fails |
| `KvTable.Table.Find` | src/infra/db/nos_kv.c:298-324 | the chain walk finds the one entry of the key and its predecessor, or that there is none |
| `KvTable.IndicesPartitioned` | src/infra/db/nos_kv.c:80-85 | every pool index is on the free stack or in exactly one chain, in its key's bucket, and no two chained indices store the same key |
| `KvTable.InsertKeepsShape` | src/infra/db/nos_kv.c:143-153 | inserting at a bucket's front keeps chains, free stack and key placement, and adds exactly one record |
| `KvTable.RemoveKeepsShape` | src/infra/db/nos_kv.c:302-317 | unlinking from anywhere in a chain keeps them, and removes exactly one record |
| `KvTable.BucketCount` | src/infra/db/nos_kv.c:71-72 | for every capacity for which the loop ends, it ends with the least 1024 * 2^k that is at least the capacity, without leaving 32 bits |
| `KvTable.BucketLoopEndsIff` | src/infra/db/nos_kv.c:71-72 | among all 32-bit capacities the doubling loop ends if and only if the capacity is at most 2^31 |
| `KvSpec.GetReturnsLastPut` | src/infra/db/nos_kv.c:159-182 | after any history, get returns the last successful put since the last successful delete, and fails exactly when there is none |
| `KvSpec.PutPuts` | src/infra/db/nos_kv.c:100-157 | after any history, put answers Err exactly for a value that is too long, Busy exactly for an absent key in a full table, and then changes nothing; otherwise Ok, the key has the value and its subscribers, and all else stays |
| `KvSpec.DelDeletes` | src/infra/db/nos_kv.c:290-328 | after any history, del answers Ok if and only if the key has a value, and Err otherwise; after it get fails, the key has no subscribers, one record fewer is in use, and all other keys stay |
| `KvSpec.SubscribeSubscribes` | src/infra/db/nos_kv.c:219-254 | after any history, subscribe answers Ok if and only if the key has a value, and then exactly that pair is added; all else stays |
| `KvSpec.UnsubscribeUnsubscribes` | src/infra/db/nos_kv.c:256-288 | after any history, unsubscribe answers Ok if and only if the pair is subscribed, and then exactly that pair is gone; all else stays |
| `KvSpec.DbIsLastWritten` | src/infra/db/nos_kv.c:108-156 | the map after any history holds, per key, what the operations and their statuses say was written last |
| `KvSpec.SubsAreSubscribed` | src/infra/db/nos_kv.c:219-317 | a pair is in a key's list after any history exactly if its last successful subscribe is not followed by a successful unsubscribe or delete |
| `KvSpec.PutNotifiesSubscribersOnce` | src/infra/db/nos_kv.c:111-156 | after any history, a put notifies each pair still subscribed to the key exactly once, a put that creates the key notifies nobody, and Busy comes exactly for an absent key in a full table |
| `KvSpec.PutNotifiesNewestFirst` | src/infra/db/nos_kv.c:111-245 | after any history, the callbacks of a put are the pairs still subscribed, in the reverse order of the subscribes that added them |
| `KvSpec.NewestIsNotifiedFirst` | src/infra/db/nos_kv.c:241-245 | in one step: a new subscriber is notified before the others, and unsubscribing it restores the record |
| `KvSpec.HistoryKeepsSane` | src/infra/db/nos_kv.c:231-245 | over any history: at most `capacity` records, values within the limit, no duplicate subscriber |
| `IpcTx.AcceptedIsSentPlusQueued` | src/infra/nos_ipc_p2p.c:53-93 | over any run with any kernel answers, closes and reconnects: messages sent followed by the queue are the accepted ones, HELLOs included; at most 1023 are queued; congested implies non-empty |
| `IpcTx.DrainSendsPrefix` | src/infra/nos_ipc_p2p.c:55-93 | a drain sends a prefix of the queue and stops at the first answer that is not success, keeping that head; the link stays open exactly if it was not a failure, and congested exactly if it was, is open and has something queued |
| `IpcTx.HelloIsFirstIff` | src/infra/nos_ipc_p2p.c:313-328 | for every hello buffer or none, every kernel and every run up to the next link: if anything went out on the link, its HELLO went first if and only if nothing was queued when the link was set up and a buffer was available |
| `IpcTx.LinkSendsInOrder` | src/infra/nos_ipc_p2p.c:53-93 | within a link, what has gone out on it followed by the queue is what it started with followed by what was admitted since, in order |
| `IpcTx.LeftoverGoesFirst` | src/infra/nos_ipc_p2p.c:313-328 | a run from the start in which a link fails after its HELLO and the message left behind precedes the next HELLO |
| `IpcTx.MissingHelloIsSkipped` | src/infra/nos_ipc_p2p.c:245-264 | a run from the start in which no HELLO buffer is available and data goes out first |
| `IpcTx.DataIsRefusedIff` | src/infra/nos_ipc_p2p.c:336-360 | after any run, for any reconnect: data gets Err exactly without a connection, Busy exactly on one with more than 900 queued messages, which it then marks congested, and is queued otherwise; the ring-full branch behind that test is never taken |
| `IpcTx.ReconnectIff` | src/infra/nos_ipc_p2p.c:313-334 | after any run: a new link is set up exactly on a closed connection with a usable path where socket and connect succeed; it starts uncongested, with the leftovers and then its HELLO queued |
| `IpcTx.ClosedStays` | src/infra/nos_ipc_p2p.c:53-82 | a closed connection sends, accepts and loses nothing in any run until a new link is set up |
| `IpcTx.PeerDecides` | src/infra/nos_ipc_p2p.c:98-156 | when the peer closes, that holds from then on; a promoted passive connection admits data exactly up to 900 queued messages |
| `IpcTx.Conn.ProcessTx` | src/infra/nos_ipc_p2p.c:53-93 | the send loop on the ring performs the drain, and references outside the queue are untouched |
| `IpcTx.Conn.Send` | src/infra/nos_ipc_p2p.c:306-371 | the enqueue call on the ring performs reconnect, admission and drain, with one reference per occupied slot |
| `IpcTx.Conn.SendHello` | src/infra/nos_ipc_p2p.c:245-264 | HELLO is appended if a buffer and a slot are available, and its own reference is given back |
| `IpcTx.Conn.Relieve` | src/infra/nos_ipc_p2p.c:84-91 | a complete drain ends below the low watermark and lifts congestion |
| `Ring.UsedIsLength` | src/infra/nos_ipc_p2p.c:343-343 | the occupancy expression is the number of queued elements for every head and tail, and 1023 exactly when full |
| `Ring.PushAppends` | src/core/nos_scheduler.c:307-311 | storing at tail and advancing it appends to the contents |
| `Ring.PopTakesFirst` | src/core/nos_scheduler.c:346-349 | reading at head and advancing it removes the first element |
| `BufferPool.ChunksConserved` | src/core/nos_buffer.c:90-155 | over every interleaving without wrapped requests: free stacks hold distinct chunks, used + free is the chunk count, peak is the historical maximum, and every chunk is free with count 0, on its way back, or held with a count equal to its holders and a sound layout |
| `BufferPool.AllocPicksUnheldChunk` | src/core/nos_buffer.c:97-101 | the chunk an allocation picks had no holder |
| `BufferPool.AllocIsBestFit` | src/core/nos_buffer.c:95-110 | over ascending bins, allocation takes the smallest chunk size that fits and has a free chunk, and fails only when none does |
| `BufferPool.AllocServedIff` | src/core/nos_buffer.c:90-118 | an unwrapped request is served exactly if some bin has a free chunk of at least size + headroom bytes; otherwise nothing changes |
| `BufferPool.AllocLayout` | src/core/nos_buffer.c:99-105 | a served request gets a chunk with len = size, data behind exactly the headroom asked for, the rest as tailroom, and count 1; right away a push succeeds exactly up to that headroom and a pull exactly up to that size; every other chunk stays |
| `BufferPool.HandedGeometryIff` | src/core/nos_buffer.c:92-105 | an admitted request is laid out soundly if and only if size + headroom does not wrap |
| `BufferPool.WrappedRequestIsServed` | src/core/nos_buffer.c:92-105 | a wrapped request that passes the size test and gets a broken layout |
| `BufferPool.PushPullUndo` | src/core/nos_buffer.c:157-171 | push and pull succeed exactly when there is room, keep the layout, and undo each other |
| `BufferPool.PushPullMoveFront` | src/core/nos_buffer.c:157-171 | push and pull move the front of the data by exactly n bytes; its end, the tailroom and the count stay |
| `BufferPool.HolderMovesFront` | src/core/nos_buffer.c:157-171 | on a chunk of the pool they do that exactly if the headroom, or the data, has n bytes, and touch no other chunk |
| `BufferPool.StepCounts` | src/core/nos_buffer.c:120-155 | over every step, allocation and retain give one reference, release takes one, nothing else does; the release of the last one sends the chunk on its way back, where it stays until its return puts it on the free stack |
| `BufferPool.CountIsGivenLessTaken` | src/core/nos_buffer.c:90-155 | in every run, a chunk's count is what allocations and retains gave it less what releases took |
| `BufferPool.AllocFrom` | src/core/nos_buffer.c:90-118 | the allocation loop over the bin objects takes the first fitting bin's top chunk, or changes nothing |
| `BufferPool.PoolBin.constructor` | src/core/nos_buffer.c:37-67 | a new bin has every chunk free and its size rounded up to a cache line |
| `BufferPool.PoolBin.Release` | src/core/nos_buffer.c:132-155 | the last release puts the chunk on the free stack, any other only decrements |
| `LogRing.SlotsAreSafe` | src/infra/log/nos_log.c:65-126 | in every run: a slot has at most one writer and is marked Writing meanwhile, and what the consumer is about to print is one call's complete entry |
| `LogRing.PrintsAreTickets` | src/infra/log/nos_log.c:67-80 | every printed entry is one ticket's message, no ticket is printed twice, and the k-th print comes from slot k mod 1024 |
| `LogRing.TicketsConserved` | src/infra/log/nos_log.c:100-126 | in every run: tickets issued = not yet claimed + being written + complete + printed + dropped_count |
| `LogRing.LogEndsIff` | src/infra/log/nos_log.c:97-126 | over every step of every thread, an entry is dropped, and counted, exactly if another ticket is still using its slot at its claim, and complete exactly at its last store |
| `LogRing.LogAlone` | src/infra/log/nos_log.c:88-126 | an uninterrupted log call completes its entry with the caller's message, or drops it if another ticket uses the slot |
| `LogRing.ConsumerPrintsNext` | src/infra/log/nos_log.c:65-80 | the consumer prints exactly if a complete entry is in the slot it has come to, then that entry's message, and frees the slot |
| `LogRing.TicketOrderIff` | src/infra/log/nos_log.c:67-126 | in every run without an overtaking lap, print order is ticket order if and only if no ticket among the first printed ones was dropped |
| `LogRing.OneDropLeavesOrder` | src/infra/log/nos_log.c:67-126 | a run without an overtaking lap in which ticket 1024 is dropped and ticket 2048 printed in its place |
| `LogRing.StepKeepsInv` | src/infra/log/nos_log.c:65-126 | every step of producers and consumer keeps the correspondence of slots and tickets |
| `LogRing.Logger.ClaimSlot` | src/infra/log/nos_log.c:107-112 | the claiming CAS, or the counted drop, on the log object |
| `LogRing.Logger.FillSlot` | src/infra/log/nos_log.c:114-126 | the stores and the Ready mark on the log object |
| `LogRing.Logger.ConsumerStep` | src/infra/log/nos_log.c:67-80 | the consumer's accesses on the log object |
| `NodeRouting.RoutingIsSound` | src/core/nos_node_mgr.c:75-196 | if every load of an id goes to one thread, then after any loads, set-ups, unloads, reloads and messages in any order: one entry per service, every local entry names a loaded component registered on the entry's thread, and every thread's next message reaches a component of that thread |
| `NodeRouting.RoutingIsSoundIff` | src/core/nos_node_mgr.c:75-196 | after any loads, ids unique or not: every later run that begins with set-up is sound if and only if every loaded component of an id that provides a service here is on the first thread that lists the id |
| `NodeRouting.CrossingBreaks` | src/core/nos_node_mgr.c:75-196 | from every loaded state that violates this, a run in program order (set-up, send, unloads, reload) after which a thread is about to run another thread's component |
| `NodeRouting.CrossingIsTwoThreads` | src/core/nos_node_mgr.c:106-117 | unless the table overflowed, it is violated exactly if two loaded components that share the id of a service provided here are on different threads |
| `NodeRouting.SetupEntryIff` | src/core/nos_node_mgr.c:106-117 | one set-up line writes a consistent entry if and only if the first loaded component of the id is on the first thread that lists the id |
| `NodeRouting.UniqueIdsDoNotCross` | src/core/nos_node_mgr.c:106-117 | unique ids never violate it |
| `NodeRouting.HandlerRunsOnItsThread` | src/core/nos_scheduler.c:354-358 | whatever happened since a message was queued, the handler it reaches belongs to a component loaded now, registered on the dispatching thread, that owns the service |
| `NodeRouting.RingsChangeBy` | src/core/nos_scheduler.c:303-361 | over every step: a send puts the service at the end of the ring of the thread its local entry names, if fewer than 1023 are there; handling takes the oldest of the thread's own ring and runs the handler its entry leads to at that moment; nothing else touches a ring or runs a handler |
| `NodeRouting.HandledInOrder` | src/core/nos_scheduler.c:303-361 | in every run and for every thread, the services handled followed by those in its ring are those it held and those sent to it, in order |
| `NodeRouting.RoutedIffLoaded` | src/core/nos_node_mgr.c:100-196 | from set-up on, over any unloads and reloads of components with one id each: a service of this node has an entry if and only if its component is loaded |
| `NodeRouting.SetupRoutes` | src/core/nos_node_mgr.c:100-126 | set-up establishes that, for every manifest that fits the registry |
| `NodeRouting.SetupTable` | src/core/nos_node_mgr.c:100-126 | after set-up, a service of this node has an entry exactly if its component is loaded, with the first loaded component of the id and the first thread that lists it; a service of another node has a remote entry exactly if a path is given |
| `NodeRouting.BootLoads` | src/core/nos_node_mgr.c:52-93 | a loaded component is on the thread asked for, and in the table while it has fewer than 64 entries; nothing else changes |
| `NodeRouting.UnloadRemoves` | src/core/nos_node_mgr.c:128-153 | an unload takes exactly the first component of the name out of the table, its thread and, with all services of its id, the registry |
| `NodeRouting.ReloadReplaces` | src/core/nos_node_mgr.c:155-196 | a reload does the same and, if the library loads, puts the new component last in the table and on the same thread, and every service of its id on this node leads to it there |
| `NodeRouting.TwinsCrossThreads` | src/core/nos_node_mgr.c:106-196 | two components of id 5 on threads 0 and 1: after set-up, a message to their service and a reload of the second, thread 0 is about to run thread 1's component |
| `NodeRouting.UnbindRemoves` | src/core/nos_scheduler.c:266-274 | swap-removal takes exactly the service's entry out of the registry |
| `NodeRouting.RemoveCompIs` | src/core/nos_scheduler.c:254-264 | swap-removal takes exactly the component out of its thread's list |
| `NodeRouting.Node.SetupRouting` | src/core/nos_node_mgr.c:100-126 | the set-up loops perform the specified set-up |
| `NodeRouting.Node.UnloadComponent` | src/core/nos_node_mgr.c:128-153 | the unload loops perform the specified unload; succeeds exactly if the name is loaded |
| `NodeRouting.Node.ReloadComponent` | src/core/nos_node_mgr.c:155-196 | reload is unload followed by installing the new object on the same thread; succeeds exactly if the name is loaded and the library loads |
| `NodeRouting.Node.HandleMsg` | src/core/nos_scheduler.c:342-361 | one round of message processing runs at most one handler; in a sound state, of a component loaded on this thread |

## Left out

- Weak memory orders: every model is sequentially consistent, so reorderings that the relaxed and acquire/release accesses permit are not covered.
- ShmQueue and ShmPool: 32-bit wrap of a block's reference count, and the `total_allocated` counter, are not modelled.
- ShmQueue: the two hypotheses "no producer is overtaken by a lap" and, for the pool, "no popped head is recycled" are assumptions on runs; both are shown to be necessary.
- ShmPool and BufferPool: that only owners retain or release is an assumption, the guards on `handles` and `returning`; with it, a count equal to the owners' references is kept by construction. What gives and takes references is stated by ShmPool.RetainsAndDropsCount and BufferPool.CountIsGivenLessTaken; who owns what is the ledger of ShmDelivery, whose own assumption is the guard on `clients`.
- ShmDelivery: a message that the receiving node forwards to a third node, several receive queues, registration of nodes and the reset of a queue at registration are not modelled; a buffer is named by its block.
- ShmDelivery: whether a wake event survives the socket is an input; the transmit queue that carries it is IpcTx.
- Shared-memory size limits other than the request check, `mmap`, `shm_open` and the wait for the daemon.
- SleepWake: epoll is reduced to "may report the notify descriptor when its counter is positive"; other descriptors, the limit of ten events per call, timeouts as numbers and the component start calls before the loop are left out.
- TimerHeap.Heap.ProcessTimers: callbacks may start timers but not stop or delete them; the call is followed up to the store that would put a timer in twice or past the array, and not beyond; a parameter bounds the number of rounds, and the call says when it was reached.
- TimerHeap.Heap.Start: the choice of the thread by component and `owner_thread` are not modelled.
- TimerHeap: wrap-around of the 64-bit millisecond clock.
- KvTable.Serve: operations are atomic; puts and deletes in different buckets share the free stack and the counter under different locks in the C code, and notification runs after the unlock.
- KvTable.Table.Put: null table and key pointers, byte addressing of entries (which needs capacity * entry size below 2^32), and tables of capacity 2^31 are left out.
- KvTable.BucketCount: capacities above 2^31, for which the loop does not end (KvTable.BucketLoopEndsIff).
- The registry of KV tables by name, `nos_kv_get_ptr`/`nos_kv_release_ptr`, and the arithmetic of `murmurhash3_32` (the hash is arbitrary instead).
- IpcTx: sockets are an oracle with the outcomes sent, would-block and failure; statistics, the connection table and the parsing of received packets are left out. Congestion never gates admission in the C code, so no hysteresis is claimed.
- BufferPool: bin sizes within 64 of 2^32, the product of chunk size and count, and `nos_buffer_init_pool`'s second call.
- LogRing: level filtering, formatting and the consumer's shutdown; the text and the other fields of an entry are one store each.
- NodeRouting: `dlopen`, component init, start and stop callbacks, the handling of library names, and loads that race with dispatch; a reloaded component is not claimed to be started.
- NodeRouting.RoutingIsSoundIff: manifests of at most 64 services, the size of the registry; beyond it a service may stay without an entry.
- `fd_entries` and their swap-removal, the CLI, memory statistics, manifests and their generator, example components.
