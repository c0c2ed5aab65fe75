# NUMA-aware queue locks

Models of the lock protocols in `ulocks/` and of the reader-writer semaphore word in `klocks/`, with proofs of what they
keep in every run.

Each protocol is a transition system: any number of threads, any interleaving, one access to shared memory per step, and
sequentially consistent memory. A state maps every thread to a program counter (whose constructors name the next access and
carry the thread's locals) and holds the shared words. Words that only one thread can touch at that point are stored together
with the next shared access. Sockets, the coin of `keep_lock_local` and the random numbers are arbitrary choices. An abstract
view (the queue that the pointers stand for) is carried along, and a `StepInv` lemma shows that every step of every thread
keeps the invariant that ties view, words and locals together. `RunSafe` and its companions draw the conclusions for all runs.

What a call must do, and not only what it must not, is stated in two ways: over all runs (a lock call ends only with the lock;
a writer with a successor passes the lock on), and for a thread that steps alone from any state of any run (`...Alone`,
`CallGets`): its own steps lead to the end of the call, and the lists are then as the policy of the lock says.

The routines that rewrite lists (`shuffle_waiters`, `find_successor`, the passive set) are also modelled as methods over heap
nodes, which update `next` fields in place and are proved against a function of the list.

| files | models | source |
|---|---|---|
| `Memory`, `Sequences`, `Counting`, `Partition` | memory cells, queues as sequences, how many threads a set or a queue can hold, stable partitions of a queue by socket | |
| `AqsProtocol`, `AqsInvariant`, `AqsFrames`, `AqsAway`, `AqsQueue`, `AqsShuffle`, `AqsSplice`, `AqsHandover`, `AqsSteps`, `AqsSafety` | the ShflLock spinlock: fast path, queue, shuffling in the live queue, try-lock, unlock | `ulocks/src/aqs.c`, `ulocks/src/aqswonode.c` |
| `AqsStealing` | when the stealing bit tells that the queue is not empty | `ulocks/src/aqs.c` |
| `AqsWord` | the packed lock word | `ulocks/include/aqs.h` |
| `AqsShuffler` | one call of `shuffle_waiters` on a linked queue | `ulocks/src/aqs.c` |
| `AqsSolo`, `AqsCalls` | the same call in the live queue; how the calls of the lock start, go and end | `ulocks/src/aqs.c` |
| `CnaProtocol`, `CnaInvariant`, `CnaQueue`, `CnaWaiting`, `CnaHolder`, `CnaMoving`, `CnaHandover`, `CnaSafety` | the compact NUMA-aware lock | `ulocks/src/cna.c` |
| `CnaSuccessor` | `find_successor` and the unlock on linked lists | `ulocks/src/cna.c` |
| `CnaLists`, `CnaCalls` | which waiter an unlock picks; how lock, try-lock and unlock end | `ulocks/src/cna.c` |
| `McsQueue` | one MCS queue, used at both levels of the two locks below and in C-BO-MCS | |
| `HmcsProtocol`, `HmcsInvariant`, `HmcsLocal`, `HmcsGlobal`, `HmcsReaders`, `HmcsSteps`, `HmcsClimb`, `HmcsTurns`, `HmcsSafety` | the two-level reader-writer lock | `ulocks/src/hmcsrw.c` |
| `HmcsUnlock`, `HmcsCalls` | to whom a writer hands over; how the calls of readers and writers end | `ulocks/src/hmcsrw.c` |
| `HybridProtocol`, `HybridInvariant`, `HybridSteps`, `HybridMoves`, `HybridQueues`, `HybridLocals`, `HybridSafety` | the hybrid lock with adaptive depth | `ulocks/src/hyshmcs.c` |
| `HybridDepth`, `HybridUnlock`, `HybridCalls` | the depth that a call leaves behind; to whom an unlock hands over; how calls end | `ulocks/src/hyshmcs.c` |
| `MalthusianProtocol`, `MalthusianInvariant`, `MalthusianQueue`, `MalthusianHolder`, `MalthusianSafety` | the Malthusian lock | `ulocks/src/malthusian.c` |
| `MalthusianUnlock` | the passive set and the unlock on linked lists | `ulocks/src/malthusian.c` |
| `MalthusianLists`, `MalthusianCalls` | which waiter an unlock picks; how lock, try-lock and unlock end | `ulocks/src/malthusian.c` |
| `TicketLock` | one ticket lock, used at both levels of C-TKT-TKT and by the hierarchical ticket lock | |
| `HtlockTickets`, `HtlockSteps`, `HtlockHandover`, `HtlockSafety`, `HtlockLimit`, `HtlockWrap` | the hierarchical ticket lock | `ulocks/src/htlockepfl.c` |
| `HtlockCalls` | to whom an unlock hands over; how lock calls end | `ulocks/src/htlockepfl.c` |
| `CohortLock` | the cohort locks over any local and global lock, in both release orders | `ulocks/src/cbomcs.c`, `ulocks/src/ctkttkt.c` |
| `CohortMcs` | C-BO-MCS with its MCS queues, a refinement of `CohortLock` | `ulocks/src/cbomcs.c` |
| `CohortTickets` | C-TKT-TKT with its ticket words and packed try-lock, a refinement of `CohortLock` | `ulocks/src/ctkttkt.c` |
| `CohortCalls`, `CohortMcsCalls`, `CohortTicketsCalls` | when an unlock keeps the global lock in its node; how calls end | `ulocks/src/cbomcs.c`, `ulocks/src/ctkttkt.c` |
| `AqmParking` | parking and waking of all waiters in the blocking lock | `ulocks/src/aqm.c` |
| `AqmCalls` | how lock calls and hand-overs end | `ulocks/src/aqm.c` |
| `RwsemWord` | the semaphore word with its byte-wide release | `klocks/shfllocks.patch` |
| `RwsemCalls` | how its calls end | `klocks/shfllocks.patch` |

Three results are not what one might expect. The hierarchical ticket lock keeps mutual exclusion for up to 129 users of one
node and no more: with 130 all local tickets can be out while the tenure's leader still waits, so that the next taker starts a
second tenure, and a ticket goes out twice (`HtlockLimit.ExactLimit`, with the run that ends in two holders). If its 32-bit
request word counts down past its minimum, exclusion still holds, but the takers get numbers that are never granted and wait
for ever: `HtlockWrap.WrapReached` is a run of two threads that gets there, `HtlockWrap.StrandedForever` says that it is for
ever, and `HtlockWrap.ExactWrap` says exactly when it happens. And the stealing bit of the spinlock is not always set while somebody is queued,
because the tail and the bit change in separate steps: `AqsStealing.StealingOpen` is a run that leaves it clear, and
`AqsStealing.BitTells` says exactly when it is right.

## Model

| member | source | states |
|---|---|---|
| AqsSteps.StepInv | ulocks/src/aqs.c:204-457 | Joins, departures of the head, stealing and every store of a shuffle, in any interleaving, keep one queue of the enqueued threads, one leader, the wait counts ahead of it and the resume pointers |
| AqsSafety.RunSafe | ulocks/src/aqs.c:337-515 | In every run there is a queue in each state that the chain of `next` fields represents, and it changes only by an append, by the head leaving, or by the leader moving a waiter of its own socket forward, ahead of the tail and past waiters of other sockets; all the state properties below hold |
| AqsSafety.InvRepresents | ulocks/src/aqs.c:243-305 | The `next` fields list exactly the enqueued threads, once each, up to the tail; a missing link is one that a joiner has still to write, and the two links of a splice that is under way lead further back, to where the splice says |
| AqsSafety.QueueEvolves | ulocks/src/aqs.c:366-457 | One step keeps the queue, appends its thread, removes its thread from the head, or is one move of the leader |
| AqsSafety.InvSingleLeader | ulocks/src/aqs.c:225-241 | No two enqueued threads are appointed to shuffle or shuffling, although the head appoints itself when its count is 0 |
| AqsSafety.InvCounted | ulocks/src/aqs.c:411-415 | Every waiter ahead of the leader has a wait count other than 0, so only the leader can find its own at 0 |
| AqsSafety.InvOneTurn | ulocks/src/aqs.c:384-391 | While anybody is queued exactly one enqueued thread is past the wait for `lstatus` or has been granted it |
| AqsSafety.InvLivePointers | ulocks/src/aqswonode.c:184-303 | No pointer in a thread's locals or in a queued node, the late store of the resume pointer included, names a node whose owner has left, so nodes on the caller's stack are safe; the successor is never NULL when it is read |
| AqsSafety.InvGrouped | ulocks/src/aqs.c:243-317 | Whenever a leader hands over after a scan, its socket stands in one block behind it and the rest of what it scanned is of other sockets, also when it resumed behind waiters of earlier scans |
| AqsSafety.InvResumable | ulocks/src/aqs.c:186-215 | Everybody between an appointed leader and the waiter at which it will resume is of another socket, whether the resume pointer is written already or its store is still to come |
| AqsSafety.ExclusiveStep | ulocks/src/aqs.c:353-514 | The lock byte is set exactly while one thread holds the lock, across the fast path, the queue and the try-lock |
| AqsSafety.SocketOrder | ulocks/src/aqs.c:243-305 | Of two queued threads of one socket the one ahead stays ahead for as long as it is queued |
| AqsSafety.SocketFifo | ulocks/src/aqs.c:243-457 | Waiters of one socket get their turn in the order of the queue |
| AqsSolo.ShuffleAlone | ulocks/src/aqs.c:204-318 | With everybody linked and nobody else stepping, the leader in the live queue leaves those ahead of it alone and stably partitions the waiters behind it by its socket, all of them ahead of the tail unless somebody was grouped and its exit condition held; the last one of the group is appointed, with the last one scanned to resume at |
| AqsSolo.Enter | ulocks/src/aqs.c:213-241 | The scan starts at the waiter that the leader was told to resume at, behind which only other sockets were seen |
| AqsSolo.PassesOn | ulocks/src/aqs.c:236-318 | With the coin against it the leader appoints its successor and leaves the queue as it is |
| AqsCalls.LockReturns | ulocks/src/aqs.c:337-515 | In every run a thread that is in a call is idle again only after it has held the lock |
| AqsCalls.CallStarts | ulocks/src/aqs.c:353-496 | A try-lock gets the lock exactly when the lock byte is clear, a lock call its fast path exactly when the stealing bit is clear as well |
| AqsCalls.JoinsAlone | ulocks/src/aqs.c:357-391 | Alone, a joiner ends as the last of the queue, linked, with the tail at it and its socket set; as the first it has disabled stealing |
| AqsCalls.TurnAlone | ulocks/src/aqs.c:390-457 | Alone, the thread with the turn takes the free lock and leaves the queue; the next waiter is told, or the tail is NULL and stealing enabled |
| AqsCalls.ToldGoes | ulocks/src/aqs.c:379-418 | A waiter goes on to the lock when it was told, goes shuffling when it was appointed or, as the next one, not counted, and else looks again |
| AqsStealing.BitStep | ulocks/src/aqs.c:366-451 | What the stealing bit is after every step, given whether the last store that set it was made while somebody was about to clear it |
| AqsStealing.BitTells | ulocks/src/aqs.c:447-450 | In every state of every run with neither store outstanding, the bit is set if and only if the queue is not empty, exactly when the queue is empty or the store that set the bit did not overtake the one that clears it |
| AqsStealing.SetOnEmpty | ulocks/src/aqs.c:448-449 | In every state of every run a bit that is set while the queue is empty is about to be cleared |
| AqsStealing.StealingOpen | ulocks/src/aqs.c:366-450 | A run that ends with somebody queued, the bit clear, and nobody about to set it |
| AqsWord.WordRefines | ulocks/src/aqs.c:171-179 | On the 32-bit word, the read-modify-writes of the stealing bit, the byte accesses and the half-word compare-and-swap have the effect that they have on two separate flags |
| AqsWord.WordRuns | ulocks/include/aqs.h:159-171 | So over any sequence of steps |
| AqsShuffler.ShuffleWaiters | ulocks/src/aqs.c:204-318 | One uninterrupted call leaves a linked queue that is a stable partition of a prefix of the waiters, of all of them ahead of the tail unless it stopped early; it appoints the last waiter of the group, with the end of what it scanned to resume at unless that is the waiter itself, and counts only waiters it grouped |
| AqsShuffler.Scan | ulocks/src/aqs.c:243-305 | The loop, from any waiter behind which only other sockets were seen; its measure is the number of waiters behind `prev` |
| AqsShuffler.RelinkChain | ulocks/src/aqs.c:291-294 | The three stores of a splice turn the chain into the chain with that waiter moved |
| Partition.PartitionedMultiset | ulocks/src/aqs.c:243-305 | The partition loses and duplicates nobody |
| Partition.FullPass | ulocks/src/aqs.c:213-299 | A scan up to the tail gives the same queue wherever it resumed |
| CnaSafety.StepInv | ulocks/src/cna.c:85-260 | Every step of lock, try-lock and unlock keeps a main and a secondary list, the meaning of the grant word, and what each thread knows |
| CnaSafety.RunSafe | ulocks/src/cna.c:85-260 | In every run each state has two lists with the properties below, and the waiting order changes only by an append or by the holder leaving in favour of the first waiter of its socket |
| CnaSafety.InvConserved | ulocks/src/cna.c:191-260 | The two lists hold exactly the enqueued threads, once each; the tail is NULL only when both are empty |
| CnaSafety.InvTurn | ulocks/src/cna.c:245-258 | Exactly one enqueued thread owns the grant, at most one is between getting and giving away the lock |
| CnaSafety.InvSecondary | ulocks/src/cna.c:191-221 | The secondary list starts at the head carried in `spin` and ends at that head's `secTail` with a NULL `next`; nobody in it is of the holder's socket |
| CnaSafety.InvNoNull | ulocks/src/cna.c:191-258 | The unlock follows no NULL pointer |
| CnaSafety.OrderEvolves | ulocks/src/cna.c:223-260 | Holder, secondary list and rest of the main list, read in this order, change by one step only as the source promises: those whom a local hand-off passes are of other sockets |
| CnaSafety.SocketFifo | ulocks/src/cna.c:85-258 | While a thread waits, no thread of its socket that swapped the tail later gets its turn, across local hand-offs, deferrals and flushes |
| CnaCalls.UnlockAlone | ulocks/src/cna.c:179-260 | With everybody linked and nobody else stepping, an unlock kept local grants the first waiter of the holder's socket and appends those ahead of it to the secondary list; against the coin, or with no such waiter, it grants the first of all, those of the secondary list first |
| CnaCalls.FlushesOnly | ulocks/src/cna.c:191-221 | In every run an unlock flushes only against the coin, or when none of the waiters linked behind the holder, up to the NULL it read, is of its socket |
| CnaCalls.LockReturns | ulocks/src/cna.c:85-128 | In every run a lock call comes back only with the lock |
| CnaCalls.TryReturns | ulocks/src/cna.c:130-156 | In every run a try-lock gets the lock if it sees a NULL tail and comes back without it only if it does not |
| CnaCalls.JoinsAlone | ulocks/src/cna.c:85-115 | Alone, a thread gets the free lock, or ends as the last of the main list, linked and with its socket set |
| CnaCalls.GrantedWakes | ulocks/src/cna.c:103-115 | The waiter that an unlock has picked goes on with the lock by one step |
| CnaSuccessor.FindSuccessor | ulocks/src/cna.c:191-221 | The first waiter of the holder's socket, or nobody when there is none; exactly those ahead of it are moved, in order, behind the secondary list |
| CnaSuccessor.Walk | ulocks/src/cna.c:205-219 | The walk stops at the first waiter of the socket and knows the node before it |
| CnaSuccessor.Defer | ulocks/src/cna.c:208-213 | The stores that move the skipped waiters leave both lists linked and the secondary one ended |
| CnaSuccessor.Unlock | ulocks/src/cna.c:223-260 | One unlock leaves both lists linked, the tail right and the new holder granted, with the secondary list in its `spin` |
| CnaLists.HandedConserves | ulocks/src/cna.c:223-260 | Just the old holder leaves |
| CnaLists.HandedSockets | ulocks/src/cna.c:191-221 | The secondary list stays free of waiters of the new holder's socket |
| McsQueue.Enter | ulocks/src/hmcsrw.c:87-112 | A prepared node that becomes the tail keeps the queue |
| McsQueue.LinkUp | ulocks/src/hmcsrw.c:104-107 | So does a node that links itself |
| McsQueue.Leave | ulocks/src/hmcsrw.c:149-165 | So does the first node that clears the tail or grants the second |
| HmcsSafety.StepInv | ulocks/src/hmcsrw.c:87-442 | Every step of readers and writers, try-variants included, keeps the queues of both levels, the counters and what a scanning writer knows |
| HmcsSafety.RunSafe | ulocks/src/hmcsrw.c:331-442 | Every state of every run has queues at both levels, linked from the holder up to each tail, and the properties below |
| HmcsSafety.InvOneWriter | ulocks/src/hmcsrw.c:114-247 | At most one thread of all nodes holds the lock for writing |
| HmcsSafety.InvNoMixing | ulocks/src/hmcsrw.c:331-422 | Nobody reads while somebody writes, also when the lock was passed on within a node |
| HmcsReaders.ScannedStep | ulocks/src/hmcsrw.c:353-360 | No reader gets in at a node that a writer has already scanned, and no writer scans past a node with a reader inside |
| HmcsReaders.CountersStep | ulocks/src/hmcsrw.c:337-345 | Each 32-bit counter is the number of readers counted at its node, those that take themselves back included, and does not wrap |
| HmcsSafety.InvOnePerNode | ulocks/src/hmcsrw.c:114-147 | One thread of a node at most is past its local wait, so the embedded node is on the global queue only for the head of its local queue |
| HmcsSafety.InvBounded | ulocks/src/hmcsrw.c:216-247 | The writer's status is 1 to 100 and clear of both sentinels, and equals the critical sections of the tenure |
| HmcsSafety.TenuresStep | ulocks/include/hmcsrw.h:34 | One global acquisition serves at most 100 critical sections |
| HmcsSafety.InvTailsTell | ulocks/src/hmcsrw.c:149-165 | A local tail is NULL exactly when nobody is in the local queue; the global tail is not NULL while a writer holds |
| HmcsUnlock.RunPasses | ulocks/src/hmcsrw.c:216-247 | In every run a writer below the threshold with a linked successor ends its unlock by storing one more than the critical sections of its tenure in that successor's status, and none of its steps touches the global tail or a global status |
| HmcsUnlock.GivesBackOnly | ulocks/src/hmcsrw.c:216-247 | In every run a writer starts to give the global lock back only at the threshold, or when it sees no successor |
| HmcsUnlock.UnlockAlone | ulocks/src/hmcsrw.c:149-247 | With everybody linked and nobody else stepping, an unlock does exactly that, and otherwise grants the next node, or clears the global tail, and tells the next local thread to get the global lock itself, or clears the local tail |
| HmcsCalls.CallReturns | ulocks/src/hmcsrw.c:331-422 | In every run a blocking call for reading or writing comes back only after it has had the lock, a try call also when it saw the global tail set or, for a writer, its local tail set or a reader counted |
| HmcsCalls.CallGets | ulocks/src/hmcsrw.c:331-422 | With nobody in its way a call, blocking or not, at any of its points, gets the lock by its own steps |
| HybridSafety.StepInv | ulocks/src/hyshmcs.c:102-373 | Every step keeps all queues when nodes of threads and of local levels share the root queue and the depth of every thread adapts |
| HybridSafety.RunSafe | ulocks/src/hyshmcs.c:229-373 | Every state of every run has queues, linked from the holder up to each tail, with the properties below |
| HybridSafety.InvOneHolder | ulocks/src/hyshmcs.c:102-164 | At most one thread holds the lock |
| HybridSafety.InvBalanced | ulocks/src/hyshmcs.c:334-373 | In its critical section a thread is first in exactly the queues that its unlock will release; away, it is in none |
| HybridSafety.InvReleases | ulocks/src/hyshmcs.c:166-185 | The release helper follows no NULL pointer, and grants the node behind the one that leaves |
| HybridSafety.ServedStep | ulocks/src/hyshmcs.c:187-227 | The status words count the critical sections of a node since it got the root, and one root acquisition serves at most 100 |
| HybridLocals.FlagsStep | ulocks/src/hyshmcs.c:229-284 | The flags `took_fast_path` and `real_depth` tell at every point which queue was taken |
| HybridDepth.DepthAdapts | ulocks/src/hyshmcs.c:334-373 | In every run, after a slow acquisition and its unlock the depth is global if and only if the thread got the root itself and gave it back neither within its node nor at the threshold; after a fast one, or a failed try-lock, it is as before |
| HybridDepth.EntersAt | ulocks/src/hyshmcs.c:229-284 | In every run the fast path is taken only when the root was seen free in the call, and the slow path is at the thread's depth, or at the local level when the root was seen with at least two queued |
| HybridUnlock.RunPasses | ulocks/src/hyshmcs.c:193-227 | In every run a holder by way of its local queue, below the threshold and with a linked successor, passes the lock on to it with the next count, and none of its steps touches the root |
| HybridUnlock.GivesBackOnly | ulocks/src/hyshmcs.c:193-227 | It starts to give the root back only at the threshold, or when it sees no successor |
| HybridUnlock.UnlockAlone | ulocks/src/hyshmcs.c:166-227 | With everybody linked and nobody else stepping, an unlock does exactly that and leaves the queues and grants that each of its three cases promises |
| HybridCalls.CallReturns | ulocks/src/hyshmcs.c:229-332 | In every run a lock call comes back only after it has had the lock, a try-lock also when it saw the root taken |
| HybridCalls.CallGets | ulocks/src/hyshmcs.c:229-332 | With nobody in its way a call at any of its points gets the lock by its own steps, by the fast path unless it is past that choice |
| MalthusianSafety.StepInv | ulocks/src/malthusian.c:84-307 | Every step keeps the queue, the passive list and the waiter on its way back from it |
| MalthusianSafety.RunSafe | ulocks/src/malthusian.c:84-307 | In every state of every run there are a queue and a passive list as in the next row; one thread at most holds the lock, which is the first in the queue, the passive list is linked both ways, its waiters sleep without a grant, and no NULL pointer is followed |
| MalthusianSafety.InvConserved | ulocks/src/malthusian.c:226-307 | Every waiter is in exactly one place: on the chain of `next` fields that ends at the tail, in the passive list, or in the holder's hands between the two; a NULL tail leaves nobody behind |
| MalthusianSafety.RunGrants | ulocks/src/malthusian.c:226-307 | In every run each unlock ends with nobody waiting, or grants exactly one sleeping waiter that had no grant |
| MalthusianCalls.UnlockAlone | ulocks/src/malthusian.c:226-307 | With everybody linked and nobody else stepping, an unlock leaves the two lists of `Outcome`: a passive waiter gets the lock when the random number is 0 or nobody waits in the queue, else the only waiter there, or the second while the first becomes passive |
| MalthusianCalls.LockReturns | ulocks/src/malthusian.c:84-119 | In every run a lock call comes back only with the lock |
| MalthusianCalls.TryReturns | ulocks/src/malthusian.c:121-143 | In every run a try-lock gets the lock if it sees a NULL tail and comes back without it only if it does not |
| MalthusianCalls.JoinsAlone | ulocks/src/malthusian.c:84-108 | Alone, a thread gets the free lock, or ends as the last of the queue, linked |
| MalthusianCalls.GrantedWakes | ulocks/src/malthusian.c:84-108 | The waiter that an unlock has picked goes on with the lock by one step |
| MalthusianHolder.PopBackList | ulocks/src/malthusian.c:147-163 | Taking the last passive node leaves a list linked both ways |
| MalthusianHolder.PopFrontList | ulocks/src/malthusian.c:165-181 | So does taking the first |
| MalthusianHolder.PushList | ulocks/src/malthusian.c:183-198 | So does putting one in front |
| MalthusianUnlock.PushFront | ulocks/src/malthusian.c:183-198 | The stores of the push, on the heap |
| MalthusianUnlock.PopBack | ulocks/src/malthusian.c:147-163 | The stores of the pop at the end |
| MalthusianUnlock.PopFront | ulocks/src/malthusian.c:165-181 | The stores of the pop at the front |
| MalthusianUnlock.InsertAtHead | ulocks/src/malthusian.c:200-224 | The waiter becomes the first behind the holder, and the tail if it is the only one |
| MalthusianUnlock.Unlock | ulocks/src/malthusian.c:226-307 | One unlock leaves the lists of `Outcome`, linked, with the right tail and the new holder granted |
| MalthusianLists.OutcomeConserves | ulocks/src/malthusian.c:226-307 | Just the old holder leaves, and there is a next one whenever anybody waits in either list |
| HtlockSafety.StepInv | ulocks/src/htlockepfl.c:115-193 | Every step keeps tenures, local and global tickets, with at most 129 users of a node, also when a request word wraps around |
| HtlockSafety.RunSafe | ulocks/src/htlockepfl.c:115-193 | In every run of fewer than 2^32 threads with at most 129 users of a node one thread at most holds the lock, and the properties below hold |
| HtlockSafety.InvTickets | ulocks/src/htlockepfl.c:130-153 | No local ticket, which is a number up to 128, is out twice, and the one granted next has a waiter |
| HtlockSafety.InvRest | ulocks/src/htlockepfl.c:175-193 | The number the next taker gets was not handed out in this tenure, so -1 goes out once; a tenure has made 128 minus the grant word local hand-offs |
| HtlockSteps.LeaderAlone | ulocks/src/htlockepfl.c:141-146 | A leader that finds the local grant at 128 finds no open tenure |
| HtlockCalls.RunHands | ulocks/src/htlockepfl.c:175-193 | In every run with at most 129 users of a node an unlock keeps the lock in its node if and only if somebody waits there with a local ticket |
| HtlockCalls.UnlockAlone | ulocks/src/htlockepfl.c:175-193 | Alone, it then grants the waiter with the next local ticket and nothing else; otherwise the local grant is 128 again, a used-up request word is cleared, and the next thread in global ticket order is granted |
| HtlockCalls.LockReturns | ulocks/src/htlockepfl.c:124-156 | In every run a lock call comes back only with the lock |
| HtlockCalls.CallGets | ulocks/src/htlockepfl.c:124-156 | Alone, a call gets the free lock, and one whose ticket is granted goes on with the lock |
| HtlockLimit.TwoHolders | ulocks/src/htlockepfl.c:130-193 | A run of 130 users of one node that ends with two holders |
| HtlockLimit.ExactLimit | ulocks/include/htlockepfl.h:39 | Mutual exclusion holds in all runs of fewer than 2^32 threads if and only if at most 129 of them use the lock from one node at a time |
| HtlockWrap.WrapReached | ulocks/src/htlockepfl.c:130-144 | A run of two threads in which a leader stalls, the other one is turned away until the request word is at its minimum, and then waits with the number 2^31 - 1 |
| HtlockWrap.StrandedForever | ulocks/src/htlockepfl.c:130-144 | With at most 129 users of a node, who waits with a number above 128 does so in every later state of the run |
| HtlockWrap.ExactWrap | ulocks/src/htlockepfl.c:130-144 | In every such run somebody waits with a number above 128 if and only if some step took a number while the request word of its node was at its minimum |
| CohortLock.StepInv | ulocks/src/cbomcs.c:176-262 | Every step keeps the local locks, the global lock and its grants, and the batch counters, in both release orders, for any locks that exclude |
| CohortLock.RunSafe | ulocks/src/cbomcs.c:176-262 | One holder, whose local lock is `top_home`; a set `top_grant` means that the global lock is held and somebody of the node will find it; at most 100 local hand-offs before the global lock is given back |
| CohortLock.BudgetStep | ulocks/src/cbomcs.c:243-262 | Hand-offs made, one counted but not made, and the batch counter never exceed the limit together |
| CohortCalls.UnlockAlone | ulocks/src/cbomcs.c:243-262 | Alone, an unlock keeps the global lock in its node, and counts that, if and only if somebody waits there and the batch counter has not run out; otherwise both locks are free, and a counter that has run out is set up again |
| CohortCalls.Stays | ulocks/src/cbomcs.c:176-227 | A lock call goes on until it has the lock; a try-lock gives up when, and only when, it finds a lock taken |
| CohortCalls.CallGets | ulocks/src/cbomcs.c:176-227 | With nobody in its way a call at any of its points gets the lock by its own steps, also when the global lock was left to its node |
| CohortMcs.StepInv | ulocks/src/cbomcs.c:67-262 | Every access of C-BO-MCS keeps its MCS queues and shows as one step of the cohort lock, or as none |
| CohortMcs.AnybodyThere | ulocks/src/cbomcs.c:126-128 | For the holder of a local lock, the tail is another node if and only if somebody waits |
| CohortMcs.RunSafe | ulocks/src/cbomcs.c:176-262 | So every state of every run of C-BO-MCS has the queues and the properties of the cohort lock |
| CohortMcsCalls.CallReturns | ulocks/src/cbomcs.c:176-227 | In every run a call ends with the lock, or is a try-lock and found the local tail or the global lock taken |
| CohortMcsCalls.RunLooks | ulocks/src/cbomcs.c:243-250 | In every run an unlock counts down if and only if somebody waits for its local lock |
| TicketLock.TryTake | ulocks/src/ctkttkt.c:108-115 | The packed compare-and-swap succeeds only on a lock that nobody has or waits for, and takes it |
| CohortTickets.StepInv | ulocks/src/ctkttkt.c:69-176 | Every access of C-TKT-TKT keeps the tickets of all its locks in order and shows as one step of the cohort lock, or as none |
| CohortTickets.RunSafe | ulocks/src/ctkttkt.c:69-176 | So every state of every run of C-TKT-TKT has the properties of the cohort lock |
| CohortTicketsCalls.CallReturns | ulocks/src/ctkttkt.c:69-152 | In every run a call ends with the lock, or is a try-lock and found a lock that was not free, or for which others had drawn a ticket since it looked |
| CohortTicketsCalls.RunLooks | ulocks/src/ctkttkt.c:154-176 | In every run an unlock counts down if and only if somebody waits for its local lock |
| AqmParking.StepInv | ulocks/src/aqm.c:154-224 | Joining, parking, un-parking, waking and the hand-over keep the debt at every node: somebody still has to store `pstate` exactly while a waiter that is no longer PARKED sleeps on 0 |
| AqmParking.RunSafe | ulocks/src/aqm.c:154-224 | For every waiter in every state of every run: no lost wake-up, no store to `pstate` is outstanding when a node is initialised again, of the queued nodes only those of waiters committed to sleep are PARKED, and the lock is handed over once and held by one thread |
| AqmParking.LeaveQueue | ulocks/src/aqm.c:445-467 | Who leaves is the first of the queue, and the one behind it has not been handed the lock before |
| AqmParking.StatusForward | ulocks/include/aqm.h:63-66 | Within one acquisition the status only goes on and never returns to PARKED |
| AqmParking.RunStatus | ulocks/src/aqm.c:358-411 | So over any part of a run in which the waiter stays queued |
| AqmParking.GrantedWakes | ulocks/src/aqm.c:464-467 | A waiter that was handed the lock and is still in the kernel has a waker that is one or two of its own steps away, which no other step undoes |
| AqmCalls.LockReturns | ulocks/src/aqm.c:358-472 | In every run a lock call comes back only with the lock, whatever parks or wakes it in between |
| AqmCalls.CallStarts | ulocks/src/aqm.c:358-499 | A call gets the free lock at once when the stealing bit is clear; otherwise a try-lock is over and has changed nothing |
| AqmCalls.CallGets | ulocks/src/aqm.c:370-467 | The waiter whose turn it is, once it is awake, takes the free lock and hands its place over by its own steps |
| AqmCalls.LeavesAlone | ulocks/src/aqm.c:445-467 | Alone, the leaver hands over to the next waiter, and one that was parked has its `pstate` set and is out of the kernel |
| RwsemWord.StepInv | klocks/shfllocks.patch:1339-1520 | Every step of the fast, slow and try paths and of the downgrade keeps the word equal to 512 for each reader bias, transient ones included, plus 0xbf for a writer, and readers and writers apart |
| RwsemWord.RunSafe | klocks/shfllocks.patch:1339-1520 | So in every run; the word is 0 again when everybody has released |
| RwsemWord.InvByte | klocks/shfllocks.patch:1487-1520 | The one-byte store of the release and of the downgrade subtracts exactly the writer |
| RwsemWord.MaskTells | klocks/shfllocks.patch:115-120 | Both masks see exactly whether a writer holds, whatever the readers' count is |
| RwsemCalls.BlockingCall | klocks/shfllocks.patch:1339-1447 | In every run a blocking call for reading or writing comes back only after it has had the semaphore so |
| RwsemCalls.TryCall | klocks/shfllocks.patch:1384-1480 | In every run a try call comes back without it only when it saw a writer, or as a writer a word other than 0 |
| RwsemCalls.CallGets | klocks/shfllocks.patch:1339-1480 | With nobody in its way a call, blocking or not, at any of its points, gets the semaphore by its own steps |
| RwsemCalls.HolderStep | klocks/shfllocks.patch:1487-1520 | A release takes exactly its reader or the writer off the word |
| RwsemCalls.Downgrades | klocks/shfllocks.patch:1510-1520 | A downgrade leaves one reader in the place of the writer |

## Left out

- HtlockSafety.RunSafe: holds for fewer than 2^32 threads, which is what the global ticket words can tell apart.
- HtlockLimit.ExactLimit: quantifies over runs of fewer than 2^32 threads, for the same reason.
- HmcsReaders.CountersStep: holds for fewer than 2^32 threads, which is what a reader counter can count.
- RwsemWord.RunSafe: holds for as many threads as fit the reader bits; `wait_lock` is an abstract lock, and RWAQM_W_WAITING is never set by the code, so the model does not set it either.
- CohortTickets.RunSafe: holds for fewer than 2^32 - 2 threads, which is what the ticket words can tell apart.
- CohortMcs.RunSafe: the backoff of the global lock is left out; its test-and-set is one step.
- CnaCalls.UnlockAlone: assumes that every waiter has linked itself, as do the other `UnlockAlone` of linked queues and AqsSolo.ShuffleAlone; a link that is still missing is what the code spins for, or takes for the end of the queue.
- CohortCalls.UnlockAlone: of the abstract cohort lock; C-BO-MCS and C-TKT-TKT refine it.
- AqmParking.RunSafe: the queue is a sequence whose changes (append, a waiter moved forward, the head leaving) are steps of their own; the links behind it follow the pattern proved for the spinlock.
- AqsShuffler.ShuffleWaiters: one call with nobody else running; what concurrent joiners and departures add is the transition system's part.
- CnaSuccessor.Unlock: one call with nobody else running, as for the other methods over heap nodes.
- Weak memory orders, padding, prefetching, pauses and backoff delays, and time stamps.
- `posix_lock` and the condition variables around every lock; only the holder takes that mutex.
- Progress under interference: a thread that steps alone ends its call, but nothing says that one which others keep from stepping, or overtake, gets the lock eventually.
- The wait of `cna.c` on the low half of the 64-bit `spin`: addresses are abstract, so that a list head whose low 32 bits are 0 does not occur.
- The mutex interface of `hmcsrw.c`, which is its writer lock without the scan of the readers.
- BLOCKING_FAIRNESS, VRUNTIME_FAIRNESS, USE_COUNTER and debugging code. Without USE_COUNTER a wait count is 0 or 1, and the machine stores 1.
- The links and the socket rule of the shuffler of `aqm.c`, the kernel spinlocks and the shuffler of the kernel semaphore, which skips waiters.
- `hmcs.c` (its threshold test is commented out), the plain ticket, MCS, CLH and test-and-set locks, `mcstp.c` and the library interposition.
