# Relacy: the race detector, its scheduler and the algorithms it ships, modelled and proved

The Relacy Race Detector runs a multithreaded test again and again under a scheduler of its own, simulates a
relaxed memory for it, and reports data races, deadlocks and failed assertions. This project models

- **the memory and the race detector**: vector clocks of threads, sync variables, fences and atomic history records;
  loads that may return stale records; the race check on plain variables. Happens-before is defined on the
  operations of a run without any clock, and the clocks are proved to represent it exactly;
- **the exhaustive scheduler**: the odometer over nondeterministic choices, its printed state and replay, and the
  bookkeeping of blocked, yielding, parked and finished threads;
- **the blocking primitives**: the recursive reader/writer mutex, the hand-off semaphore and the wait set;
- **the block-recycling memory manager** with its ring of deferred frees;
- **the lock-free algorithms shipped as examples**: the work-stealing deque, the hazard-pointer stack, the proxy
  collector and the eventcount, for any number of threads under sequentially consistent interleaving with one
  shared access or list operation per step, the eventcount's lists being linked nodes; and Peterson's algorithm on the
  modelled relaxed memory.

## How to read it

| files | contents |
|---|---|
| `Clocks`, `Memory` | clocks, the state, one function per operation, runs (`Run`, `Legal`) |
| `HappensBefore`, `Dependencies` | happens-before without clocks; what each operation depends on directly |
| `Exactness`, `Represent` | every clock represents the causal past of the operations that feed it |
| `Races`, `Coherence`, `Fences`, `Legality` | the theorems about races, stale reads and fences; what is accepted, and what it does |
| `Detector` | the objects with their arrays and loops, tied to the functions of `Memory` |
| `Search`, `Scheduler`, `Sums` | exhaustive search and replay; scheduler accounting |
| `WaitSets`, `RwMutex`, `Semaphore`, `LockDiscipline`, `PermitOrder` | blocking primitives; mutex and semaphore composed with the memory |
| `MemoryManager` | the memory manager |
| `WorkStealing`, `HazardStack`, `ProxyCollector`, `EventCount`, `EventCountCalls`, `LinkedList`, `Peterson` | the algorithms |

A run of the memory is one sequence `tr` of operations; the state after its first `i` operations is `At(c, tr, i)`.
An RMW is two operations, a load and a store that follows it directly. A step system has a program counter per thread
and, where needed, bookkeeping fields that no thread reads (`items`, `stack`, `place`, `status`, `spot`, `waitset`); a `fault`
field is set by a step that would touch freed memory or fail a check, and is proved never to be set.

Where the code and its comments or promises differ, the model follows the code:

- The release sequence rule looks only at the record right before the new one (`thread.hpp:356-369`); section 1.10 of
  ISO C++11 would also continue a sequence past a store of another thread. seq_cst fences create happens-before edges
  among each other, which is more than section 29.3 gives.
- The first store to a plain variable is not checked against anything (`var.hpp:306-319`); it is never refused, and
  nothing can have accessed the variable before.
- A semaphore accepts any initial count (`semaphore.hpp:71-77`); conservation needs it to be at most INT_MAX + 2
  and the bound needs it to be at most the maximum.
- `unlock_shared` wakes only writers (`mutex.hpp:434`), so that with timed locks a reader can be stranded; exactly when is
  proved in `RwMutex.ReadersKeptExactly`.
- The proxy collector takes regions on in installation order, but two threads may destroy them in another order; exactly
  when is proved in `ProxyCollector.OrderIffNeverDisturbed`.
- `schedule_impl` can fail its check that a running thread exists (`full_search_scheduler.hpp:189`); exactly when is proved
  in `Scheduler.NobodyExactly`.

## Model

| member | source | states |
|---|---|---|
| Races.StoreAcceptedIffNoRace | code/relacy/relacy/var.hpp:300-319 | In every run, after any mix of plain accesses, sync variables, atomics and fences, a store to a variable is accepted if and only if every earlier access that conflicts with it happens before it; happens-before is defined without clocks. Covers the unchecked first store. |
| Races.LoadAcceptedIffNoRace | code/relacy/relacy/var.hpp:366-377 | A load is accepted if and only if the variable has been stored to and every earlier store happens before the load. |
| Races.RunIsRaceFree | code/relacy/relacy/var.hpp:351-377 | In a run in which nothing was reported, any two conflicting accesses are ordered by happens-before. |
| Races.StoreCheckExact | code/relacy/relacy/var.hpp:351-364 | The two array comparisons pass exactly when no earlier load or store of the variable is unordered: one timestamp per thread and variable is enough. |
| Races.LoadCheckExact | code/relacy/relacy/var.hpp:366-372 | The array comparison of a load passes exactly when no earlier store is unordered. |
| Races.LatestCovers | code/relacy/relacy/var.hpp:336-337 | A thread's clock has reached the one timestamp kept for another thread exactly when all of that thread's accesses of the kind happen before the operation. |
| Races.ClockIsHappensBefore | code/relacy/relacy/var.hpp:353-359 | Before an operation that acquires nothing, the thread's clock entry has reached the timestamp of an earlier operation if and only if that operation happens before it. |
| Represent.InvAlways | code/relacy/relacy/thread.hpp:61-63 | In every run each clock - of threads, acquire and release fences, sync variables, history records, the seq_cst fence - has reached exactly the timestamps of the operations at or below the set of operations that feed it, and is, entry by entry, at least what each of those operations' threads knew right after it; records carry writer, timestamp, order and value of their store. |
| Exactness.BoundedAlways | code/relacy/relacy/thread.hpp:281-292 | No clock ever runs ahead of the own entry of the thread it speaks about. |
| Exactness.StampWithin | code/relacy/relacy/thread.hpp:281-283 | Timestamps already handed out to a thread's operations never exceed its own entry, so that later operations get later timestamps. |
| Exactness.OwnAdvances | code/relacy/relacy/thread.hpp:336-337 | Every stamped operation advances its thread's own entry to exactly its timestamp; no operation moves an own entry back. |
| HappensBefore.HBTransitive | code/relacy/relacy/thread.hpp:351-369 | Happens-before, built from sequencing, sync variables, seq_cst fence order and release sequences, is transitive. |
| HappensBefore.HeadsStep | code/relacy/relacy/thread.hpp:356-369 | What a record publishes is its own store's release operations, plus those of the record before exactly when the store is an RMW or by the same thread as that record. |
| Dependencies.BelowPredsFence | code/relacy/relacy/thread.hpp:83-89 | An acquire fence brings in exactly the release operations that its thread has read so far without acquiring (and, for seq_cst, the earlier seq_cst fences). |
| Coherence.CoherentOrder | code/relacy/relacy/thread.hpp:202-260 | Operations on one atomic that are ordered by happens-before touch records in modification order: write-write, read-write, write-read and read-read coherence, also for records that have left the three-slot ring. |
| Coherence.ReadsAreMonotone | code/relacy/relacy/thread.hpp:232-249 | The reads of one thread on one atomic never go back in modification order. |
| Coherence.LoadChoicesExact | code/relacy/relacy/thread.hpp:210-254 | A load may return a record exactly when the record lies in the window and nothing blocks the load at a newer one: no touch of it is known to the thread, no seq_cst store meets a seq_cst load, and the record before it was not touched before the last yield. |
| Coherence.SeenAlways | code/relacy/relacy/thread.hpp:282-283 | first_seen_order_ holds the timestamp of each thread's first touch of each record, in every run. |
| Coherence.LoadRespectsKnown | code/relacy/relacy/thread.hpp:226-249 | A load returns no record older than one whose touch is already known to the thread. |
| Fences.FenceToFence | code/relacy/relacy/thread.hpp:83-97 | A release fence, a later store of its thread, a read of it or of its release sequence, and a later acquire fence of the reader: the first fence happens before the second, whose clock is then at least the clock at the first in every entry. |
| Fences.HappensBeforeDominates | code/relacy/relacy/thread.hpp:336-369 | Whenever one operation happens before another, the clock of the second one's thread right after it is at least that of the first one's thread right after the first, in every entry. |
| Fences.ScFencesDominate | code/relacy/relacy/thread.hpp:105-124 | Every seq_cst fence happens after all earlier seq_cst fences, and its clock is at least theirs in every entry. |
| Fences.StoreBuffering | code/relacy/relacy/thread.hpp:105-124 | Store buffering with seq_cst fences for any number of threads: not all sides can miss their neighbour's store. |
| Fences.ClockAfter | code/relacy/relacy/thread.hpp:61 | After an operation, its thread's clock has reached exactly what happens before the operation. |
| Legality.StoresTakeEffect | code/relacy/relacy/thread.hpp:317-372 | In every run a store with relaxed, release or seq_cst order, or the store half of an RMW right after its load half, is accepted, and exactly those are; the history of its atomic gets one record longer, with that value and thread, and no other atomic changes. |
| Legality.FencesTakeEffect | code/relacy/relacy/thread.hpp:83-124 | In every run every fence but a relaxed one is accepted; an acquire fence brings in what has been read, a release fence stores the resulting clock, a seq_cst fence merges the common clock and leaves the result in it. |
| Legality.NewestIsReadable | code/relacy/relacy/thread.hpp:202-260 | In every run the newest record of an initialised atomic may be read with every load order, and an RMW can read nothing else; without a record no load is accepted. |
| Legality.LoadsKeepHistories | code/relacy/relacy/thread.hpp:262-295 | A load changes nothing in the histories but the mark that its thread has seen the record. |
| Legality.NeverRefused | code/relacy/relacy/sync_var.hpp:38-57 | Operations on sync variables, yields and the global fence are always accepted. |
| Legality.SampleRuns | code/relacy/relacy/thread.hpp:317-389 | There is a run that initialises an atomic, reads it and updates it. |
| Detector.AssignMax | code/relacy/relacy/foreach.hpp:119-123 | The element-wise loop with assign_max yields the maximum of the two clocks. |
| Detector.SearchExact | code/relacy/relacy/thread.hpp:210-257 | The random answers of the backward search produce exactly the records that may be read, and the search ends on an uninitialised slot exactly when nothing stops it before the first record. |
| Detector.EndsOnce | code/relacy/relacy/thread.hpp:210-254 | For given random answers the search ends at one record only. |
| Detector.ThreadInfo.SearchBack | code/relacy/relacy/thread.hpp:207-254 | The search loop over the ring ends at that record of the whole modification order, although only three records are kept. |
| Detector.ThreadInfo.GetLoadIndex | code/relacy/relacy/thread.hpp:202-260 | An RMW gets the newest record, a load the one where the search ends; failure means an uninitialised slot. |
| Detector.ThreadInfo.AtomicLoad | code/relacy/relacy/thread.hpp:262-295 | Reads that record: ticks, marks it seen if it was not, and merges its clock into the thread's clock or, if the order does not acquire, into the acquire fence's. |
| Detector.ThreadInfo.AtomicStore | code/relacy/relacy/thread.hpp:317-372 | Appends exactly the record of the model, with the release sequence rule on the record right before it, and ticks. |
| Detector.ThreadInfo.AtomicRmw | code/relacy/relacy/thread.hpp:374-389 | A read of the newest record and then a store with nothing in between; `aba` tells whether the thread had not seen that record. |
| Detector.LoadEvent | code/relacy/relacy/thread.hpp:262-295 | A load event of a run is accepted with every load order if its record may be read, and does what AtomicLoad does. |
| Detector.StoreEvent | code/relacy/relacy/thread.hpp:317-372 | A store event of a run is accepted with every store order and as part of an RMW, and does what AtomicStore does. |
| Detector.RmwIsLoadThenStore | code/relacy/relacy/thread.hpp:374-389 | In a run an RMW is legal on every initialised atomic and is its load event followed by its store event. |
| Detector.ThreadInfo.RmwImpl | code/relacy/relacy/atomic.hpp:548-575 | Refuses an uninitialised atomic; otherwise returns the newest value and stores the operation applied to it. |
| Detector.ThreadInfo.CompareSwapImpl | code/relacy/relacy/atomic.hpp:488-546 | Succeeds exactly when the newest value equals the expected one and no spurious failure is injected; on failure it still reads the newest record with the failure order. |
| Detector.ThreadInfo.FailsSpuriously | code/relacy/relacy/atomic.hpp:508-525 | Under the exhaustive scheduler a weak compare_swap fails spuriously at most once per atomic. |
| Detector.AtomicData.Append | code/relacy/relacy/thread.hpp:329-337 | The ring slot current_index_ % 3 takes the new record and its value, and the ring holds the last three records. |
| Detector.ThreadInfo.IterationBegin | code/relacy/relacy/thread.hpp:44-57 | A fresh thread: own entry 1, everything else 0. |
| Detector.ThreadInfo.FenceAcquire | code/relacy/relacy/thread.hpp:83-89 | The thread's clock merges what it has read without acquiring. |
| Detector.ThreadInfo.FenceRelease | code/relacy/relacy/thread.hpp:91-97 | The release fence clock becomes the thread's clock. |
| Detector.ThreadInfo.FenceSeqCst | code/relacy/relacy/thread.hpp:105-124 | Acquire, merge with the seq_cst clock in both directions, release. |
| Detector.SyncVar.Acquire | code/relacy/relacy/sync_var.hpp:38-42 | Ticks and merges the sync variable's clock into the thread's. |
| Detector.SyncVar.Release | code/relacy/relacy/sync_var.hpp:44-48 | Ticks and merges the thread's clock into the sync variable's. |
| Detector.SyncVar.AcqRel | code/relacy/relacy/sync_var.hpp:50-57 | Both, in that order. |
| Detector.SyncEvent | code/relacy/relacy/sync_var.hpp:38-57 | In a run of the memory, the sync_var operations do to thread and variable exactly what the three methods do. |
| Detector.VarData.Load | code/relacy/relacy/var.hpp:269-284 | Refused exactly when uninitialised or when a store is unknown; otherwise stamps the load and changes nothing else. |
| Detector.VarData.Store | code/relacy/relacy/var.hpp:300-319 | The first store only stamps; later ones are refused exactly when a store or load is unknown. |
| Detector.VarEvent | code/relacy/relacy/var.hpp:269-319 | In a run of the memory, plain loads and stores are enabled exactly when the two methods accept, and then do what they do; a refused one changes nothing. |
| Detector.RlGlobalFence | code/relacy/relacy/context.hpp:757-773 | Every entry of every clock becomes the largest own timestamp. |
| Detector.GlobalFenceEvent | code/relacy/relacy/context.hpp:757-773 | In a run of the memory, the global fence leaves exactly the clocks that the method leaves. |
| Search.Odometer | code/relacy/relacy/full_search_scheduler.hpp:77-93 | The step of iteration_end_impl leads from each root-to-leaf path of the choice tree to the next one in lexicographic order, and reports the end exactly after the last. |
| Search.PathsExact | code/relacy/relacy/full_search_scheduler.hpp:255-281 | The list of paths contains exactly the root-to-leaf paths of the tree. |
| Search.PathsSorted | code/relacy/relacy/full_search_scheduler.hpp:77-93 | The list is strictly sorted lexicographically. |
| Search.PathsDistinct | code/relacy/relacy/full_search_scheduler.hpp:77-93 | No path occurs twice. |
| Search.TreeSearch.Rand | code/relacy/relacy/full_search_scheduler.hpp:255-281 | Replays the recorded choice or pushes a new first alternative; a check fails exactly when the recorded kind, count or index does not fit. |
| Search.TreeSearch.IterationEnd | code/relacy/relacy/full_search_scheduler.hpp:77-93 | The loop finds the deepest choice with an alternative left, advances it and drops the rest; checks fail only on a stack that was not consumed or is out of range. |
| Search.TreeSearch.Iteration | code/relacy/relacy/full_search_scheduler.hpp:68-75 | One run of a deterministic test follows the stack and then first alternatives; no check fails, and the stack becomes the whole path. |
| Search.Simulate2 | code/relacy/relacy/context.hpp:614-651 | Iterations visit consecutive paths, each once, until the first failure or the last path; terminates; iteration numbers count them. |
| Search.TreeSearch.GetState | code/relacy/relacy/full_search_scheduler.hpp:300-310 | Prints the iteration number and the stack. |
| Search.TreeSearch.SetState | code/relacy/relacy/full_search_scheduler.hpp:312-326 | Reads a stack and appends it. |
| Search.StateRoundTrip | code/relacy/relacy/full_search_scheduler.hpp:300-326 | Parsing what was printed restores iteration number and stack, for every stack. |
| Search.SimulateFrom | code/relacy/relacy/context.hpp:595-612 | Resuming from a printed state continues at that path; a failure prints its own state. |
| Search.Simulate | code/relacy/relacy/context.hpp:943-1008 | The whole search: success means every path was visited exactly once; a failure is the first one, and replaying its printed state fails on the same path with the same outcome at the same iteration, so that the checks on the replay never fail. |
| Scheduler.Always | code/relacy/relacy/scheduler.hpp:267-301 | In every reachable state the accounting invariant holds, no check of the bookkeeping has failed, and the current thread is running. |
| Scheduler.BlockCountIs | code/relacy/relacy/scheduler.hpp:267-301 | block_count_ of a thread is (parked) + (dynamic, not started) + (finished) + the number of threads whose yield_priority_ entry for it is positive; totals are row sums; running_threads is the duplicate-free set of the threads with count 0. |
| Scheduler.EmptyAtTheEnd | code/relacy/relacy/scheduler.hpp:82-91 | When an iteration is over running_threads is empty, as the next iteration_begin, which only appends, needs it. |
| Scheduler.YieldPriorityKeeps | code/relacy/relacy/full_search_scheduler.hpp:95-119 | yield_priority keeps the accounts, and its check that no yield blocks the yielding thread holds. |
| Scheduler.PurgeRowKeeps | code/relacy/relacy/full_search_scheduler.hpp:328-348 | on_thread_block keeps the accounts and leaves the thread blocking nobody. |
| Scheduler.CreditKeeps | code/relacy/relacy/full_search_scheduler.hpp:136-150 | Crediting the threads blocked by the current one keeps the accounts. |
| Scheduler.RoundsCountDown | code/relacy/relacy/full_search_scheduler.hpp:136-151 | When schedule_impl is called for a thread that does not yield, everybody it blocks has exactly one round less to wait and runs if that was the last reason; other threads' entries stay. |
| Scheduler.YieldStores | code/relacy/relacy/full_search_scheduler.hpp:95-119 | yield_priority stores exactly the given rounds for those unfinished threads that have been scheduled fewer times since, 0 for the others, and starts to count anew; if nobody is left to run it gives up all yields. |
| Scheduler.YieldEnters | code/relacy/relacy/full_search_scheduler.hpp:95-119 | The same in every reachable state, for the step of a thread that yields. |
| Scheduler.YieldEnds | code/relacy/relacy/full_search_scheduler.hpp:136-150 | In every part of a run, a thread that waits k rounds for another is off its row once schedule_impl has been called for the other k times. |
| Scheduler.YieldLasts | code/relacy/relacy/full_search_scheduler.hpp:136-150 | And not before: while the other does not park, finish or yield and no purge frees everybody, it waits exactly k rounds less the calls so far, and does not run until they are used up. |
| Scheduler.BlockKeeps | code/relacy/relacy/scheduler.hpp:267-287 | block_thread adds one reason and takes a running thread off the running list. |
| Scheduler.UnblockStep | code/relacy/relacy/scheduler.hpp:289-301 | unblock_thread removes one reason and puts the thread back when it was the last. |
| Scheduler.SelectKeeps | code/relacy/relacy/full_search_scheduler.hpp:159-231 | Whoever schedule_impl chooses is running; a woken waiter is no longer parked. |
| Scheduler.ChoicesExact | code/relacy/relacy/full_search_scheduler.hpp:157-227 | The random answers can choose exactly: a running thread; a timed waiter that no yield blocks; and, while somebody runs, a waiter that allows spurious wakeups and that no yield blocks. |
| Scheduler.ActsMean | code/relacy/relacy/scheduler.hpp:141-230 | In every reachable state each act means what it says: parking adds the thread to the parked ones and to the lists it allows, unparking, timing out and waking spuriously remove it from all, creating starts the last dynamic thread, finishing counts one more. |
| Scheduler.SettleKeeps | code/relacy/relacy/scheduler.hpp:193-222 | The retry loop of thread_finished, including the start of all dynamic threads, keeps the accounts. |
| Scheduler.DeadlockExactly | code/relacy/relacy/scheduler.hpp:309-318 | In every reachable state a deadlock is reported if and only if nobody can ever run again: the thread parks without a timeout or finishes, nobody is timed, everybody else is parked, not started or finished, and at a finish nobody is left to be started. The iteration is over exactly when the last thread finishes. |
| Scheduler.NobodyExactly | code/relacy/relacy/full_search_scheduler.hpp:122-241 | In every reachable state schedule_impl finds a thread to run, whatever the current thread does (yield, be preempted, park with or without a timeout, unpark, start a thread, finish), except exactly when it finishes while nobody else runs, nobody is blocked by its yield entry alone, and another thread's yield_priority_ entry still blocks the timed waiter that is picked. |
| Scheduler.FinishFinds | code/relacy/relacy/full_search_scheduler.hpp:186-189 | The same for one finishing thread in any state that keeps the accounts; the condition speaks of the state before the call. |
| Scheduler.YieldLeaves | code/relacy/relacy/full_search_scheduler.hpp:118-119 | After yield_priority somebody runs, or the purge has left no yield block on anybody. |
| Scheduler.NobodyToRun | code/relacy/relacy/full_search_scheduler.hpp:186-189 | The exception is reached: three threads, one parked, one a timed waiter blocked by a yield on it, and the third finishes. |
| Scheduler.SchedulerImpl.BlockThread | code/relacy/relacy/scheduler.hpp:267-287 | The search in running_threads and the bookkeeping, equal to the model's step. |
| Scheduler.SchedulerImpl.UnblockThread | code/relacy/relacy/scheduler.hpp:289-301 | Equal to the model's step. |
| Scheduler.SchedulerImpl.OnBlock | code/relacy/relacy/full_search_scheduler.hpp:328-348 | The loop over the row, equal to the model's step. |
| Scheduler.SchedulerImpl.PurgeBlockedThreads | code/relacy/relacy/full_search_scheduler.hpp:247-253 | The loop over all threads, equal to the model's step. |
| Scheduler.SchedulerImpl.YieldToOthers | code/relacy/relacy/full_search_scheduler.hpp:95-119 | The loop over all threads, equal to the model's step. |
| Scheduler.SchedulerImpl.Schedule | code/relacy/relacy/full_search_scheduler.hpp:121-241 | Accounting, then the choice of the next thread from the random answers. |
| Scheduler.SchedulerImpl.UnparkThread | code/relacy/relacy/scheduler.hpp:160-191 | Unblocks the thread and takes it out of the spurious and timed lists. |
| Scheduler.SchedulerImpl.ParkCurrentThread | code/relacy/relacy/scheduler.hpp:141-158 | Enters the lists, blocks the thread and reports a deadlock. |
| Scheduler.SchedulerImpl.ThreadFinished | code/relacy/relacy/scheduler.hpp:193-222 | Blocks, marks and counts the thread, and settles what follows. |
| Scheduler.SchedulerImpl.CreateThread | code/relacy/relacy/scheduler.hpp:224-230 | Starts the last dynamic thread. |
| Scheduler.SchedulerImpl.SetAsideDynamic | code/relacy/relacy/scheduler.hpp:97-101 | The loop of iteration_begin that blocks the dynamic threads. |
| WaitSets.WaitSet.Remove | code/relacy/relacy/waitset.hpp:168-183 | Finds the thread and shifts the rest down: the same threads in the same order without it. |
| WaitSets.WaitSet.UnparkOne | code/relacy/relacy/waitset.hpp:92-106 | Takes out the thread at the random position, nobody if the set is empty. |
| WaitSets.WaitSet.UnparkAll | code/relacy/relacy/waitset.hpp:108-120 | Takes out everybody, in order, although the index steps back after each removal. |
| WaitSets.WaitSet.Enter | code/relacy/relacy/waitset.hpp:40-43 | Appends the thread. |
| WaitSets.RoomFor | code/relacy/relacy/waitset.hpp:40 | A thread that is not parked finds room in the fixed-size array. |
| RwMutex.Always | code/relacy/relacy/stdlib/mutex.hpp:127-438 | In every reachable state of any number of threads: free, shared and exclusive exclude each other, shared_lock_count_ is the sum of shared_owner_, the wait sets hold exactly the parked threads, no waiter holds the mutex, and a parked writer means that the mutex is held or an unparked writer has yet to retry. Without timed locks a parked reader means an exclusive owner, a waiting writer or an unparked writer. |
| RwMutex.MutualExclusion | code/relacy/relacy/stdlib/mutex.hpp:158-166 | While a writer holds the mutex nobody else does. |
| RwMutex.NobodyIsStranded | code/relacy/relacy/stdlib/mutex.hpp:273-274 | No lost wakeup: when nobody holds the mutex and no unparked writer has yet to retry, nobody is parked. |
| RwMutex.ReadersKeptExactly | code/relacy/relacy/stdlib/mutex.hpp:173-177 | Over every run with timed locks, no parked reader is ever lost if and only if in no step the last waiting writer times out while readers are parked, no writer owns the mutex and none has yet to retry. |
| RwMutex.TimeoutLosesReaders | code/relacy/relacy/stdlib/mutex.hpp:173-177 | One step of it: a writer's timeout keeps parked readers covered exactly when there are none, or a writer owns the mutex, still waits or is about to retry. |
| RwMutex.StrandedReader | code/relacy/relacy/stdlib/mutex.hpp:434 | With timed locks a reader can stay parked on a mutex that nobody holds or waits for: a concrete run. |
| RwMutex.HoldingSyncs | code/relacy/relacy/stdlib/mutex.hpp:158-163 | A thread that begins to hold the mutex has acquired its sync_var, and one that stops holding it has released it, recursion included. |
| RwMutex.LocksAndUnlocks | code/relacy/relacy/stdlib/mutex.hpp:147-152 | Over every run what a thread owes is the number of its successful locks minus that of its unlocks, recursive ones included: k locks are undone by exactly k unlocks. |
| RwMutex.HoldsWhileAhead | code/relacy/relacy/stdlib/mutex.hpp:258-270 | A thread holds the mutex exactly while it has locked it more often than unlocked it, and the mutex is free exactly when that is so for nobody. |
| RwMutex.WriterGetsIn | code/relacy/relacy/stdlib/mutex.hpp:127-245 | When lock_exclusive succeeds, parks or is reported, and when try_lock_exclusive succeeds or fails, exactly. |
| RwMutex.ReaderGetsIn | code/relacy/relacy/stdlib/mutex.hpp:280-396 | When lock_shared succeeds, parks or is reported, and when try_lock_shared succeeds or fails, exactly. |
| RwMutex.UnlocksSucceed | code/relacy/relacy/stdlib/mutex.hpp:247-438 | An unlock succeeds exactly for a thread that holds the mutex in that way; whom it wakes, exactly. |
| RwMutex.OwnedStep | code/relacy/relacy/stdlib/mutex.hpp:127-438 | Every operation keeps owner, recursion count, shared counts and settings in agreement. |
| RwMutex.MutexData.LockExclusive | code/relacy/relacy/stdlib/mutex.hpp:127-184 | lock_exclusive up to where it parks or returns, with its error cases; the RL_VERIFY checks hold. |
| RwMutex.MutexData.LockExclusiveLoop | code/relacy/relacy/stdlib/mutex.hpp:156-183 | One round of the loop: take the free mutex or park. |
| RwMutex.MutexData.TryLockExclusive | code/relacy/relacy/stdlib/mutex.hpp:186-245 | Including the one spurious failure. |
| RwMutex.MutexData.UnlockExclusive | code/relacy/relacy/stdlib/mutex.hpp:247-278 | Wakes one writer, or else all readers. |
| RwMutex.MutexData.LockShared | code/relacy/relacy/stdlib/mutex.hpp:280-334 | lock_shared with writer preference and recursion. |
| RwMutex.MutexData.TryLockShared | code/relacy/relacy/stdlib/mutex.hpp:336-396 | try_lock_shared. |
| RwMutex.MutexData.UnlockShared | code/relacy/relacy/stdlib/mutex.hpp:398-438 | The last reader frees the mutex and wakes one writer. |
| RwMutex.MutexData.UnlockExclusiveOrShared | code/relacy/relacy/stdlib/mutex.hpp:440-446 | Chooses by ownership. |
| RwMutex.MutexData.TimedOut | code/relacy/relacy/stdlib/mutex.hpp:173-177 | A timed writer that gives up leaves the wait set and acquires. |
| LockDiscipline.DisciplineOrders | code/relacy/relacy/stdlib/mutex.hpp:156-184 | If a variable is stored to only by exclusive owners of a mutex and loaded only by its owners, every access of it is ordered after all accesses it conflicts with, whatever else the threads do. |
| LockDiscipline.DisciplineMeansNoReport | code/relacy/relacy/var.hpp:351-377 | Under that discipline the detector accepts every store and every load of an initialised variable. |
| Semaphore.Always | code/relacy/relacy/stdlib/semaphore.hpp:149-233 | Over all runs count_ = initial + accepted posts - permits taken, a parked thread implies count_ = 0, and the count stays within its bound. |
| Semaphore.ConservedExactly | code/relacy/relacy/stdlib/semaphore.hpp:214-216 | Permits are conserved over every run if and only if the initial count, which nothing checks, is at most INT_MAX + 2. |
| Semaphore.BoundedExactly | code/relacy/relacy/stdlib/semaphore.hpp:214 | The count never exceeds max_count_ if and only if it does not at the start. |
| Semaphore.AcceptedExactly | code/relacy/relacy/stdlib/semaphore.hpp:214 | A post is accepted exactly when it is below INT_MAX and the permits fit under the maximum, or the 32-bit sum has wrapped around and fits; up to INT_MAX + 2 it does not wrap. |
| PermitOrder.PostHappensBeforeTake | code/relacy/relacy/stdlib/semaphore.hpp:206-233 | For every program: everything a thread has done before an accepted post happens before everything that a thread does after it has taken a permit in that post or later. |
| PermitOrder.PostThenTake | code/relacy/relacy/stdlib/semaphore.hpp:217-225 | The acq_rel of an accepted post on the sync_var comes before, and happens before, the acq_rel of each thread that takes a permit in that post or later. |
| Semaphore.NoOverflow | code/relacy/relacy/stdlib/semaphore.hpp:214 | The 32-bit sum that post compares does not wrap while the count is at most INT_MAX + 2. |
| Semaphore.WrapAround | code/relacy/relacy/stdlib/semaphore.hpp:214-217 | From INT_MAX + 3 on, one accepted post wraps the count to 0. |
| Semaphore.HandOffKeeps | code/relacy/relacy/stdlib/semaphore.hpp:220-225 | The hand-off serves distinct parked threads, each either served or still parked. |
| Semaphore.ValueMeans | code/relacy/relacy/stdlib/semaphore.hpp:235-245 | get_value is the free permits when nobody is parked and minus the number of parked threads otherwise. |
| Semaphore.ValueCheckedExactly | code/relacy/relacy/stdlib/semaphore.hpp:241 | The check in get_value never fails over all runs if and only if the initial count passes it. |
| Semaphore.SemaData.Post | code/relacy/relacy/stdlib/semaphore.hpp:206-233 | Up to INT_MAX + 2 it succeeds exactly if the permits fit, above only after a wrap; hands one permit to each thread it unparks, which takes it at once; the memory events in order: the poster's acq_rel, then those of the threads it serves, or an acquire if refused. |
| Semaphore.SemaData.Wait | code/relacy/relacy/stdlib/semaphore.hpp:149-175 | Takes a permit with acq_rel, fails with acquire, or parks. |
| Semaphore.SemaData.GetValue | code/relacy/relacy/stdlib/semaphore.hpp:235-247 | The count minus the parked threads, non-negative exactly when nobody is parked; checks that the count fits an int, and acquires. |
| MemoryManager.ReusableAfter63 | code/relacy/relacy/memory.hpp:102-109 | A deferred block waits in the ring during the next 62 deferred frees and is free from exactly the 63rd on. |
| MemoryManager.NeverReusedEarly | code/relacy/relacy/memory.hpp:51-62 | A deferred block is not given out again with fewer than 63 deferred frees in between. |
| MemoryManager.RingFree | code/relacy/relacy/memory.hpp:102-109 | The ring holds the last 63 deferred blocks and no others, after every free. |
| MemoryManager.MemoryMgr.Alloc | code/relacy/relacy/memory.hpp:46-84 | Gives out a free block of exactly that size or a new one, never a live or deferred one; fails exactly when there is none and the system gives none. |
| MemoryManager.MemoryMgr.FreeMemory | code/relacy/relacy/memory.hpp:86-116 | Fails exactly for a pointer that is neither null nor live; otherwise the block goes to its free list or into the ring. |
| MemoryManager.MemoryMgr.RlFreeImpl | code/relacy/relacy/memory.hpp:189-206 | The block enters the free list of its size, which is created if missing. |
| MemoryManager.MemoryMgr.Defer | code/relacy/relacy/memory.hpp:102-109 | One slot of the array is stale; the slot after the new one is freed if it is not null. |
| MemoryManager.MemoryMgr.IterationEnd | code/relacy/relacy/memory.hpp:133-136 | True exactly when no block is live. |
| WorkStealing.Always | code/relacy/example/ws_deque/ws_deque.cpp:41-127 | The invariant over every interleaving of one owner and any number of thieves, across resizes. |
| WorkStealing.EachItemOnce | code/relacy/example/ws_deque/ws_deque.cpp:41-127 | No item is returned more often than it was pushed; when no operation is in flight the pushed items are the returned ones and those in the array from head to tail. |
| WorkStealing.OwnerRefines | code/relacy/example/ws_deque/ws_deque.cpp:41-105 | Push adds its item last and pop removes the last one, each in one step; the item read later is the removed one; a pop that returns false has found the deque empty. |
| WorkStealing.StealRefines | code/relacy/example/ws_deque/ws_deque.cpp:107-127 | A steal removes the first item in one step exactly when its index is below the tail, and reads that item. |
| WorkStealing.StealReads | code/relacy/example/ws_deque/ws_deque.cpp:116 | The strict test of push keeps the slot of a half-finished steal from being overwritten. |
| WorkStealing.PopFinds | code/relacy/example/ws_deque/ws_deque.cpp:84-103 | A pop that finds the head at or below its index finds an item; under the lock, one that does not finds the deque empty. |
| WorkStealing.StealFinds | code/relacy/example/ws_deque/ws_deque.cpp:113 | A steal that finds its index below the tail finds an item, although a pop may have lowered the tail. |
| WorkStealing.CountIsSize | code/relacy/example/ws_deque/ws_deque.cpp:35-39 | The unsigned subtraction in Count cannot wrap where push uses it. |
| WorkStealing.CopyReads | code/relacy/example/ws_deque/ws_deque.cpp:59-60 | The copy loop of the resize reads the resident items in order. |
| WorkStealing.AndIsModulo | code/relacy/example/ws_deque/ws_deque.cpp:46 | Masking an index takes it modulo the array size, for masks of ones. |
| WorkStealing.OwnerEnds | code/relacy/example/ws_deque/ws_deque.cpp:41-105 | Every step of the owner inside an operation brings it nearer to its end unless it waits for the lock, for which it asks exactly when a push finds no room before the spare slot and a pop finds the head beyond its index. |
| WorkStealing.StealsEnd | code/relacy/example/ws_deque/ws_deque.cpp:107-127 | Every step of a thief inside a steal brings it nearer to its end, and a steal begins whenever nobody has the lock. |
| HazardStack.Always | code/relacy/example/smr/smr.cpp:37-152 | The invariant over every interleaving of any number of threads, with addresses reused at once. |
| HazardStack.NoFault | code/relacy/example/smr/smr.cpp:52-103 | No step touches or deletes a node that is not allocated, and the search for a free slot never fails. |
| HazardStack.Refines | code/relacy/example/smr/smr.cpp:37-74 | Push and pop refine an atomic stack: each takes effect in one step, the data read is that of the node popped, no ABA, and a pop that finds nothing has seen the stack empty. |
| HazardStack.PopInstallsSecond | code/relacy/example/smr/smr.cpp:59-61 | A successful pop removes the node it protects and installs the node that is second at that moment. |
| HazardStack.PumpMakesRoom | code/relacy/example/smr/smr.cpp:76-103 | Pigeonhole: after smr_pump at most thread_count - 1 deferred nodes remain. |
| HazardStack.DeferKeeps | code/relacy/example/smr/smr.cpp:105-132 | The branch that deletes at once is never taken, and a free slot is found, for every thread count. |
| HazardStack.NobodyUses | code/relacy/example/smr/smr.cpp:84-102 | A deferred node that the whole snapshot does not contain is used by no thread. |
| HazardStack.NothingLeaks | code/relacy/example/smr/smr.cpp:37-132 | When no operation is under way every allocated node is in the stack or in some thread's deferred slots. |
| HazardStack.OperationsEnd | code/relacy/example/smr/smr.cpp:37-132 | Every step inside an operation brings it nearer to its end unless another thread has changed the head that was read or a weak compare-exchange fails by chance; an idle thread announces no node. |
| ProxyCollector.Always | code/relacy/example/proxy_collector/proxy_collector.cpp:91-188 | The invariant, with the signed reference count equation, over every interleaving of any number of threads. |
| ProxyCollector.NoFault | code/relacy/example/proxy_collector/proxy_collector.cpp:104-188 | No destroyed region is accessed, the check that a region to be destroyed has count 1 holds, and no two live installations share an address. |
| ProxyCollector.DestroyedSafely | code/relacy/example/proxy_collector/proxy_collector.cpp:132-188 | When a region is taken on for destruction so are all earlier ones, and every acquirer of it or of an earlier region has released. |
| ProxyCollector.DestroyedOnce | code/relacy/example/proxy_collector/proxy_collector.cpp:132-188 | Each installation is taken on by one thread, destroyed at most once, by that thread, and never acquired or released afterwards. |
| ProxyCollector.NothingLeaks | code/relacy/example/proxy_collector/proxy_collector.cpp:104-188 | When no operation is under way and the acquirers of replaced regions have released, every region but the current one has been destroyed. |
| ProxyCollector.OrderIffNeverDisturbed | code/relacy/example/proxy_collector/proxy_collector.cpp:161-181 | Over every run, regions are destroyed in installation order if and only if no thread ever destroys one while another thread is inside sys_dtor over an earlier one. |
| ProxyCollector.NextIffUndisturbed | code/relacy/example/proxy_collector/proxy_collector.cpp:161-181 | In every reachable state, the destruction about to happen is the next one in installation order exactly when no other thread is inside sys_dtor over an earlier region. |
| ProxyCollector.LaterCanGoFirst | code/relacy/example/proxy_collector/proxy_collector.cpp:161-181 | The disturbance is reached: a run in which a region is destroyed while an earlier one, taken on by another thread, is not yet. |
| ProxyCollector.OperationsTakeEffect | code/relacy/example/proxy_collector/proxy_collector.cpp:91-188 | Every step inside an operation takes effect unless the anchor is not what was read or a weak compare-exchange fails by chance: an acquire counts at the head, a mutate installs, links and hands the count over, sys_dtor goes on or destroys; a release counts at once. |
| EventCount.StepKeeps | code/relacy/example/tbb_eventcount/eventcount.cpp:360-519 | Every step of waiters and notifiers keeps the invariant of flags, permits and lists, and keeps all pointers in order. |
| EventCount.OnePermit | code/relacy/example/tbb_eventcount/eventcount.cpp:440-519 | A waiter has exactly one permit, posted or owed by exactly one notifier, if a notifier took it out and it has not consumed the permit, and none otherwise. |
| EventCount.NobodyIsForgotten | code/relacy/example/tbb_eventcount/eventcount.cpp:379-388 | A waiter that blocks is in the wait set or has been taken out by a notifier that owes it the post; one that pumps a spurious wakeup has its permit or is owed it. |
| EventCount.ListsAreSound | code/relacy/example/tbb_eventcount/eventcount.cpp:459-519 | In every reachable state, however many posted nodes have been pushed again: the wait set is linked in both directions from head to tail and its size is right; so is every notifier's own list; what a notifier in its posting loop still has to post is linked to its own tail. No node is pushed while in a list or removed while not in the wait set, and no pointer leads nowhere. |
| EventCount.LoopFollowsList | code/relacy/example/tbb_eventcount/eventcount.cpp:486-492 | The posting loop, which follows next pointers alone, stops exactly when nobody is left to post, and otherwise holds the first that is left and the pointer of the one after it. |
| EventCount.PostsWhatItTakes | code/relacy/example/tbb_eventcount/eventcount.cpp:440-519 | Over every run, a notifier has posted each thread as often as it has taken it out of the wait set, but for the one post it still owes. |
| EventCount.PostedNodeLeadsElsewhere | code/relacy/example/tbb_eventcount/eventcount.cpp:489-491 | Why next is read before the post: the node of a waiter that has pushed itself again points into the wait set, never to a node that a notifier still has to post nor to the end of its list. |
| EventCount.NotifyAllReachesAll | code/relacy/example/tbb_eventcount/eventcount.cpp:495-519 | Whoever is in the wait set when a notify_all passes its size test has been taken out of it by the time the call is over, by a notifier that then owes it a post or by its own cancel. |
| EventCountCalls.NotifyOneWakesFirst | code/relacy/example/tbb_eventcount/eventcount.cpp:440-457 | A notify_one that is over and found somebody at its size test has taken out and posted exactly the first of the wait set at its pop, or the others had emptied the wait set before that. |
| EventCountCalls.NotifyWakesThoseChosen | code/relacy/example/tbb_eventcount/eventcount.cpp:460-493 | A notify that is over and found somebody has asked the predicate about everybody in the wait set when it got the lock, in order, and has taken out and posted exactly those with the answer yes, the last one first. |
| EventCountCalls.NotifyAllWakesAll | code/relacy/example/tbb_eventcount/eventcount.cpp:495-519 | A notify_all that is over and found somebody has taken out and posted exactly everybody in the wait set when it got the lock, in order. |
| EventCountCalls.CallsEnd | code/relacy/example/tbb_eventcount/eventcount.cpp:360-519 | In every reachable state every step inside a call brings it nearer to its end, at most 9 + 8n steps in all, unless the thread waits for the lock or its semaphore. |
| EventCountCalls.PreparedIsListed | code/relacy/example/tbb_eventcount/eventcount.cpp:360-377 | A thread that has prepared to wait is in the wait set or has been notified since; only threads about to wait or to cancel are in it. |
| EventCountCalls.WaitEndsByNotify | code/relacy/example/tbb_eventcount/eventcount.cpp:379-388 | A thread that commits while it is in the wait set does not return before a notifier has taken it out, which then owes it a post. |
| LinkedList.RestStep | code/relacy/example/tbb_eventcount/eventcount.cpp:272-280 | One step of a traversal: the next pointer is null exactly at the tail, and otherwise leads to the following node, from which the rest is again a path to the tail. |
| LinkedList.PushWhole | code/relacy/example/tbb_eventcount/eventcount.cpp:218-226 | Pushing a node that is not in the list gives the whole list with it in front; other pointers stay. |
| LinkedList.RemoveWhole | code/relacy/example/tbb_eventcount/eventcount.cpp:237-243 | Removing a node gives the whole list without it, in order; pointers outside the list stay. |
| LinkedList.FlushWhole | code/relacy/example/tbb_eventcount/eventcount.cpp:255-270 | Moving all nodes to an empty list gives that list the same nodes in order and leaves the first one empty; pointers outside the two stay. |
| LinkedList.DList.Push | code/relacy/example/tbb_eventcount/eventcount.cpp:218-226 | Pushes at the front; pointers of other lists stay. |
| LinkedList.DList.Remove | code/relacy/example/tbb_eventcount/eventcount.cpp:237-243 | Unlinks a node; pointers of other lists stay. |
| LinkedList.DList.Pop | code/relacy/example/tbb_eventcount/eventcount.cpp:228-235 | Takes the first node, if there is one; pointers of other lists stay. |
| LinkedList.DList.FlushTo | code/relacy/example/tbb_eventcount/eventcount.cpp:255-270 | Moves all nodes, in order, to an empty list and leaves this one empty; pointers outside the two stay. |
| Peterson.MutualExclusion | code/relacy/example/peterson/peterson.cpp:68-96 | With a relaxed flag store and an acq_rel exchange, stale reads allowed and unbounded spinning, no run of the modelled memory has both threads between loop exit and final store. |
| Peterson.NoRaceReported | code/relacy/example/peterson/peterson.cpp:79 | The detector accepts each thread's store to data. |
| Peterson.ExchangeSyncs | code/relacy/example/peterson/peterson.cpp:73 | The second exchange reads the first and acquires what it released. |
| Peterson.FlagIsSeen | code/relacy/example/peterson/peterson.cpp:75 | The second thread reads the first one's flag as set until it has been reset. |
| Peterson.FirstIsOutAlways | code/relacy/example/peterson/peterson.cpp:75-81 | If the second thread to exchange has left its loop, the first has stored its flag back, and its store to data happens before what the second does next. |
| Peterson.LoopGoesOnBothOnly | code/relacy/example/peterson/peterson.cpp:75-77 | A thread is in the critical section right after its load of the other flag exactly if the memory held 0 there, and right after its load of turn exactly if that did not tell it to wait; otherwise it goes on looping. |
| Peterson.NobodyIsStuck | code/relacy/example/peterson/peterson.cpp:68-96 | In every run a thread that has not finished can go on: the operation that reads the newest record is legal and leads where the algorithm goes on a memory without stale reads. |
| Peterson.LastThreadFinishes | code/relacy/example/peterson/peterson.cpp:75-81 | Once the other thread is out, a thread in its loop that reads the newest record gets in and out, and nothing is reported. |
| Peterson.BothGetThrough | code/relacy/example/peterson/peterson.cpp:68-96 | There is a run with contention in which both threads get through. |

## Left out

- Memory orders: `consume` is treated as acquire, as the code does for its operations; the Java and CLI modes, `RL_IMPROVED_SEQ_CST_FENCE`, `RL_IMPROVED_SEQ_CST_RMW`, `atomic_init` and `strong_init` are not modelled.
- Machine wrap-around of timestamps, `current_index_` and deque indices: unbounded naturals; the all-ones value of `first_seen_order_` is a separate `Never`. The ring mapping by `% 3` would not survive a wrap of the 32-bit index.
- Detector.AtomicData.Append: history records are held as values in the ring array, so that aliasing between the clock arrays of different records is not modelled.
- Reads made while a test invariant is executing (`atomic.hpp:459-467`), futex waits, and event histories.
- Search.Simulate: a test is a finite choice tree; tests with infinitely many choices, the execution depth limit, the iteration-count estimate and the progress output are not modelled. Numbers in the printed state are unbounded.
- `random_scheduler` and `context_bound_scheduler`: easy members beside the exhaustive search.
- Scheduler.SchedulerImpl.Schedule: the arrays are sequences that methods reassign, so that aliasing is not modelled; the random answers are parameters; `can_switch` is always true, as in the exhaustive scheduler. RL_VERIFY is a `failed` field, and execution goes on after it.
- Scheduler.NobodyExactly: the random answers are taken as given; the index of a timed waiter is assumed to be in range when nobody runs, as `schedule_impl` draws it.
- RwMutex.Always: waits on several objects at once, condition variables, destruction of an owned mutex and the signature check are not modelled; the thread that calls is not parked on the same mutex.
- Semaphore.SemaData.Post: multi-object waiters, whose removal may be refused, are not modelled.
- WaitSets.WaitSet.Remove: multi-object descriptors are not modelled.
- WaitSets.WaitSet.UnparkOne: a multi-object waiter whose removal is refused, and the search for another one, are not modelled.
- WaitSets.WaitSet.UnparkAll: multi-object waiters are not modelled.
- MemoryManager.MemoryMgr.Alloc: the garbage-collecting build, `output_allocs` and a user overwriting the size header are not modelled; malloc is a parameter that gives a new block or null.
- WorkStealing.Always: sequentially consistent interleaving only; the relaxed and acquire/release orders of the deque on the modelled memory are not covered. `IsEmpty` and the deletion of the old array are left out. The variants with `<=` in other directories, where the array can be completely full, are not covered.
- HazardStack.Always: sequentially consistent interleaving only.
- ProxyCollector.Always: sequentially consistent interleaving only; the `defer` lists of single nodes, which the shipped test does not use, are left out; a reference may be released by any thread.
- EventCount.StepKeeps: sequentially consistent interleaving only; epochs, which the code writes but does not read, and the contexts passed to the predicate are left out, the predicate's answer being arbitrary; the wait guard and the programs built on the eventcount are not modelled. In `cancel_wait` the accesses under the lock are one step, and so is each list operation; the list size is part of the operation that changes it.
- LinkedList.DList.Remove: the list size is not a separate atomic variable; the position of the node is a ghost parameter.
- Peterson.MutualExclusion: the first test of that file, with seq_cst operations, is not modelled, being weaker.
- Fibers, platform layers, thread-local storage, slab allocation, condition variables, events, the single-shot litmus programs, and the remaining example programs.
