# Threads, a caching web server and a word counter, verified

Dafny models of the operating-systems course repository's hardest code, with proofs of what the code is for:

* **The preemptive thread library** (`threads_3/thread.c`, `threads_3/queue.c`). `ThreadSystem.dfy` describes it as a
  transition system over a 1024-slot table: every stretch of code that runs with interrupts off is one step, a timer
  interrupt may come wherever the mask is on, and each thread has a call stack of library functions with the masks they
  have saved. `ThreadInvariants`, `ThreadSteps` and `ThreadProgress` prove what each step keeps, `ThreadCalls` what each
  call does for its caller; `ThreadTheorems` and `ThreadFates` prove what holds on every run. `ThreadReturns`,
  `ThreadWaits`, `ThreadInterrupts` and `ThreadBlocking` follow a suspended thread through the run until it comes back from
  its call or its interrupt, and `ThreadSignals` says when a signal can be lost in `cv_wait`. `ThreadLibrary.dfy` is the same library in the form of the C code, a class with tables, loops and
  explicit masking, and every one of its methods is proved to make the step that the transition system describes; `Play`
  carries that over to whole schedules, so every theorem about runs is about that code.
* **Linked queues** (`threads_2/queue.c`, `threads_3/queue.c`, `webserver_5/queue.c`). `FifoQueue`, `FilesizeQueue` and
  `RequestQueue` relink heap nodes in place and are proved against operations on sequences.
* **The file cache** (`webserver_5/hash_table.h`). `CacheModel.dfy` has the cache as a value, the agreement between its
  table, its list of sizes and its byte counter, and the optimality of eviction. `EntryList` and `FileCache` are the
  linked buckets and the whole cache on the heap, proved equal to the value operations.
* **The web server** (`webserver_5/server_thread.c`). `ServerSystem.dfy` is one main thread and any number of workers with
  a program counter each, a mutex, two condition variables with spurious wakeups, the bounded queue and the shared cache;
  `ServerInvariants` and `ServerTheorems` cover all interleavings, `ServerProgress` shows that the threads finish what was
  accepted, and `ServerShutdown` when `server_exit` ends. `ServerThread.dfy` has the bodies of the threads over the heap queue and the heap cache.
* **The buffered line reader** (`webserver_5/common.c`). `RioReader.dfy` refines reading lines off a plain stream,
  whatever pieces the descriptor hands out.
* **The word counter** (`warmup/wc.c`). `Words.dfy` says which words the scanning loop passes on and when these are the
  words of the text; `WordCount.dfy` has the loop and the hash table of linked entries.

Where comments and code of the repository disagree, the models follow the code. Each of the following is a theorem with
its exact condition, or part of the modelled operation:

* `thread_wakeup` returns the number of threads it woke, not whether it woke one;
* `thread_wait` also returns when `thread_sleep` refused to sleep, so the awaited thread need not have exited;
* `lock_acquire` hangs the whole program if the lock is taken and no other thread is ready;
* `lock_release` does not check that the lock is held, only that its last acquirer calls, so a second release passes;
* `cv_wait` releases the lock before it sleeps, and a signal in between is lost; a signal can also be spent on a thread that
  was killed in its sleep;
* a file exactly as large as the cache is cached, and an empty file that is to be cached crashes the server, since
  `file_data_copy` reads the buffer that `request_readfile` did not allocate;
* every hit adds the file again, and `add_to_hash_table` evicts before it notices the duplicate;
* the assertion behind "should succeed because the queue is nonfull" fails for a negative bound, which `server_init` takes
  but the program's `main` refuses (`webserver_5/server.c:74-77`), and a bound of zero makes main thread and workers wait
  for each other;
* the broadcast of `server_exit` can miss a worker on the way into its sleep, and then the join never ends;
* `server_exit` deletes the cache also if its size is zero and it was never created, which crashes;
* `rio_readlineb` puts its terminator behind the buffer when a line fills it;
* the word counter's loop never looks at the last character of its text.

A type `Tid` ranges over the slots 0 to 1023. `int` stands for the C integers: all counters that are modelled are
bounded by a table size, a queue bound or the cache size, so none of them can wrap around. `hash_fn` is an arbitrary
function into the buckets.

## Model

| member | source | states |
|---|---|---|
| ThreadTheorems.ExactlyOnePlace | threads_3/thread.c:101-414 | in every reachable state each thread is, as its state says, on the processor, once in the ready queue, once in exactly one wait queue, or nowhere |
| ThreadTheorems.MutualExclusion | threads_3/thread.c:464-492 | two threads never hold the same lock, and the lock's fields name the holder, under every schedule with kills and reused slots |
| ThreadCalls.AcquireDoes | threads_3/thread.c:464-478 | lock_acquire takes exactly a free lock at once, with the caller's mask; else the caller goes to the end of that lock's queue and the head of the ready queue runs, or, with nobody ready, it stays; nothing else changes |
| ThreadCalls.ReacquireDoes | threads_3/thread.c:470-478 | the same whenever a thread goes on in the loop, or enters it at the end of cv_wait |
| ThreadBlocking.AcquireReturnsHolding | threads_3/thread.c:464-478 | on every run, when lock_acquire first comes back its caller holds the lock, the lock names it, and the mask is the caller's |
| ThreadBlocking.AcquireSleepsInItsQueue | threads_3/thread.c:470-472 | on every run, until then the caller sleeps in the queue of that lock or not at all |
| ThreadBlocking.CallGivesMaskBack | threads_3/thread.c:101-573 | whatever a thread calls, on every run it finds its own mask when it first comes back |
| ThreadTheorems.AcquireReturnsWithLock | threads_3/thread.c:464-478 | lock_acquire comes back at once exactly if the lock was free, and otherwise leaves everybody's locks alone |
| ThreadTheorems.ReacquireReturnsWithLock | threads_3/thread.c:470-478 | the same behind every wakeup in the loop, and for the acquisition at the end of cv_wait |
| ThreadTheorems.AcquireHangsExactly | threads_3/thread.c:464-478 | lock_acquire keeps its caller on the processor on every run, with interrupts off and nothing changing any more, if and only if the lock is taken and no other thread is ready |
| ThreadFates.HeldUntilOwnRelease | threads_3/thread.c:464-548 | a held lock stays held through any step of any thread until its holder itself releases it or the holder's slot gets a new thread |
| ThreadTheorems.NoLostLockWakeup | threads_3/thread.c:464-492 | in every reachable state a free lock has an empty wait queue |
| ThreadTheorems.WakeOrderIsSleepOrder | threads_3/thread.c:362-414 | over any run the threads woken from a wait queue are a prefix of those that slept on it, and the rest is the queue |
| ThreadCalls.WakeupDoes | threads_3/thread.c:390-414 | thread_wakeup moves all, one or none of the sleepers, in order, to the end of the ready queue, makes them ready except the killed ones, returns how many, and touches nobody else |
| ThreadTheorems.WakeupReachesExactly | threads_3/thread.c:390-414 | the wakeup of one thread, also that of cv_signal, makes a sleeping thread ready if and only if the queue is not empty and its head was not killed |
| ThreadFates.BoundedWaiting | threads_3/thread.c:176-240 | a thread with k others before it in the ready queue is dispatched before the head has been picked more than k times, whatever happens in between |
| ThreadFates.KilledUntilDispatch | threads_3/thread.c:225-235 | a killed thread stays killed, with its continuation untouched, through every step up to its dispatch, which leads into thread_exit |
| ThreadFates.KilledNeverResumes | threads_3/thread.c:303-321 | after a successful thread_kill no run ever gets the victim back to where it was: on the processor it only enters or leaves thread_exit |
| ThreadFates.MaskIsGivenBack | threads_3/thread.c:176-244 | between two moments in user code a thread finds interrupts as it left them, through any calls, interrupts and context switches |
| ThreadReturns.MaskIsAsSet | threads_3/thread.c:101-573 | after interrupts_set a thread in user code finds interrupts as it asked for them, on every run until it asks again |
| ThreadInterrupts.InterruptDoes | threads_3/interrupt.c:151-178 | whenever the timer fires the head of the ready queue takes over and the interrupted thread goes to the end; with nobody ready nothing changes |
| ThreadInterrupts.InterruptReturns | threads_3/thread.c:176-244 | on every run, when an interrupted thread is dispatched again it is on its way into thread_exit, or gets, itself uninterrupted, to the same place of its calls with the same return value and mask |
| ThreadTheorems.StacksNeitherLeakedNorFreedTwice | threads_3/thread.c:281-298 | the allocated stacks are exactly those of the used slots, each in one slot, and free was never called on anything else |
| ThreadTheorems.RunningStackIsAllocated | threads_3/thread.c:247-298 | the thread on the processor never has its stack freed under it |
| ThreadFates.FreedOnlyAfterExit | threads_3/thread.c:281-298 | a stack disappears, also in the step that ends the program, only if its thread had exited and is not the running one |
| ThreadTheorems.CreateFailsExactlyWhenFull | threads_3/thread.c:101-138 | thread_create returns THREAD_NOMORE exactly if all 1024 slots hold threads that have not exited, THREAD_NOMEMORY exactly if a slot but no memory is there, and else an available slot |
| ThreadTheorems.AssertionsFailOnMisuseOnly | threads_3/thread.c:176-561 | on every run an assertion fails exactly at a directed yield to a thread killed in its sleep, a release, wait or signal by a thread whose slot is not the lock's last acquirer, the destruction of a taken lock, or that of a condition variable that somebody waits for |
| ThreadTheorems.DoubleReleasePasses | threads_3/thread.c:480-492 | a holder that has released its lock can release it again: the assertion passes and nothing changes |
| ThreadSignals.CvWaitDoes | threads_3/thread.c:527-548 | cv_wait first frees the lock and makes its waiters ready, and then puts the caller at the end of the condition variable's queue while the head of the ready queue runs, or goes on if nobody is ready |
| ThreadBlocking.CvWaitReturnsHolding | threads_3/thread.c:527-548 | on every run, when cv_wait first comes back its caller holds the lock, the lock names it, and the mask is the caller's |
| ThreadBlocking.CvWaitSleepsFirst | threads_3/thread.c:541 | on every run, cv_wait comes back only after its caller has slept on the condition variable, or has run in it with nobody else ready |
| ThreadBlocking.CvWaitSleepsInItsQueues | threads_3/thread.c:541-547 | on every run, until then the caller sleeps on the condition variable, on the lock, or not at all |
| ThreadCalls.CvWakeDoes | threads_3/thread.c:550-573 | uninterrupted, cv_signal makes the first sleeper ready and cv_broadcast all of them, in order, and nothing else changes |
| ThreadBlocking.CvWakeReturns | threads_3/thread.c:550-573 | on every run, whatever comes between, each of them comes back by a step that does this to the queue of that moment |
| ThreadSignals.OvertakenExactly | threads_3/thread.c:527-548 | in cv_wait, between the release of the lock and the sleep, another thread can get the processor while the caller is not in the queue of the condition variable, exactly if the caller had interrupts enabled and some thread was ready or waited for the lock |
| ThreadSignals.MaskedWaitIsAtomic | threads_3/thread.c:527-548 | with interrupts off at the call, the caller is in the queue before anybody else runs, or, nobody else being ready, goes on to take the lock again without a signal |
| ThreadSignals.SignalCanBeLost | threads_3/thread.c:527-561 | a run from the start on which a thread signals while the caller of cv_wait is in the window, the wakeup is carried out and wakes nobody, and after that the caller goes to sleep |
| ThreadSteps.StepKeeps | threads_3/thread.c:101-573 | every step from a state that satisfies the invariant leads to such a state, to the end of the program, or exactly on misuse to a failed assertion |
| ThreadSteps.InitInv | threads_3/thread.c:75-94 | the state after thread_init satisfies the invariant |
| ThreadInvariants.FreeExitedExactly | threads_3/thread.c:290-295 | the cleanup loop frees the stacks of exited threads, each once, and no other |
| ThreadCalls.CreateDoes | threads_3/thread.c:101-174 | a successful thread_create puts one new thread with a stack of its own at the end of the ready queue, in the lowest available slot, and disturbs nobody |
| ThreadCalls.FailedCreateDoes | threads_3/thread.c:101-138 | a thread_create that fails starts nobody and moves nobody |
| ThreadReturns.NewThreadStarts | threads_3/thread.c:61-72 | on every run, when a new thread is first dispatched it was killed, or is in user code next, with interrupts enabled |
| ThreadCalls.YieldAnyDoes | threads_3/thread.c:176-244 | thread_yield(THREAD_ANY) runs the head of the ready queue and queues the caller at its end; alone, the caller gets THREAD_NONE |
| ThreadCalls.DirectedYieldDoes | threads_3/thread.c:176-244 | a directed yield runs exactly the thread asked for if it is queued, fails its assertion for one killed in its sleep, and else returns THREAD_INVALID |
| ThreadReturns.YieldReturns | threads_3/thread.c:176-244 | on every run, when a thread that yielded is dispatched again it is on its way into thread_exit, or nothing but itself can go on and it returns the id of the thread that ran, with its own mask back |
| ThreadReturns.SelfYieldReturns | threads_3/thread.c:176-244 | a thread that yields to itself goes on, uninterrupted, with its own id, and nothing has changed |
| ThreadCalls.KillDoes | threads_3/thread.c:303-321 | thread_kill marks the named thread and no other, exactly if it exists, has not exited and is not the caller |
| ThreadCalls.ExitDoes | threads_3/thread.c:247-279 | thread_exit makes everybody who waits for the caller ready, in order, reclaims the slots of earlier ones, touches nobody else, and ends the program exactly if nobody is ready |
| ThreadCalls.KilledExitDoes | threads_3/thread.c:225-235 | a killed thread that is dispatched can only do the same |
| ThreadCalls.ExitedGivesWay | threads_3/thread.c:276-278 | in the next step, whatever it is, the head of the ready queue runs and the exited thread is in no queue |
| ThreadCalls.SleepDoes | threads_3/thread.c:362-386 | thread_sleep puts the caller at the end of the wait queue and runs the head of the ready queue, touching nobody else, or says why not |
| ThreadReturns.SleepReturns | threads_3/thread.c:362-386 | on every run, when a sleeper is dispatched again it is on its way into thread_exit, or returns, uninterrupted, the id of the thread that ran when it went to sleep, with its own mask back |
| ThreadCalls.WaitDoes | threads_3/thread.c:417-429 | thread_wait puts the caller at the end of the queue for the awaited thread's exit, except that with no other thread ready it returns at once; a bad id is refused |
| ThreadWaits.WaitReturns | threads_3/thread.c:417-429 | on every run, when the caller is dispatched again it is on its way into thread_exit, or returns, uninterrupted, the id it waited for, with its own mask |
| ThreadWaits.WaitReturnsAfterExit | threads_3/thread.c:247-279 | on every run, whenever the caller of thread_wait runs again the awaited thread has exited, if some thread was ready or it had exited before |
| ThreadWaits.WaitsForExitExactly | threads_3/thread.c:417-429 | thread_wait suspends the caller until the awaited thread has exited, on all runs, if and only if at the call some thread is ready or the awaited one has exited |
| ThreadCalls.ReleaseDoes | threads_3/thread.c:480-492 | lock_release frees the lock and makes all its waiters ready, in order, and touches nothing else |
| ThreadCalls.LockComesAndGoes | threads_3/thread.c:440-462 | a new lock is free, and destroying it gives back the state before |
| ThreadCalls.DestroyLockDoes | threads_3/thread.c:453-462 | lock_destroy removes exactly a free lock and nothing else |
| ThreadCalls.DestroyCvDoes | threads_3/thread.c:511-521 | cv_destroy fails its assertion exactly if somebody waits, and changes nothing |
| ThreadReturns.ReleasedWaitersRun | threads_3/thread.c:480-492 | whoever waits for a lock when it is released is dispatched before the head of the ready queue has been picked more often than there are threads before it |
| ThreadLibrary.Library.constructor | threads_3/thread.c:75-94 | thread_init's tables are the initial state |
| ThreadLibrary.Library.ExitCleanup | threads_3/thread.c:281-298 | the loop over the slots reclaims exactly what the specification says |
| ThreadLibrary.Library.TakeSlot | threads_3/thread.c:106-126 | the loop takes the lowest unused slot, or none if there is none |
| ThreadLibrary.Library.Create | threads_3/thread.c:101-174 | thread_create makes the specified step, for any mask |
| ThreadLibrary.Library.Yield | threads_3/thread.c:176-244 | thread_yield makes the specified step, or fails its assertion when the specification does |
| ThreadLibrary.Library.SwitchTo | threads_3/thread.c:212-236 | the context switch changes both threads' states and redirects a killed successor |
| ThreadLibrary.Library.Exit | threads_3/thread.c:247-279 | thread_exit makes the specified step up to its final yield or the end of the program |
| ThreadLibrary.Library.Kill | threads_3/thread.c:303-321 | thread_kill makes the specified step |
| ThreadLibrary.Library.Sleep | threads_3/thread.c:362-386 | thread_sleep makes the specified step up to the context switch |
| ThreadLibrary.Library.WakeLoop | threads_3/thread.c:394-411 | the loop ends, and moves a block off the front of the queue in order |
| ThreadLibrary.Library.Wakeup | threads_3/thread.c:390-414 | thread_wakeup makes the specified step and returns the number woken |
| ThreadLibrary.Library.Wait | threads_3/thread.c:417-429 | thread_wait makes the specified step |
| ThreadLibrary.Library.Acquire | threads_3/thread.c:464-478 | lock_acquire makes the specified first turn of its loop |
| ThreadLibrary.Library.Release | threads_3/thread.c:480-492 | lock_release makes the specified step or fails its assertion |
| ThreadLibrary.Library.DestroyLock | threads_3/thread.c:453-462 | lock_destroy, with its masking, makes the specified step or fails one of its assertions |
| ThreadLibrary.Library.DestroyCv | threads_3/thread.c:511-521 | cv_destroy, with its masking, fails its assertion exactly if somebody waits |
| ThreadLibrary.Library.WaitOnCv | threads_3/thread.c:527-538 | cv_wait makes the specified step up to its call of lock_release |
| ThreadLibrary.Library.WakeCv | threads_3/thread.c:550-573 | cv_signal and cv_broadcast make the specified step up to their call of thread_wakeup, before which an interrupt may come, or fail their assertion |
| ThreadLibrary.Library.Continue | threads_3/thread.c:176-548 | a dispatched thread goes on inside every library function as specified |
| ThreadLibrary.Library.Handle | threads_3/thread.c:75-573 | any call, interrupt or resumption changes the tables as the transition system says |
| ThreadLibrary.Library.Play | threads_3/thread.c:75-573 | any schedule does, so that the theorems about runs hold of the tables |
| ThreadLibrary.Library.PopFrontReady | threads_3/queue.c:85-119 | takes the head of the ready queue exactly if there is one; that interrupts are off is a precondition here and in the other list operations, so their assertions hold at every call in the library |
| ThreadLibrary.Library.ReadyEmpty | threads_3/queue.c:32-43 | the emptiness test of the ready queue, with the same precondition, at its calls in thread_sleep and thread_exit |
| ThreadLibrary.Library.WaitEmpty | threads_3/queue.c:32-43 | the emptiness test of a wait queue, with the same precondition, at its calls in thread_wakeup, its loop and lock_destroy |
| FifoQueues.FifoQueue.PushBack | threads_3/queue.c:45-83 | appends; the list stays acyclic with the right tail |
| FifoQueues.FifoQueue.PopFront | threads_3/queue.c:85-119 | takes the front, refused exactly on an empty queue |
| FifoQueues.FifoQueue.RemoveNode | threads_3/queue.c:128-190 | unlinks the first occurrence only, and says whether there was one |
| FifoQueues.FifoQueue.Delete | threads_3/queue.c:194-214 | the loop ends with the queue empty |
| FifoQueues.FifoQueue.AtMostOne | threads_2/queue.c:16-19 | true exactly of queues with at most one node |
| FifoQueues.FifoQueue.MoveFrontToBack | threads_2/queue.c:112-142 | rotates the queue by one in place and returns the new front |
| FifoQueues.FifoQueue.MoveSelectedToFront | threads_2/queue.c:172-207 | puts the selected thread first after the rotation, relinking in place |
| FifoQueues.SelectedFirstOrder | threads_2/queue.c:172-207 | after that the selected thread is first, the old front last and the others in their old order; if only the front matched nothing changes |
| FifoQueues.SelectedFirstPermutes | threads_2/queue.c:172-207 | nobody is lost or doubled by it |
| CacheModel.EvictionOptimal | webserver_5/hash_table.h:264-279 | eviction frees the demand with the fewest files: its overshoot is below the last evicted size, and any smaller set of cached files has fewer bytes than demanded |
| CacheModel.EvictCountShortest | webserver_5/hash_table.h:264-279 | the evicted files are the shortest prefix of the descending list that meets the demand |
| CacheModel.EvictRemovesPrefix | webserver_5/hash_table.h:264-279 | table, list and counter lose exactly that prefix |
| CacheModel.FirstAreBiggest | webserver_5/queue.c:114-157 | no selection of n files has more bytes than the first n of the list |
| CacheModel.AgreeExactly | webserver_5/hash_table.h:46-51 | table and list agree if and only if names are unique and both hold the same (name, size) pairs |
| CacheModel.RoomSuffices | webserver_5/hash_table.h:117-122 | for a file no larger than the cache eviction never runs out of files and makes enough room, keeping agreement |
| CacheModel.RoomEvictsFewest | webserver_5/hash_table.h:112-122 | making room evicts a prefix of the list, and no shorter one would do |
| CacheModel.AddConsistent | webserver_5/hash_table.h:106-134 | an add keeps table, list and counter in agreement and within the bound, the added name is present afterwards, and the other files are those not evicted, unchanged |
| CacheModel.AddPlaces | webserver_5/hash_table.h:117-134 | a new file is entered once, behind all files at least as big, and counted; a file that is still there changes nothing more |
| CacheModel.AddCostsAnotherExactly | webserver_5/hash_table.h:106-134 | an add drops another file if and only if room is short and the biggest file is another one, or is this one's old copy and too small |
| CacheModel.AddAgainCostsAnotherExactly | webserver_5/hash_table.h:117-134 | adding a cached file again drops another file if and only if its size exceeds the free room and it is not the first of the list; with enough room the cache is unchanged |
| CacheModel.FirstFileComesBack | webserver_5/hash_table.h:117-134 | a cache with too little room in which the first file of the list is evicted and entered again, and nothing is changed |
| CacheModel.HitDropsAnother | webserver_5/server_thread.c:77-103 | a cache of two files in which the add behind a hit on the one drops the other |
| CacheModel.InsertKeepsOrder | webserver_5/queue.c:114-157 | insertion keeps the list descending and adds exactly the new entry |
| CacheModel.InsertPlace | webserver_5/queue.c:114-157 | the new entry goes behind exactly the entries that are at least as big |
| FilesizeQueues.FilesizeQueue.Insert | webserver_5/queue.c:114-157 | the linked list gets the entry before the first smaller one |
| FilesizeQueues.FilesizeQueue.PopFront | webserver_5/queue.c:161-178 | takes the biggest entry, refused exactly on an empty list |
| EntryLists.EntryList.Search | webserver_5/hash_table.h:214-239 | finds the entry of a name exactly if the list has one |
| EntryLists.EntryList.Add | webserver_5/hash_table.h:150-183 | adds the file at the end exactly if its name is not there |
| EntryLists.EntryList.Delete | webserver_5/hash_table.h:185-211 | unlinks the name's entry, returns its data, and leaves all other files |
| FileCaches.FileCache.constructor | webserver_5/hash_table.h:92-104 | the fresh cache is valid and empty |
| FileCaches.FileCache.FindInTable | webserver_5/hash_table.h:214-239 | returns the cached data exactly if the name is cached |
| FileCaches.FileCache.DeleteFromTable | webserver_5/hash_table.h:138-147 | removes one file from its bucket and its size from the counter |
| FileCaches.FileCache.EvictCache | webserver_5/hash_table.h:264-279 | the loop ends, its assertion holds in every round, and the cache is the evicted one |
| FileCaches.FileDataCopy | webserver_5/hash_table.h:18-31 | the copy of a file equals it; the file must have a buffer |
| FileCaches.FileCache.MakeRoom | webserver_5/hash_table.h:110-122 | evicts exactly as specified if the room is short, and the assertion behind it holds |
| FileCaches.FileCache.AddToTable | webserver_5/hash_table.h:106-134 | the heap cache becomes the value that add_to_hash_table specifies, in agreement and within the bound; the result tells a duplicate from an insertion |
| ServerTheorems.NoLostWakeup | webserver_5/server_thread.c:127-207 | with the mutex free a sleeping worker implies an empty queue and a blocked main thread a full one, although only boundary transitions broadcast |
| ServerTheorems.NeverBothBlocked | webserver_5/server_thread.c:127-207 | with a nonzero bound main thread and a worker are never blocked at once, at any point of any interleaving |
| ServerTheorems.BlockEachOtherExactly | webserver_5/server_thread.c:127-207 | main thread and a worker can be blocked at once if and only if there are workers and the bound is zero |
| ServerTheorems.NoDeadlock | webserver_5/server_thread.c:120-209 | while a connection waits and no shutdown is on, some thread can go on without a spurious wakeup |
| ServerProgress.EveryRequestIsAnswered | webserver_5/server_thread.c:61-209 | without new calls and spurious wakeups every run is bounded by a measure of the state, and when no thread can go on each connection is answered as often as it was accepted, unless the server crashed on an empty file that was to be cached |
| ServerTheorems.QueueAssertions | webserver_5/server_thread.c:138-201 | the assertion on the pop never fails, that on the push only for a negative bound |
| ServerTheorems.PushFailsExactly | webserver_5/server_thread.c:194-201 | the assertion on the push can fail if and only if there are workers and the bound is negative, which server_init accepts and main does not pass on |
| ServerTheorems.RequestsInOrder | webserver_5/server_thread.c:121-209 | pushed is popped followed by the queue, in order of acceptance, and the counter is the queue's length and within the bound |
| ServerTheorems.RequestsConserved | webserver_5/server_thread.c:61-209 | each accepted connection is, as often as it was accepted, in one thread's hands, in the queue or answered |
| ServerTheorems.PushHandsOver | webserver_5/server_thread.c:199-204 | the pushed connection goes to the end, and the sleeping workers are woken exactly if the queue was empty |
| ServerTheorems.PopTakesOver | webserver_5/server_thread.c:138-147 | the worker goes on with the first connection and frees the mutex, and a blocked main thread is woken exactly if the queue was full |
| ServerTheorems.CacheTransparent | webserver_5/server_thread.c:61-112 | every answer of any run is the one that a server without a cache gives |
| ServerTheorems.AnswersAreFiles | webserver_5/server_thread.c:61-112 | an answer is the file asked for, with the store's contents and their length, an empty one without a buffer, and none exactly if there is no such file |
| ServerTheorems.AddsAreSafe | webserver_5/server_thread.c:101-103 | whenever a file is added the cache is in agreement, the file fits, and it is the file in the store |
| ServerTheorems.ServedFilesAreCached | webserver_5/server_thread.c:100-103 | behind the add the cache has the file with the store's contents; one that is too big leaves the cache alone, and an empty one that is to be cached crashes the server |
| ServerTheorems.CrashesExactly | webserver_5/hash_table.h:18-31 | the copy for the cache reads a missing buffer on some run if and only if the cache size is not negative, an empty file is asked for and requests are served at all |
| ServerTheorems.MissingCacheUsedExactly | webserver_5/server_thread.c:78-103 | no request uses the cache that was not created for size zero: in every reachable state the only step that does is the deletion in server_exit, behind the join |
| ServerShutdown.NullCacheExactly | webserver_5/server_thread.c:227-228 | that crash can happen if and only if the cache size is zero |
| ServerShutdown.BroadcastMissesExactly | webserver_5/server_thread.c:211-224 | after the broadcast of server_exit some run has a sleeping worker, and some run without spurious wakeups comes to its end with one, if and only if at the broadcast a worker was between its test of the queue and its wait |
| ServerShutdown.ShutdownEnds | webserver_5/server_thread.c:211-232 | if none was, every run without spurious wakeups is bounded, and when no thread can go on all workers have ended and server_exit has returned, or has crashed on deleting a cache of size zero; only an empty file that is to be cached can come before that |
| ServerShutdown.NothingTakenAfterExit | webserver_5/server_thread.c:125-141 | once server_exit is called no connection leaves the queue on any run, unless a worker was already about to pop |
| ServerShutdown.MissedSleepsOn | webserver_5/server_thread.c:221-224 | a worker that was missed sleeps, and the main thread stays in its join, on every run without a spurious wakeup of that worker, whatever the others do |
| ServerShutdown.ShutdownHangsExactly | webserver_5/server_thread.c:211-224 | a server can reach that state if and only if it has workers |
| ServerShutdown.ShutdownCanMissAWorker | webserver_5/server_thread.c:211-224 | a run that does |
| ServerInvariants.ServeFaithful | webserver_5/server_thread.c:61-112 | each step of a request keeps the cache a mirror of the store and the request on its way to the right answer, and crashes exactly where an empty file is to be added to a cache of nonnegative size |
| ServerInvariants.HitsAreNotRead | webserver_5/server_thread.c:77-98 | a cached file is not read again but stored again, with the contents of the store, and every other one is read |
| ServerInvariants.StepMonitor | webserver_5/server_thread.c:120-209 | every step keeps mutex ownership, queue, tested conditions and wakeups in order |
| ServerThreads.DoServerRequest | webserver_5/server_thread.c:61-112 | over the heap cache the answer is the file in the store, the crash comes exactly for an empty file that is to be cached, any other file that fits is cached afterwards, and the cache stays in agreement |
| ServerThreads.DoUncachedRequest | webserver_5/server_thread.c:77-103 | without a cache the answer is the same, the crash comes exactly for an empty file, and the cache is never touched |
| ServerThreads.PushRequest | webserver_5/server_thread.c:199-206 | the push succeeds, and the broadcast comes exactly if the queue was empty |
| ServerThreads.PopRequest | webserver_5/server_thread.c:138-145 | the pop succeeds, and the broadcast comes exactly if the queue was full |
| RequestQueues.RequestQueue.PushBack | webserver_5/queue.c:25-60 | appends exactly if the bound is not reached; the counter stays the length |
| RequestQueues.RequestQueue.PopFront | webserver_5/queue.c:64-92 | takes the front exactly if there is one |
| RequestQueues.RequestQueue.Delete | webserver_5/queue.c:95-104 | the loop ends with the queue empty |
| RioReaders.Rio.Refill | webserver_5/common.c:119-129 | the refill loop ends and loses no byte, whatever read returns |
| RioReaders.Rio.ReadB | webserver_5/common.c:114-139 | delivers the next bytes of the stream, zero only at its end, -1 only on a hard error |
| RioReaders.Rio.ReadLineB | webserver_5/common.c:142-165 | delivers the next line of the plain stream for every way of chopping it, with a terminator behind it, which falls behind the caller's buffer if and only if the line fills the buffer |
| RioReaders.Rio.ReadLines | webserver_5/common.c:142-165 | repeated calls with a buffer of exactly the length limit, as all callers have it, deliver exactly the lines of the stream unless read fails hard, and overrun the buffer exactly if a delivered line is that long |
| RioReaders.NextLineExactly | webserver_5/common.c:142-165 | the specified line is the one prefix that ends at the first newline, the length limit or the end |
| RioReaders.LinesMakeUpStream | webserver_5/common.c:142-165 | the lines concatenate to the stream, and none is empty, too long or has an inner newline |
| Words.PassedExactly | warmup/wc.c:59-87 | the words passed on are the maximal runs of non-spaces if and only if the text is empty, or starts with a non-space, ends with a space and has no NUL |
| WordCounts.CountWords | warmup/wc.c:48-89 | the loop and the linked table end in the table of the passed words, for every text |
| WordCounts.CountsOccurrences | warmup/wc.c:107-147 | for such texts each bucket has exactly one entry for each word of the text that hashes to it, with the number of its occurrences |
| WordCounts.TableCounts | warmup/wc.c:107-147 | whatever words are added, each bucket has one entry per word with its multiplicity |
| WordCounts.WordList.Add | warmup/wc.c:116-147 | the linked list counts the word in its entry, or gets a new last entry with count one |

## Left out

- The context switch itself (ucontext registers, stack layout, signal delivery, sigprocmask and the timer): a step dispatches a thread, or dispatches it into `thread_exit`, and keeps one mask bit.
- malloc failures other than the one that `thread_create` reports, and the memory of queue nodes, locks, condition variables, entries and file data: allocation is a fresh object, `free` of these is not modelled.
- `wait_queue_create` and `wait_queue_destroy`: user wait queues exist from the start and are never destroyed.
- `lock_create` and `cv_create` leave their wait queue uninitialised; the model takes it as empty. `cv_destroy` checks the queue and leaves the condition variable usable with its empty queue. User code does not use a lock that was destroyed, except that a thread that returns to a loop inside the library waits for the lock to exist.
- ThreadLibrary.Library.Yield: the tables hold the ready and wait queues as sequences; that the linked queues behave like these sequences is proved separately in `FifoQueues`.
- ServerProgress.EveryRequestIsAnswered: supposes that the queue has room, `maxRequests > 0`, or that there are no workers; for other bounds `BlockEachOtherExactly` and `PushFailsExactly` say what goes wrong.
- `server_exit` behind its join: deleting the cache is a step that crashes or returns, and what it frees is not modelled; the joins are one step, which is possible when all workers have ended.
- FileCaches.FileDataCopy: copies contents as values, while the C code copies with string functions up to the first NUL byte, which a file read from disk need not end in.
- Sockets, HTTP parsing and formatting and the file system: a connection asks for at most one file name, and reading a file is a lookup in an unchanging store.
- FileCaches.FileCache.AddToTable: the caller has checked that the file is no larger than the cache and has a buffer; the failing assertion of a larger file is not a result of the method, and the crash for an empty one is a result of `DoServerRequest`.
- RioReaders.Rio.ReadLineB: a terminator that falls behind the buffer is reported, and what it overwrites there is not modelled.
- WordCounts.WordList.Add: the counter of a further entry in a bucket is incremented without having been set; the model takes it as zero.
- `isspace` of characters outside the ASCII range, `wc_output` and the order of its lines.
- `threads_2/thread.c` and the files of `webserver/`, earlier versions of the modelled ones, and the remaining programs of `warmup/`.
