# A verified model of coopsync_tbb

Cooperative synchronization for TBB tasks: a task that has to wait is suspended, its node sits in
an intrusive list, and whoever makes the wait pointless pops the node and resumes the task. This
project models the protocols behind that, one atomic action at a time and for any number of tasks,
and proves what they keep over whole runs.

**How a primitive is modelled.** A `State` holds the atomic word, the queue or queues (list, spin
lock, the local lists of resumers) and one record per task: the calls it has still to make and a
program counter with its local snapshots. `Next` gives the one action a task can take, or none if
it is blocked or done; a run is any sequence of such actions by any tasks. The granularity is the
code's. The first predicate call of `wait_if`, taking the lock, the re-check and the push are
separate actions; so are a pop and the store before or after it; exchange loops keep their stale
value and a weak exchange may fail for no reason. Interleaving is sequentially consistent.

**Objects.** Every primitive is also a class with the fields of the original and one method per
atomic action, written with the original's branches. Each method is proved to do what `Next` says,
`Step` to keep the invariant, and `Run` to go through a run of the protocol under any schedule, so
that the theorems about runs are about the objects. The linked list and the wait queue are heap
classes with `next` pointers (`IntrusiveList`, `WaitQueue`), as are packaged tasks and their states
(`PackagedTask`, `PackagedTaskObject`). `WaitQueue` proves `resume_one`, `resume_n` and
`resume_all` against `Front` and `Back`, the functions the protocols use; `WaitLists` holds the
main list together with the local lists of all resumers, and any schedule of its actions is a run
of the protocol's.

**Order of reading.** `TaskSums` and `Runs` hold the tools; `WaitProtocol` the queue as a protocol
and its conservation law; `Semaphore` and `SemaphoreTheorems` the counting semaphore, which
`BinarySemaphore` refines and which `Mutex` therefore inherits from, with `SemaphoreRounds` on
programs that give back what they take; `SharedMutex` with `SharedMutexTheorems`,
`SharedMutexDrain` and `SharedMutexPrograms` the reader-writer mutex, with `ScopedLock` on top; then
`Latch`, `AtomicCondition`, `Future`, `PackagedTask`, the barrier, and `MultiStream`.
`SharedMutexCalls`, `SemaphoreCalls`, `FutureCalls` and `BarrierTokens` follow single calls through
whole runs: what each has done, and what its caller is told, when it is back.
Of the barrier, `Barrier` holds the protocol and the theorems on its runs;
`BarrierLoops` and `BarrierCounts` what loops of `arrive` and `wait` keep in all their runs;
`BarrierMoves` the stretches from which `BarrierEarly`, `BarrierStrands`, `BarrierOverdraft` and
`BarrierWraps` put together the runs that go wrong. `*Object` files hold the classes.

**Where the code does less than one might hope.** A writer can be left asleep on a free shared
mutex: its re-check fails after a releaser's empty pop and before that releaser's store of 0.
`SharedMutexDrain.StuckExactly` shows that nobody else is ever left behind, and
`SharedMutexPrograms.DrainsExactlyWithoutCompany` says for which programs it can happen.

A barrier lets a task out of a phase that is not over, and the ordinary loop of `arrive` and `wait`
is enough for it: with two or more tasks and two or more rounds there is an interleaving in which
a task that has arrived for the new phase is woken by the announcement of the old one, and `wait`
does not look again. `BarrierEarly.LoopsSafeExactly` says for which numbers of rounds this cannot
happen.

From the third round on the counts go wrong with it. The early leaver arrives again, for the phase
it has just left, and takes the place of a task that is still to come; that task may then find
nothing expected any more, or arrive for a phase that the others never reach and sleep for ever. An
arrival that finds nothing expected is lost, or taken from the count of the phase after.
`BarrierOverdraft.CountsHoldExactly` says for which loops every arrival fits, and
`BarrierStrands.LoopsFinishExactly` which of them always come to an end: of n > 1 tasks with r
rounds each, those with r <= 2. With unequal numbers of rounds somebody can always be left waiting.

The theorems on counts in `Barrier` are therefore about runs in which each arrival, when it begins,
fits into what is still expected of the current phase, as section 32.8 of ISO C++20 (N4861)
requires of callers, and no wait is overtaken by 256 phases (`Barrier.ClientAllows`). That nobody
leaves early needs more, and no precondition asks for it: that no arrival begins while a phase is
being announced (`Barrier.Careful`). Both look at what the other tasks are doing, so that no caller
can see to them; programs that keep to them whatever the interleaving are those whose updates fit
into one phase (`BarrierLoops.OnePhaseRunsAreCareful`) and, for the first, the loops of
`BarrierCounts.SafeRunsAreAllowed`. Others have to wait until the last arriver of a phase has
returned from `arrive`.

**Client conditions elsewhere.** Latch updates do not exceed the initial count in total. The binary
semaphore is released only while unavailable, as its code asserts; `BinarySemaphore.StepRefines`
shows that this is exactly what the refinement needs, and `BinarySemaphore.ProgramsNeverOverfill`
gives programs that keep to it by themselves. Every store to an atomic condition is followed by
`notify_all`.

Where the code and its documentation disagree the code is followed: `barrier::wait` computes the
previous phase as an `int`, so that its first test does not recognize the previous phase when the
byte has wrapped to 0. The assertion after it then fails (`Barrier.AssertionExactly`,
`BarrierWraps.AssertionFailsAtWrap`); with assertions disabled, as in the model, the later predicate
still decides correctly.

## Model

| member | source | states |
|---|---|---|
| `SharedMutexPrograms.DrainsExactlyWithoutCompany` | src/shared_mutex.cpp:23-99 | for any programs of any number of tasks: every run drains completely if and only if no task that calls lock() shares the mutex with another task that calls anything |
| `SharedMutexPrograms.CompanyCanStrand` | src/shared_mutex.cpp:35-46 | the other direction, constructively: from any programs in which a locking task has company, a run that ends with that task asleep on a free mutex |
| `SharedMutexPrograms.RunsWithoutLateRecheckDrain` | src/shared_mutex.cpp:23-99 | whatever the programs: a final state is drained just when no writer in it was late, that is, failed its re-check between a releaser's empty pop and that releaser's store of 0; runs without a late re-check always drain |
| `SharedMutexPrograms.JobAlone` | src/shared_mutex.cpp:15-99 | a task alone completes lock and unlock, shared or exclusive, and leaves the mutex as it found it |
| `SharedMutexDrain.StuckExactly` | src/shared_mutex.cpp:23-99 | no task can step if and only if the state is 0, no reader is queued, and everyone is finished or a queued writer whose re-check was late |
| `SharedMutexDrain.ReadersNeverStranded` | src/shared_mutex.cpp:60-65 | a reader queued, or past its re-check and not yet pushed, has a negative state or a releaser between the store of 0 and its broadcast |
| `SharedMutexDrain.HandOffsFollowPushes` | src/shared_mutex.cpp:40-42 | over every run writers are popped in the order in which they pushed themselves, and so are readers |
| `SharedMutexDrain.RunsAreFinite` | src/shared_mutex.cpp:15-99 | every run with strong exchanges is no longer than a bound read off the starting state |
| `SharedMutexTheorems.WordCountsOwners` | src/shared_mutex.cpp:15-99 | in every state of every run, in both directions: n >= 0 for n shares and nothing else, -1 for one exclusive token, -2 for one last reader in transition |
| `SharedMutexTheorems.MutualExclusion` | src/shared_mutex.cpp:15-99 | a writer shares the mutex with nobody; the assertions of lock, unlock and unlock_shared hold |
| `SharedMutexTheorems.LockGrantedOnce` | src/shared_mutex.cpp:23-33 | over a run, one call of lock() is granted in exactly one step, by the exchange of 0 or by one pop from the front of the queue; before it the writer owns nothing, from it on the word is -1 |
| `SharedMutexTheorems.WholeCallGrantedOnce` | src/shared_mutex.cpp:23-33 | so is every call from its first exchange to its return |
| `SharedMutexTheorems.GrantedOnce` | src/shared_mutex.cpp:23-33 | what each step of anybody does to a writer inside lock(): nothing, or the one grant, or what leaves the grant standing |
| `SharedMutexCalls.CallAnswered` | src/shared_mutex.cpp:15-65 | every locking call of every run, from the program's call to the state in which the caller is back: lock ends with the word -1 and the lock, lock_shared with one share more on a word that was not negative; try_lock and try_lock_shared never wait, and answer yes, with the lock or one share more, exactly if the word was 0, or not negative, at their last step, which otherwise leaves it alone; until then only lock writes the word |
| `SharedMutexCalls.TryReadFailsExactly` | src/shared_mutex.cpp:48-58 | a try_lock_shared says no if and only if one of its own loads found the word negative; so it succeeds if the word is never negative during the call, however many readers there are, and fails if it always is |
| `SharedMutexCalls.TryWriteSucceedsExactly` | src/shared_mutex.cpp:15-21 | a try_lock makes one exchange, its last step, and says yes if and only if that found 0 |
| `SharedMutex.NextKeepsInv` | src/shared_mutex.cpp:15-99 | every atomic action keeps queue conservation, ownership accounting, readers served and late writers marked |
| `SharedMutex.OwnershipShows` | src/shared_mutex.cpp:31-37 | what a task owns, the word shows |
| `SharedMutex.EmptyPopFindsNobody` | src/shared_mutex.cpp:92-97 | when a releaser's pop is empty, nobody is queued, about to push, or being handed the lock |
| `SharedMutexObject.ReadWriteLock.TryLock` | src/shared_mutex.cpp:15-21 | the exchange succeeds exactly on 0 |
| `SharedMutexObject.ReadWriteLock.Lock` | src/shared_mutex.cpp:23-26 | first try of lock, and try_lock: what the step relation says |
| `SharedMutexObject.ReadWriteLock.WriteWaitStep` | src/shared_mutex.cpp:27 | wait_if with the acquiring predicate |
| `SharedMutexObject.ReadWriteLock.LoadShared` | src/shared_mutex.cpp:48-50 | load of try_lock_shared, which gives up exactly on a negative word |
| `SharedMutexObject.ReadWriteLock.ExchangeShared` | src/shared_mutex.cpp:50-58 | one round of its exchange loop, spurious failure included: a share exactly if the exchange succeeds, giving up exactly if it failed on a negative word |
| `SharedMutexObject.ReadWriteLock.ReadWaitStep` | src/shared_mutex.cpp:60-65 | wait_if of lock_shared |
| `SharedMutexObject.ReadWriteLock.Unlock` | src/shared_mutex.cpp:35-37 | the word is -1 when unlock begins |
| `SharedMutexObject.ReadWriteLock.LoadToDrop` | src/shared_mutex.cpp:67-69 | load of unlock_shared |
| `SharedMutexObject.ReadWriteLock.DropShare` | src/shared_mutex.cpp:70-89 | one round of unlock_shared's loop; its loaded value is at least 1 |
| `SharedMutexObject.ReadWriteLock.StoreLocked` | src/shared_mutex.cpp:91-92 | the last reader takes the exclusive token |
| `SharedMutexObject.ReadWriteLock.PopOneWriter` | src/shared_mutex.cpp:93 | critical section of resume_one |
| `SharedMutexObject.ReadWriteLock.ResumeWriter` | src/shared_mutex.cpp:40-42 | direct handoff: the popped writer runs as the owner |
| `SharedMutexObject.ReadWriteLock.Free` | src/shared_mutex.cpp:96-97 | the store of 0 |
| `SharedMutexObject.ReadWriteLock.PopReaders` | src/shared_mutex.cpp:98 | critical section of resume_all on the readers |
| `SharedMutexObject.ReadWriteLock.Step` | src/shared_mutex.cpp:15-99 | each action of the object is one step of the protocol and keeps the invariant |
| `SharedMutexObject.ReadWriteLock.Run` | src/shared_mutex.cpp:15-99 | under any schedule the object goes through a run of the protocol |
| `ScopedLock.Scope.Acquire` | src/shared_mutex.cpp:113-125 | throws on a scope that holds something, otherwise one lock call of the right kind |
| `ScopedLock.Scope.TryAcquire` | src/shared_mutex.cpp:131-142 | the same for the tries; holds the mutex exactly if the try succeeded |
| `ScopedLock.Scope.Release` | src/shared_mutex.cpp:144-155 | undoes what is held, in the mode and on the mutex it was acquired |
| `ScopedLock.Scope.UpgradeToWriter` | src/shared_mutex.cpp:157-170 | releases the share before locking, and says false, unless it already writes |
| `ScopedLock.Scope.DowngradeToReader` | src/shared_mutex.cpp:172-186 | the converse |
| `ScopedLock.CallsAreJobs` | src/shared_mutex.cpp:101-186 | whatever was done with a scope, if it holds nothing at the end its calls split into whole jobs of the protocol |
| `WaitProtocol.ExactlyOneList` | include/coopsync_tbb/detail/wait_queue.hpp:95-110 | a suspended task is in exactly one of the main list and the resumers' local lists, there once; any other task is in none |
| `WaitProtocol.WaitIfKeepsInv` | include/coopsync_tbb/detail/wait_queue.hpp:82-111 | every action of wait_if keeps the conservation law between parked tasks and lists |
| `WaitProtocol.TakeKeepsInv` | src/wait_queue.cpp:39-58 | so does the critical section of resume_one, resume_n and resume_all |
| `WaitProtocol.WakeKeepsInv` | src/wait_queue.cpp:66-70 | resuming the front of a local list wakes a parked task, once |
| `WaitProtocol.AllInMain` | include/coopsync_tbb/detail/wait_queue.hpp:95-110 | without local lists the main list holds exactly the parked tasks |
| `SuspendQueue.Queue.WaitStep` | include/coopsync_tbb/detail/wait_queue.hpp:82-111 | one atomic action of wait_if on the queue object |
| `SuspendQueue.Queue.Pop` | src/wait_queue.cpp:46-56 | the loop that moves up to n waiters from the front, in order, under the lock |
| `SuspendQueue.Queue.ResumeNext` | src/wait_queue.cpp:66-70 | one round of do_resume_all |
| `IntrusiveList.List.Move` | include/coopsync_tbb/detail/intrusive_list.hpp:47-52 | the move constructor transfers all nodes in order and empties the source |
| `IntrusiveList.List.PushBack` | include/coopsync_tbb/detail/intrusive_list.hpp:66-76 | appends a node with null next |
| `IntrusiveList.List.PopFront` | include/coopsync_tbb/detail/intrusive_list.hpp:81-94 | takes the first node, if any, and leaves it with null next |
| `IntrusiveList.List.Empty` | include/coopsync_tbb/detail/intrusive_list.hpp:98-101 | tells whether there are nodes |
| `IntrusiveList.List.Swap` | include/coopsync_tbb/detail/intrusive_list.hpp:103-107 | exchanges two lists |
| `IntrusiveList.OneReading` | include/coopsync_tbb/detail/intrusive_list.hpp:110-112 | the links determine the sequence of nodes |
| `IntrusiveList.Acyclic` | include/coopsync_tbb/detail/intrusive_list.hpp:110-112 | a chain of links that reaches its end passes no node twice |
| `WaitQueue.ResumeFront` | src/wait_queue.cpp:66-70 | a node is off the list before its task runs; afterwards it is dead and on no list |
| `WaitQueue.DoResumeAll` | src/wait_queue.cpp:66-70 | resumes exactly the list, front to back |
| `WaitQueue.MoveFront` | src/wait_queue.cpp:48-55 | the loop of resume_n moves the first min(n, length) nodes, in order, and leaves the rest |
| `WaitQueue.Queue.PushWaiter` | include/coopsync_tbb/detail/wait_queue.hpp:101-104 | pushes the caller's node with its suspend point |
| `WaitQueue.Queue.ResumeOne` | src/wait_queue.cpp:16-27 | resumes the first waiter, and says whether there was one |
| `WaitQueue.Queue.ResumeAll` | src/wait_queue.cpp:29-37 | resumes all waiters in order and leaves the queue empty |
| `WaitQueue.Queue.ResumeN` | src/wait_queue.cpp:39-59 | returns min(n, length), resumes that prefix in order, leaves the suffix |
| `WaitLists.Lists.Push` | include/coopsync_tbb/detail/wait_queue.hpp:101-104 | with any number of resumers at work, a push keeps the main list and all local lists well formed, alive and apart, and is the protocol's push |
| `WaitLists.Lists.Pop` | src/wait_queue.cpp:46-56 | so does the loop of resume_n under the lock; nodes move from the main list to one local list |
| `WaitLists.Lists.PopAll` | src/wait_queue.cpp:31-35 | so does the swap of resume_all |
| `WaitLists.Lists.ResumeNext` | src/wait_queue.cpp:66-70 | so does a resumption; the node is gone from all lists, and no node that was gone is touched |
| `WaitLists.Lists.Run` | src/wait_queue.cpp:29-70 | under any schedule of pushes, pops and resumptions, by any number of resumers, the lists on the heap go through a run of the protocol, stay well formed and apart, and leave the nodes that are gone alone |
| `SemaphoreTheorems.Drain` | include/coopsync_tbb/semaphore.hpp:222-256 | programs that make N acquire calls and release R permits in all, nobody releasing after acquiring, initial count c: a final state has exactly min(N, c + R) of the calls served and c + R less that number left, everyone finished or queued in an acquire |
| `SemaphoreTheorems.DrainOneCallEach` | include/coopsync_tbb/semaphore.hpp:222-256 | with one call each, exactly N less the served are queued |
| `SemaphoreRounds.RoundsFinishExactly` | include/coopsync_tbb/semaphore.hpp:234-256 | any number of tasks doing rounds of acquire and release(1): a run that cannot go on has everybody finished and the initial count back if and only if that count was 1 or more, or nobody had a round to do |
| `SemaphoreRounds.GivingBackCompletes` | include/coopsync_tbb/semaphore.hpp:222-256 | programs that from any acquire on give back no more than they take: with more permits in all than are wanted for good, everybody finishes and exactly those over are left; with fewer, not everybody |
| `SemaphoreTheorems.NoLostWakeup` | include/coopsync_tbb/semaphore.hpp:235-256 | in every state of every run with a non-empty queue the counter is at most the tasks in acquire that are not queued plus the wakeups still owed, one less while a re-checked waiter is about to push |
| `SemaphoreTheorems.StuckExactly` | include/coopsync_tbb/semaphore.hpp:222-256 | no task can step if and only if all are finished or parked; somebody queued then means counter 0 |
| `SemaphoreTheorems.RunsAreFinite` | include/coopsync_tbb/semaphore.hpp:222-256 | every run with strong exchanges is bounded by its start |
| `SemaphoreTheorems.PermitsConserved` | include/coopsync_tbb/semaphore.hpp:222-256 | along every run of programs without try_acquire, the count plus what is still to be released less what is still wanted is conserved |
| `SemaphoreTheorems.TryTakesPermit` | include/coopsync_tbb/semaphore.hpp:222-232 | a try_acquire that succeeds lowers that sum by 1, which is why it is left out |
| `SemaphoreCalls.CallAnswered` | include/coopsync_tbb/semaphore.hpp:222-240 | every acquire and try_acquire of every run: its last step finds a permit and takes exactly one, or is a try_acquire that finds the counter at 0 and leaves it; no other step of it writes the counter, and try_acquire never waits |
| `SemaphoreCalls.TryFailsExactly` | include/coopsync_tbb/semaphore.hpp:222-232 | a try_acquire returns without a permit if and only if one of its own loads found the counter at 0; if it is positive throughout the call, exactly one permit is taken in one step of the call |
| `SemaphoreCalls.TriesTakeExactly` | include/coopsync_tbb/semaphore.hpp:222-232 | tasks that only try, n times in all, on a semaphore of c: every run that cannot go on has all finished and exactly min(n, c) permits taken |
| `SemaphoreCalls.ReleaseWakes` | include/coopsync_tbb/semaphore.hpp:243-256 | every release(n) of every run raises the counter by n, once, at its beginning, and, unless n is 0, takes the first n waiters or all there are, once, in a later step |
| `SemaphoreTheorems.StorageMax` | include/coopsync_tbb/semaphore.hpp:26-66 | max() is the largest value of the smallest signed type that holds the parameter |
| `SemaphoreTheorems.ReleaseWithinMax` | include/coopsync_tbb/semaphore.hpp:242-252 | if the count plus the most that each program can ever release beyond what it takes is within max(), the assertion in release holds at every call and the counter stays in the range of its type |
| `SemaphoreTheorems.BalancedNeverRises` | include/coopsync_tbb/semaphore.hpp:234-256 | loops of acquire and release, however long, add nothing to that bound |
| `Semaphore.NextKeepsInv` | include/coopsync_tbb/semaphore.hpp:222-256 | every atomic action, spurious exchange failures included, keeps the quantitative invariant |
| `SemaphoreObject.CountingSemaphore.Call` | include/coopsync_tbb/semaphore.hpp:243-250 | entry of the calls, with release's fetch_add |
| `SemaphoreObject.CountingSemaphore.Load` | include/coopsync_tbb/semaphore.hpp:222-224 | load of try_acquire, which gives up exactly without a permit |
| `SemaphoreObject.CountingSemaphore.Exchange` | include/coopsync_tbb/semaphore.hpp:224-231 | one round of its exchange loop: takes one permit or fails, and then gives up exactly if there is none |
| `SemaphoreObject.CountingSemaphore.WaitStep` | include/coopsync_tbb/semaphore.hpp:235-240 | wait_if of acquire |
| `SemaphoreObject.CountingSemaphore.PopWaiters` | include/coopsync_tbb/semaphore.hpp:255 | critical section of resume_n |
| `SemaphoreObject.CountingSemaphore.Step` | include/coopsync_tbb/semaphore.hpp:222-256 | each action of the object is one step of the protocol and keeps the invariant |
| `SemaphoreObject.CountingSemaphore.Run` | include/coopsync_tbb/semaphore.hpp:222-256 | under any schedule the object goes through a run of the protocol |
| `BinarySemaphore.StepRefines` | src/semaphore.cpp:18-44 | each step maps to one or two steps of the counting semaphore with updates of 1, under available iff counter 1, if and only if it does not release while available |
| `BinarySemaphore.ProgramsNeverOverfill` | src/semaphore.cpp:33-42 | if the flag at the start and the most that the programs can ever release beyond what they take come to 1 at most, no step of any run releases while available, so that every run is one the refinement covers |
| `BinarySemaphore.RunRefines` | src/semaphore.cpp:18-44 | so does every run, state by state, each at its place in the run of the counting semaphore |
| `BinarySemaphore.BlockedTogether` | src/semaphore.cpp:18-44 | a task is blocked in the one exactly when it is in the other |
| `BinarySemaphore.BinaryRunsEnd` | src/semaphore.cpp:18-44 | runs end, and a final state has only finished tasks and queued ones, the latter only with no permit left |
| `BinarySemaphoreObject.CountingSemaphore1.Call` | src/semaphore.cpp:33-42 | entry of the calls, with release's store |
| `BinarySemaphoreObject.CountingSemaphore1.Exchange` | src/semaphore.cpp:18-24 | the strong exchange of try_acquire |
| `BinarySemaphoreObject.CountingSemaphore1.Run` | src/semaphore.cpp:18-44 | under any schedule, releases while available left out, the object goes through a run of the protocol |
| `Mutex.MutexCompletes` | src/mutex.cpp:13-34 | any number of tasks locking and unlocking any number of times: every interleaving is finite, and ends with all rounds done, the mutex free and the queue empty |
| `Mutex.MutualExclusion` | src/mutex.cpp:13-34 | at most one task holds the mutex, and the assertion in unlock holds |
| `Mutex.Lockstep` | src/mutex.cpp:13-34 | the mutex takes the steps of the binary semaphore with the flag negated |
| `Mutex.RunAsFlagRun` | src/mutex.cpp:13-34 | so its runs are runs of the binary semaphore, and thereby of the counting one |
| `Mutex.MutexStepKeepsInv` | src/mutex.cpp:13-34 | every action keeps the ownership invariant and never overfills |
| `MutexObject.Lock.TryLock` | src/mutex.cpp:13-22 | the exchange at the head of lock's loop |
| `MutexObject.Lock.Unlock` | src/mutex.cpp:28-30 | the mutex is locked when unlock is called; the store of false |
| `MutexObject.Lock.PopWaiter` | src/mutex.cpp:33 | critical section of resume_one |
| `MutexObject.Lock.Run` | src/mutex.cpp:13-34 | under any schedule the object goes through a run of the protocol |
| `Latch.OpensExactly` | src/latch.cpp:20-46 | whatever the programs: at the end the counter is the initial count less what each task counts down up to its first call that waits, and everyone is through if and only if that used it up or nobody waits |
| `Latch.CounterHistory` | src/latch.cpp:20-46 | over every run the counter is the initial count less the updates made, never rises, covers each update about to be made, and is 0 whenever wait returns |
| `Latch.StuckExactly` | src/latch.cpp:20-46 | no task can step if and only if all are finished, or asleep with the counter above 0 |
| `Latch.RunsAreFinite` | src/latch.cpp:20-46 | every run is bounded by its start |
| `Latch.NextKeepsInv` | src/latch.cpp:20-46 | every action keeps: somebody waiting means counter above 0 or a resume_all still to come |
| `LatchObject.CountDownLatch.CountDownBy` | src/latch.cpp:29-33 | fetch_sub; the assertion that the update fits holds |
| `LatchObject.CountDownLatch.Return` | src/latch.cpp:44-45 | the counter is 0 at the assertion that ends wait |
| `LatchObject.CountDownLatch.Run` | src/latch.cpp:20-46 | under any schedule the object goes through a run of the protocol |
| `AtomicCondition.StuckExactly` | include/coopsync_tbb/atomic_condition.hpp:196-222 | no task can step if and only if all are finished or asleep with the value equal to the one they wait to see changed |
| `AtomicCondition.ReturnsOnlyOnDifference` | include/coopsync_tbb/atomic_condition.hpp:200-206 | wait is left only in a step that loads a different value |
| `AtomicCondition.WaitAnswered` | include/coopsync_tbb/atomic_condition.hpp:196-212 | every completed wait(seen) of every run waits for seen to change from its beginning on, and its last step finds another value |
| `AtomicCondition.ValueIsLastStored` | include/coopsync_tbb/atomic_condition.hpp:92-110 | in every state of every run the value is the one that was stored last, or the initial one if nothing was stored |
| `AtomicCondition.StoredValueWakes` | include/coopsync_tbb/atomic_condition.hpp:196-222 | if v is all that is ever stored and somebody's first call stores it, a run that cannot go on ends with the value v and everybody through who waits to see another value change |
| `AtomicCondition.RunsAreFinite` | include/coopsync_tbb/atomic_condition.hpp:196-222 | every run is bounded by its start |
| `AtomicCondition.NextKeepsInv` | include/coopsync_tbb/atomic_condition.hpp:196-222 | every action keeps: whoever is queued waits for the value there is, or a notification is to come |
| `AtomicConditionObject.Condition.LoadValue` | include/coopsync_tbb/atomic_condition.hpp:200-206 | the head of wait's loop |
| `AtomicConditionObject.Condition.Run` | include/coopsync_tbb/atomic_condition.hpp:196-222 | under any schedule the object goes through a run of the protocol |
| `Future.SingleAssignment` | include/coopsync_tbb/future.hpp:78-99 | over all runs at most one of the racing setters takes effect, and a ready state holds what that call promised |
| `Future.ReadyForever` | include/coopsync_tbb/future.hpp:72-104 | a ready state, its value and its exception never change again |
| `Future.GettersAgree` | include/coopsync_tbb/future.hpp:252-261 | wait returns only when ready, and all calls of get return or throw the outcome of the call that took effect |
| `FutureCalls.SetterAnswered` | include/coopsync_tbb/future.hpp:78-99 | every completed setter of every run: if none took effect before, it does, and returns with the state ready and nothing thrown; otherwise set_value and set_exception throw promise_already_satisfied, once and at once, and break_promise does nothing |
| `FutureCalls.GetterAnswered` | include/coopsync_tbb/future.hpp:252-261 | every completed get of every run returns or throws once: the value of the set_value that took effect, the exception of the set_exception or of the throwing set_value, or broken_promise |
| `FutureCalls.AllAnswered` | include/coopsync_tbb/future.hpp:78-188 | when everybody has returned, all calls of set_value and set_exception but the one that took effect, if one did, have thrown promise_already_satisfied once each, and every get was answered once |
| `Future.GettersServed` | include/coopsync_tbb/future.hpp:101-104 | no getter stays queued in a ready state without a resume_all still to come |
| `Future.StuckExactly` | include/coopsync_tbb/future.hpp:72-104 | no task can step if and only if all are finished or asleep on a state nobody has set |
| `Future.CompletesExactly` | include/coopsync_tbb/future.hpp:72-104 | every run ends with all calls returned if and only if some task's first call sets the state, or there are no calls |
| `Future.RunsAreFinite` | include/coopsync_tbb/future.hpp:72-104 | every run is bounded by its start |
| `Future.NextKeepsInv` | include/coopsync_tbb/future.hpp:72-104 | every action keeps one winner, its payload stored before the status, and getters served |
| `FutureObject.SharedState.ExchangeEmpty` | include/coopsync_tbb/future.hpp:91-98 | the strong exchange of empty for another status |
| `FutureObject.SharedState.Call` | include/coopsync_tbb/future.hpp:172-179 | entry of set_value, set_exception, break_promise and get; the first two throw at once exactly if the state is not empty |
| `FutureObject.SharedState.Store` | include/coopsync_tbb/future.hpp:180-186 | the payload, or the exception that storing it threw |
| `FutureObject.SharedState.Publish` | include/coopsync_tbb/future.hpp:86-87 | the final status |
| `FutureObject.SharedState.Result` | include/coopsync_tbb/future.hpp:252-261 | the state is ready, and what get returns or throws |
| `FutureObject.SharedState.Run` | include/coopsync_tbb/future.hpp:72-104 | under any schedule the object goes through a run of the protocol |
| `PackagedTask.OutcomeDecided` | include/coopsync_tbb/future.hpp:1136-1238 | after every history of construction, invocation, reset, move, move-assignment, swap and destruction, a state holds the value that the first call made for it, by its own callable, returned, or the exception that it or storing the value threw; without a call, a broken promise once nobody owns it; and it is empty exactly while owned and uncalled |
| `PackagedTask.OutcomeStays` | include/coopsync_tbb/future.hpp:1146-1238 | the first outcome survives everything that follows |
| `PackagedTask.InvokeAgain` | include/coopsync_tbb/future.hpp:1213-1223 | no_state and no call without a state; otherwise the callable runs, the first time for this state its value or exception is stored, and every further time the invocation fails with promise_already_satisfied and changes no state |
| `PackagedTask.OwnedAfter` | include/coopsync_tbb/future.hpp:1136-1182 | a state keeps its owner through moves and swaps until that owner gives it up |
| `PackagedTask.StepOneOwner` | include/coopsync_tbb/future.hpp:1136-1182 | no state ever has two owners |
| `PackagedTask.Handle.Move` | include/coopsync_tbb/future.hpp:1136-1141 | move construction leaves the source without callable and state |
| `PackagedTask.Handle.MoveAssign` | include/coopsync_tbb/future.hpp:1146-1162 | breaks the state it held, unless assigned to itself, and takes over the other's |
| `PackagedTask.Handle.Swap` | include/coopsync_tbb/future.hpp:1179-1183 | exchanges callable and state |
| `PackagedTask.Handle.Invoke` | include/coopsync_tbb/future.hpp:1213-1223 | the callable runs even when the state is satisfied; an empty state then holds the value returned, or the exception thrown by the callable or by storing the value; a satisfied one is left alone and promise_already_satisfied thrown; no_state without a state |
| `PackagedTask.Handle.Reset` | include/coopsync_tbb/future.hpp:1228-1238 | a new empty state; the old one is settled |
| `PackagedTask.Handle.Destroy` | include/coopsync_tbb/future.hpp:1166-1170 | the state is settled |
| `PackagedTaskObject.Program.Invoke` | include/coopsync_tbb/future.hpp:1213-1223 | an invocation of a heap object is the step of the history model |
| `PackagedTaskObject.Program.MoveTo` | include/coopsync_tbb/future.hpp:1146-1162 | so is a move-assignment, self-assignment included |
| `PackagedTaskObject.Program.Reset` | include/coopsync_tbb/future.hpp:1228-1238 | and a reset |
| `PackagedTaskObject.Program.Run` | include/coopsync_tbb/future.hpp:1114-1238 | whatever is done with packaged tasks on the heap, in whatever order, is a history |
| `BarrierEarly.LoopsSafeExactly` | include/coopsync_tbb/barrier.hpp:146-193 | n tasks on a barrier of n, task t doing rounds[t] rounds of arrive and wait: nobody ever leaves a phase early, in any interleaving, if and only if n <= 1, or some task does no round, or nobody does more than one |
| `BarrierEarly.EqualRoundsSafeExactly` | include/coopsync_tbb/barrier.hpp:146-193 | n tasks with r rounds each: if and only if n <= 1 or r <= 1 |
| `BarrierEarly.EarlyArrivalIsWokenEarly` | include/coopsync_tbb/barrier.hpp:164-166 | the other direction, constructively: on any barrier of two or more tasks that begin by arriving, a task with a second round leaves it after one of n arrivals |
| `BarrierLoops.SafeRunsAreCareful` | include/coopsync_tbb/barrier.hpp:146-193 | the safe programs keep the careful condition by themselves in every run |
| `BarrierLoops.OnePhaseRunsAreCareful` | include/coopsync_tbb/barrier.hpp:146-193 | any programs, dropping and waiting included, whose updates together do not exceed the count: in every run nobody leaves early and all counts are right |
| `BarrierOverdraft.CountsHoldExactly` | include/coopsync_tbb/barrier.hpp:150-167 | the loops again: every arrival of every run fits what is expected; fetch_sub never takes more than there is; every completion runs after all arrivals of its phase and no more; every phase opens with the whole count: each of the four if and only if n <= 1, or some task does no round, or no more tasks do three rounds or more than do exactly one |
| `BarrierOverdraft.EqualCountsHoldExactly` | include/coopsync_tbb/barrier.hpp:150-167 | n tasks with r rounds each: each of the four if and only if n <= 1 or r <= 2 |
| `BarrierOverdraft.LoopOverdraws` | include/coopsync_tbb/barrier.hpp:150-167 | the other direction, constructively: from any other loop a run in which a task comes to take 1 from a count of 0, one that completes a phase after n + 1 arrivals, and one with a phase that opens one short |
| `BarrierCounts.SafeRunsAreAllowed` | include/coopsync_tbb/barrier.hpp:146-193 | the loops of that condition keep to the interface by themselves in every run, so that the theorems on counts below hold of all their runs |
| `BarrierStrands.LoopsFinishExactly` | include/coopsync_tbb/barrier.hpp:146-193 | the loops again: every run that cannot go on has all rounds done if and only if n <= 1, or all tasks do the same number of rounds and no more than two |
| `BarrierStrands.EqualRoundsFinishExactly` | include/coopsync_tbb/barrier.hpp:146-193 | n tasks with r rounds each: if and only if n <= 1 or r <= 2 |
| `BarrierStrands.LoopStrands` | include/coopsync_tbb/barrier.hpp:146-193 | the other direction, constructively: from any other loop a run that ends with somebody asleep for ever |
| `Barrier.NobodyLeavesEarly` | include/coopsync_tbb/barrier.hpp:173-188 | if no arrival begins between a store of the phase and the return of the task that made it, nobody waiting with a token of phase k returns before phase k is over and has had all the arrivals it opened with |
| `BarrierTokens.WaitsForItsOwnPhase` | include/coopsync_tbb/barrier.hpp:146-193 | in the same runs a task that arrives and then waits, arrive_and_wait for one, does not get past that wait before the phase in which its arrival began is over, with all the arrivals it opened with |
| `BarrierTokens.ArrivalAnswered` | include/coopsync_tbb/barrier.hpp:146-170 | in runs whose every arrival fits when it begins, every arrive(n) and arrive_and_drop, by the last arriver or another, returns the phase in which it began, and in exactly one of its steps, made in that phase, takes n from the count and adds n to the arrivals of that phase |
| `Barrier.CompletesOncePerPhase` | include/coopsync_tbb/barrier.hpp:155-167 | in runs whose every arrival fits when it begins, the completion runs once per phase, after all its arrivals and before the next phase opens |
| `Barrier.OpensWithDropsDeducted` | include/coopsync_tbb/barrier.hpp:159-164 | in the same runs each phase opens with the initial count less all drops so far |
| `Barrier.CountersSuffice` | include/coopsync_tbb/barrier.hpp:150-152 | and fetch_sub never takes more than is expected, nobody drops from an initial count of 0 |
| `Barrier.StuckExactly` | include/coopsync_tbb/barrier.hpp:146-188 | in the states of those runs no task can step if and only if everyone is finished or asleep in the open phase, which has had some arrivals and lacks others |
| `Barrier.AssertionExactly` | include/coopsync_tbb/barrier.hpp:176-181 | the assertion in wait holds for the current phase, and for the one before if and only if the byte is not 0 |
| `BarrierWraps.AssertionFailsAtWrap` | include/coopsync_tbb/barrier.hpp:176-181 | one task doing n rounds on a barrier of 1 reaches the assertion with the token of phase k in phase k + 1 for every k below n after which the byte wraps to 0, and there it fails |
| `Barrier.BytesDecide` | include/coopsync_tbb/barrier.hpp:176-187 | within 256 phases comparing bytes is comparing phases; the first test succeeds exactly one phase later unless the byte is 0 |
| `Barrier.BytesAgree` | include/coopsync_tbb/barrier.hpp:185-187 | in general the bytes agree exactly when the phases differ by a multiple of 256 |
| `Barrier.RunsAreFinite` | include/coopsync_tbb/barrier.hpp:146-201 | every run of any client is bounded by its start |
| `Barrier.NextKeepsInv` | include/coopsync_tbb/barrier.hpp:146-201 | every action but an arrival that does not fit keeps counts, history, tokens and waiters served |
| `Barrier.CarefulStepsPreserve` | include/coopsync_tbb/barrier.hpp:146-201 | every careful action also keeps: while a phase is announced nobody arrives or has a token of it, and only waiters of past phases have been popped |
| `BarrierObject.PhaseBarrier.CountArrival` | include/coopsync_tbb/barrier.hpp:150-155 | fetch_sub; the update fits if it did when the arrival began; who is not the last returns the phase that was loaded |
| `BarrierObject.PhaseBarrier.Complete` | include/coopsync_tbb/barrier.hpp:155-169 | the last arriver's actions, one by one |
| `BarrierObject.PhaseBarrier.TestPhase` | include/coopsync_tbb/barrier.hpp:174-180 | the first test of wait, on ints |
| `BarrierObject.PhaseBarrier.WaitStep` | include/coopsync_tbb/barrier.hpp:184-187 | wait_if of wait |
| `BarrierObject.PhaseBarrier.Run` | include/coopsync_tbb/barrier.hpp:146-201 | under any schedule whatever the object goes through a run of the protocol |
| `BarrierObject.PhaseBarrier.RunAllowed` | include/coopsync_tbb/barrier.hpp:146-201 | with the arrivals that do not fit left out, through a run in which all fit |
| `MultiStream.ResumedAfterAll` | include/coopsync_tbb/cuda/wait_for.hpp:106-127 | for any n and any interleaving of the registration loop and callbacks, resume is called at most once, after every error slot is written, and then nothing touches a slot or the count |
| `MultiStream.StuckExactly` | include/coopsync_tbb/cuda/wait_for.hpp:239-251 | nothing is left to do if and only if the loop is over and every item notified; then resume was called exactly once, and slot k holds the error of the failed registration of stream k, or the status of its callback |
| `MultiStream.RunsAreFinite` | include/coopsync_tbb/cuda/wait_for.hpp:239-251 | n streams take at most 6n steps |
| `MultiStream.NextKeepsInv` | include/coopsync_tbb/cuda/wait_for.hpp:106-127 | every action keeps the count equal to the items not yet counted |
| `MultiStreamObject.Context.NotifyStep` | include/coopsync_tbb/cuda/wait_for.hpp:106-127 | notify and notify_one, one action at a time |
| `MultiStreamObject.Context.LoopStep` | include/coopsync_tbb/cuda/wait_for.hpp:242-249 | the registration loop, notifying failed registrations itself |
| `MultiStreamObject.Context.Run` | include/coopsync_tbb/cuda/wait_for.hpp:239-251 | any interleaving is a run of the protocol |

## Left out

- TBB's suspend, resume and spin mutex are primitive actions: suspend parks the caller, resume makes it run, the lock excludes. The critical section of a resumer is one action, enabled while the lock is free; that of `wait_if` is not.
- Weak memory: `memory_order` arguments are ignored.
- The primitives hold their queue as sequences of waiting tasks (`SuspendQueue`); that the linked lists behave like those sequences is proved in `WaitLists`, once for all of them. There `resume_one` also goes through a local list, of one node.
- SemaphoreTheorems.RunsAreFinite: and the other bounds on runs assume that a weak exchange fails only when the values differ; the safety results do not.
- SemaphoreTheorems.Drain: leaves out `try_acquire`, which beside other calls succeeds or not as the schedule has it (programs of nothing else are in `SemaphoreCalls.TriesTakeExactly`), and tasks that release after acquiring; those that give back no more than they take are in `SemaphoreRounds`. What becomes of the others is not decided by the programs: two tasks that each take two of two permits, one by one, and then release them all finish or both sleep, as they are interleaved.
- Mutex: `try_lock` as a call of its own, and `mutex::scoped_lock`, which repeats the shared mutex's without the modes.
- SharedMutex: the flag `late` and the records of pushes and pops are history and influence no action; the destructors' assertions are the drained states.
- Counters are unbounded integers; `SemaphoreTheorems.ReleaseWithinMax` shows that the semaphore's stays within its storage type.
- Barrier.NobodyLeavesEarly: states sufficiency only, for all programs, of a condition on the run; on programs it is sufficient that the updates fit into one phase (`BarrierLoops.OnePhaseRunsAreCareful`), and the exact condition is proved for loops of `arrive` and `wait`. It and the theorems on counts leave out a wait that 256 further phases overtake, and `arrive(0)`. Phases and tokens are unbounded in the state, compared as bytes; the assertion in `wait` is taken as disabled.
- Barrier.CompletesOncePerPhase: and `OpensWithDropsDeducted`, `CountersSuffice`, `StuckExactly` and `NextKeepsInv` leave out what happens after an arrival that does not fit, where they no longer hold in general; which loops never make one, and that the others break them, is `BarrierOverdraft.CountsHoldExactly`.
- BarrierTokens.ArrivalAnswered: `arrive_and_drop` too leaves its phase behind for a following wait, where the code discards it; a task that arrives, then drops, then waits with what the first of the two returned is not in the model.
- BarrierObject.PhaseBarrier.RunAllowed: skips the actions of a schedule that begin an arrival that does not fit; `Run` skips none.
- AtomicCondition: `notify_one`, and values compared otherwise than by equality; `atomic_flag` and `atomic_ref_condition` repeat it.
- Future: `get_future`, allocators, move-assignment of `promise` (defaulted, it does not break the old state), and the invalidation of a unique future by `get`.
- PackagedTask.InvokeAgain: histories are sequential, and a callable does not itself use the task it belongs to; what it returns or throws is an input.
- MultiStream: the single-stream wait, and the HIP, alpaka and ONNX waits, which repeat the countdown or have one callback; the CUDA calls are inputs.
- `condition_variable` is not part of this model.
- Fairness among readers and writers, which the interface disclaims.
