# Verification of the concurrent hash table and the thread pool

Two libraries vendored under `external/` carry the concurrency of the server: the
open-addressing concurrent hash table in `boost_concurrent.hpp` and the thread pool in
`BS_thread_pool.hpp`. This project models their algorithms in Dafny and proves what
their design promises. `dafny verify dfyconfig.toml` takes all modules together.

## What is modelled

**The sequential table** (`Probing`, `Tables`, `TableModel`, `TableCore`, `TableLimits`).
Groups of 15 slots with a metadata byte per slot, an overflow byte per group and a
sentinel; a power-of-two number of groups probed by triangular steps; a load limit `ml`
that drifts down when an erased element may have caused overflow. `TableCore.TableCore` is
a class with in-place arrays; every operation is proved against a finite map. The
placement of a new element is fixed exactly (`TableCore.Placed`). `Tables.Valid` is the
invariant that makes the early stop of a lookup right: every element sits under its
reduced hash, and every group before it on its probe path has its overflow bit set. A
table of capacity 0 uses the two shared dummy groups, modelled by the `dummy` flag.

**Operations over whole tables** (`TableMerge`, `BulkVisit`). `merge` erases from the source
during its own traversal while the destination may rehash; bulk visit works in chunks
of 16 to 31 keys on buffers that run backwards. Both are proved equal to their simple
meanings.

**Group metadata at the level of bits** (`Words`, `PlainGroup`, `InterleavedGroup`). Without
SIMD a group is two 64-bit words with interleaved bits. A word is modelled as the set
of its one bits, so the masks and shifts of the code are set operations and its tables
of constants are lists of bit positions. Every operation of the interleaved group is
proved to do to the logical sixteen bytes what the SIMD code does to them.

**Optimistic concurrent insertion** (`Protocol`, `ProtocolInvariant`, `ProtocolAccounts`,
`ProtocolTheorems`, `ProtocolTable`, `ProtocolLinearization`, `ProtocolReservation`,
`ProtocolSolo`, `ProtocolRefinement`, `TableGrowth`). A step machine: each of any number
of threads is a program counter over atomic actions of visit, insertion and erasure.
Lookups read metadata bytes one by one without a lock, lock a group on a match, and double-check. An
insertion records the home group's counter, looks up, reserves size, then a slot, then
increments the counter and rolls back if it had moved. Rehashing and clearing are steps
taken by a thread that is alone inside the container; an insertion that finds the table
full leaves it, has it rehashed and enters it anew, as separate steps.
Operations carry their callbacks, as functions of the mapped value. Two fields of
`Protocol.State` are history variables that steps carry on but do not depend on: `claim`
remembers for which key a slot was won at the counter, `table` is the map that the
operations so far amount to. Every operation is shown to be linearizable against a plain
map (`ProtocolLinearization.Apply`), and, left alone, to finish and to do to the arrays what
the sequential table does.

**The locks** (`RwSpinlock`, `LockHierarchy`). The reader-writer spinlock is its 32-bit word
and one step per atomic load or compare-and-swap, including failing and spuriously
failing swaps. `LockHierarchy` composes many of these machines, unchanged: 128 container
spinlocks per table, one spinlock per group, and programs that take them in the order
of shared access, exclusive access and exclusive access to two tables.

**The thread pool** (`ThreadPool`, `ThreadPoolProgress`, `ThreadPoolWaiting`, `Blocks`). A
step machine with the mutex, the queue, `tasks_running`, the flags `waiting` and `paused`, and both condition
variables with explicit sleeping and notified states and spurious wakeups. The history
fields count submissions, starts, completions and purges. `Blocks` is the range splitter
with the loop that submits one task per block.

**Hashing of byte ranges** (`ByteWords`, `HashRange64`, `HashRange32`). The random-access and
the streaming forms, both proved equal to one closed form by block index, for arbitrary word
arithmetic in which the operands of exclusive or may be swapped, hence for any `mulx`;
machine words are shown to be an instance.

## Assumptions

- Interleavings are sequentially consistent.
- The insertion counter of a group does not wrap around; it is an unbounded number.
- The maximum load factor is exactly 7/8, and the products and quotients with it are
  exact before rounding down or up.
- Hashing is a function of the key: a key carries its (mixed) 64-bit hash.
- User callbacks do not enter the table, and constructing an element succeeds. What a
  callback with write access assigns is a function of the mapped value it is shown.
- Sizes do not reach the point where the number of groups exceeds 2^64
  (`TableCore.Growable`, `BitsFor(n) <= 64`).
- In `Protocol`, actions that happen under a group's lock and touch only that group are
  merged with the action that follows them, and a container-wide operation is a single
  step of a thread that is alone inside; `LockHierarchy.ExclusiveHolderIsAlone` and
  `LockHierarchy.ContainerExclusion` are what justifies the latter.

## Where code and promise part

- `TableCore.TableCore.Reserve`: the capacity always suffices for n elements at the
  maximum load factor, but when the capacity already is the one asked for, nothing is
  rehashed, and a load limit that erasures have lowered below n stays there. The contract
  gives this as an equivalence on the state before the call, and
  `TableLimits.ReserveFallsShort` builds such a table by insertions and an erasure.
- `is_sentinel` of the interleaved group looks at the last slot only. It agrees with the
  byte test for every position on groups that hold no sentinel value elsewhere, and on
  no others (`PlainGroup.LastSlotTestIsEnough`); every operation keeps groups so.
- The single flag `waiting` and the silence of `pause()` and `purge()` can strand a thread in
  `wait()`. `ThreadPoolWaiting.StrandsExactly` says at exactly which steps, for any number of
  waiters, and three concrete runs reach a stranded waiter.
- `blocks` divides by the number of blocks asked for, so a nonempty range needs at least
  one; the loop submitters pass the thread count instead of 0, which is at least 1.

## Model

| member | source | states |
|---|---|---|
| `ProtocolTheorems.NoDuplicateKeys` | external/boost_concurrent.hpp:12057-12099 | in every state of every interleaving, two different slots never hold constructed elements with equal keys |
| `ProtocolTheorems.LookupMissesNothing` | external/boost_concurrent.hpp:11677-11716 | a lookup that begins while its key is present, and during which the key stays present, never concludes that it is absent, whatever others insert, mark, roll back or erase; a key is present from the counter increment of its insertion until its erasure |
| `ProtocolTheorems.AbsentAnswerWasRight` | external/boost_concurrent.hpp:11677-11716 | an answer "absent" is right at some moment between the beginning and the end of the lookup: then nobody had won the key at a counter, and no constructed element had it |
| `ProtocolLinearization.EveryOperationLinearizes` | external/boost_concurrent.hpp:12057-12099 | in every run each finished visit, insertion or erasure has a moment between its beginning and its end at which a plain map gives its answer, the value shown to the callback included; an operation that changes the map, by inserting, erasing or assigning a mapped value, is itself the step that does so there, and its thread changes the map at no other step of the operation |
| `ProtocolLinearization.TableChangesByEffects` | external/boost_concurrent.hpp:12057-12107 | the map changes at no other steps, clearing by a thread that is alone apart |
| `ProtocolLinearization.PresentKeyIsFound` | external/boost_concurrent.hpp:11677-11716 | a lookup of a key that stays present finds it within 33 of its own steps for each group, under every schedule |
| `ProtocolTable.TableAtRest` | external/boost_concurrent.hpp:12065-12099 | whenever nobody is inside the container, the map that the operations so far amount to is exactly what the slots of the arrays hold, values included |
| `ProtocolTable.StepTable` | external/boost_concurrent.hpp:12065-12099 | every step keeps the map in agreement with every constructed element, but for one whose insertion callback is still to come |
| `ProtocolReservation.RefusedWasOver` | external/boost_concurrent.hpp:12071-12100 | in every run an insertion that gives its reservation back had made a size above the load limit of the moment of the test |
| `ProtocolReservation.ReservationDecided` | external/boost_concurrent.hpp:12016-12028 | in every run a reservation is refused if the size it made exceeds the load limit at the test, and granted if it does not |
| `ProtocolSolo.LeftAloneFinishes` | external/boost_concurrent.hpp:12065-12107 | obstruction freedom: from every state of every run in which all threads but one are apart, wherever that one is, its own steps end its operation, and however they are taken there are at most 39 for each group, twice over, and for each group after growing, and 24; rolling back, starting over and rehashing are included |
| `ProtocolSolo.SoloIsBounded` | external/boost_concurrent.hpp:12065-12107 | the bound holds for every run in which only that thread moves |
| `ProtocolSolo.OperationAlone` | external/boost_concurrent.hpp:12057-12107 | any operation begun while nobody else is inside can be carried out at once, within the bound, with the answer and the effect of the plain map: an insertion of an absent key returns 1 and its key is there, also in a full table |
| `ProtocolSolo.SoloAnswer` | external/boost_concurrent.hpp:12057-12107 | every run of an operation during which nobody else moves has that answer and that effect |
| `ProtocolSolo.StepSpendsBudget` | external/boost_concurrent.hpp:12065-12107 | while nobody else is inside, each step of an operation lowers the number of steps it has left |
| `ProtocolSolo.NeverStuck` | external/boost_concurrent.hpp:12065-12107 | while nobody else is inside, an operation always has a step |
| `ProtocolRefinement.SoloIsSequential` | external/boost_concurrent.hpp:12065-12107 | an operation during which nobody else is inside does to arrays, size and load limit what the sequential table does: below the limit the element goes where `TableCore.Placed` says, in the same arrays; at the limit the same happens in arrays grown for the same elements with the limit restored; an erasure resets exactly one slot and lowers the limit iff its overflow bit is set in its group; a visit changes at most the mapped value |
| `TableGrowth.RegrownExists` | external/boost_concurrent.hpp:9723-9727 | for every valid table there are arrays of the size that growth asks for with the same elements |
| `ProtocolTheorems.FoundIsStored` | external/boost_concurrent.hpp:11689-11706 | a thread that has found its key, or inserted it, holds that group's lock, and the constructed element with that key is in its slot |
| `ProtocolTheorems.UnlockedGroupSettled` | external/boost_concurrent.hpp:12037-12055 | while no thread holds a group exclusively, each occupied non-sentinel slot of it holds a constructed element: no tentative reservation shows |
| `ProtocolTheorems.LockHolderSeesSettled` | external/boost_concurrent.hpp:12037-12055 | the holder of a group's lock, in either mode, sees each occupied non-sentinel slot of the group constructed, but for the slot it is changing itself |
| `ProtocolTheorems.ScanComparesConstructed` | external/boost_concurrent.hpp:11690-11705 | each occupied slot a lookup compares its key with, under a shared or an exclusive lock, holds a constructed element under its reduced hash; the sentinel is never among them |
| `ProtocolTheorems.InnerStepOnKeys` | external/boost_concurrent.hpp:12065-12099 | inside the container the set of keys changes at two kinds of step only: a counter increment that finds the recorded value adds a key that was absent, a locked erasure removes one that was present |
| `ProtocolTheorems.ExclusiveStepOnKeys` | external/boost_concurrent.hpp:12101-12107 | rehashing when full keeps the set of keys; only clearing empties it |
| `ProtocolTheorems.LoadWithinLimit` | external/boost_concurrent.hpp:12016-12035 | in every state of every run, elements plus reservations not doomed, less decrements that erasures still owe, are at most `ml`, `ml` is within the capacity and never underflows, and `size` is accounted for exactly |
| `ProtocolTheorems.FullMeansEqual` | external/boost_concurrent.hpp:12101-12107 | under exclusive access `size` is the number of elements and "at least `ml`" is "equal to `ml`", so the equality test misses no full table |
| `ProtocolTheorems.GrantedInsertionHasRoom` | external/boost_concurrent.hpp:12071-12097 | an insertion that was granted its size reservation has a free slot somewhere at every moment of its search, so its unguarded loop has something to find |
| `ProtocolTheorems.GroupLocksExclude` | external/boost_concurrent.hpp:10782-10806 | no two threads hold conflicting group locks, and no slot is being changed by two threads |
| `ProtocolTheorems.RunKeeps` | external/boost_concurrent.hpp:12057-12107 | the invariant and the accounts hold in every state of every run |
| `ProtocolInvariant.StepKeeps` | external/boost_concurrent.hpp:12065-12099 | every step of every thread keeps the invariant: locks compatible, slots settled or in the hands of one thread, claims reachable and unique, recorded counters fresh |
| `ProtocolInvariant.AheadStep` | external/boost_concurrent.hpp:11677-11716 | a step of a lookup does not go past the slot that holds its key |
| `ProtocolAccounts.AccountsKept` | external/boost_concurrent.hpp:12016-12035 | every step keeps the accounts of size, load, limit and occupied slots |
| `ProtocolAccounts.LimitNeverUnderflows` | external/boost_concurrent.hpp:10009-10018 | the anti-drift decrements never take `ml` below zero, whatever erasures are under way |
| `ProtocolAccounts.ReservationHasRoom` | external/boost_concurrent.hpp:12071-12097 | while some insertion holds a reservation and no slot, fewer slots are taken than there are |
| `LockHierarchy.ExclusiveHolderIsAlone` | external/boost_concurrent.hpp:10495-10496 | a thread with exclusive access to a table holds each of its 128 spinlocks, and no other thread holds any of them, in every state of every run |
| `LockHierarchy.ContainerExclusion` | external/boost_concurrent.hpp:11502-11526 | two threads are inside accesses to the same table only if both share it, also when one holds two tables |
| `LockHierarchy.GroupExclusion` | external/boost_concurrent.hpp:11528-11542 | two threads hold the same group lock only if both share it |
| `LockHierarchy.NoCircularWait` | external/boost_concurrent.hpp:10542-10572 | every set of waiting threads has a member that no member keeps waiting, pending writers included, so there is no circular wait of any length |
| `LockHierarchy.SomeoneCanProceed` | external/boost_concurrent.hpp:10495-10496 | no deadlock: while some thread is inside an access, some thread, by its own steps alone, gets the spinlock it is waiting for within three steps, or waits for none and gets out |
| `LockHierarchy.EveryoneCanLeave` | external/boost_concurrent.hpp:11502-11542 | every run can be continued until all threads are outside and the word of every spinlock is zero |
| `LockHierarchy.FreeSpinlockIsTaken` | external/boost_concurrent.hpp:10542-10572 | a waiting thread whose spinlock is free, wherever it stands in its attempt, holds it after at most three own steps, and nothing else has changed in the programs |
| `LockHierarchy.MayGoFor` | external/boost_concurrent.hpp:11502-11542 | a thread outside may begin any access, and one within may go for any group lock |
| `LockHierarchy.OrderAscends` | external/boost_concurrent.hpp:10542-10572 | one spinlock, the multimutex loop and the address-ordered pair all take spinlocks in strictly ascending order |
| `LockHierarchy.StepKeeps` | external/boost_concurrent.hpp:11502-11542 | every step keeps every spinlock's invariant and the agreement between programs and spinlock states |
| `RwSpinlock.WordMeaning` | external/boost_concurrent.hpp:7414-7569 | in every run the low 30 bits are the number of readers and never carry; bit 31 is set iff there is a writer, then the word is exactly that bit and there are no readers; there is at most one writer |
| `RwSpinlock.Exclusion` | external/boost_concurrent.hpp:7414-7569 | a writer excludes every other holder |
| `RwSpinlock.PendingBlocksReaders` | external/boost_concurrent.hpp:7485-7499 | while bit 30 is set, no step but an exclusive acquisition raises the reader count or clears the bit |
| `RwSpinlock.WriterPreference` | external/boost_concurrent.hpp:7485-7562 | from the moment bit 30 is set until some exclusive acquisition, the reader count never rises |
| `RwSpinlock.PendingIsOwned` | external/boost_concurrent.hpp:7531-7562 | whenever bit 30 is set some thread is inside `lock()`; with the readers gone, its next undisturbed attempt acquires |
| `RwSpinlock.FreeLockAdmits` | external/boost_concurrent.hpp:7485-7562 | a thread that loads the word in `lock_shared` with no writer inside or announced, or in `lock` with nobody inside, has a swap before it that takes the lock, with the word one higher or exactly the exclusive bit, and can do nothing else but return to the load |
| `RwSpinlock.FreeLockAdmitsTry` | external/boost_concurrent.hpp:7471-7529 | in `try_lock_shared` and `try_lock` the undisturbed swap takes the lock and can do nothing else |
| `RwSpinlock.TakenLockRefuses` | external/boost_concurrent.hpp:7471-7562 | if the lock is not free the try functions give up and change nothing, a reader stays at its load, a writer waits for a writer or an announced one and otherwise announces itself |
| `RwSpinlock.StaleSwapFails` | external/boost_concurrent.hpp:7485-7562 | a swap that comes too late leaves the word alone |
| `RwSpinlock.HolderLeaves` | external/boost_concurrent.hpp:7501-7567 | a holder can release at any time; that takes away exactly its own hold, and a reader leaves an announced writer announced |
| `RwSpinlock.CallsBegin` | external/boost_concurrent.hpp:7471-7562 | an idle thread may begin any of the four calls and nothing else, without touching the word |
| `RwSpinlock.GetsInAlone` | external/boost_concurrent.hpp:7485-7562 | wherever a thread stands in `lock_shared` or `lock`, if the lock is free it holds it after at most three own steps |
| `RwSpinlock.StepKeeps` | external/boost_concurrent.hpp:7471-7567 | every load and compare-and-swap, successful or not, keeps the invariant |
| `RwSpinlock.PendingMask` | external/boost_concurrent.hpp:7418-7424 | testing bit 30 by mask is the arithmetic reading used in the model |
| `RwSpinlock.CountMask` | external/boost_concurrent.hpp:7418-7424 | the low 30 bits by mask are the remainder used in the model |
| `RwSpinlock.PendingOr` | external/boost_concurrent.hpp:7556-7557 | setting bit 30 by mask is the addition used in the model |
| `ThreadPool.TasksConserved` | external/BS_thread_pool.hpp:1417-1427 | in every run and for every popping order, each submitted task is in exactly one of queued, running, finished, purged, and was started at most once |
| `ThreadPool.RunningCounterExact` | external/BS_thread_pool.hpp:1995-2044 | `tasks_running` is the number of workers initializing or between popping a task and reporting it, so it never underflows |
| `ThreadPool.WaitMeansDone` | external/BS_thread_pool.hpp:1787-1807 | when the condition of `wait()` holds no task is running, and unpaused every task submitted so far has finished or been purged |
| `ThreadPool.NoIdleWorkerWithTasks` | external/BS_thread_pool.hpp:1417-1427 | with no notification outstanding and no woken worker on its way, an unpaused pool with queued tasks has no sleeping worker |
| `ThreadPool.SleepersAreAlerted` | external/BS_thread_pool.hpp:2013-2021 | unpaused with no `notify_all` outstanding, while a worker sleeps the queue is no longer than the alerts: woken workers plus pending notifications |
| `ThreadPool.StepKeeps` | external/BS_thread_pool.hpp:1995-2044 | every step of workers and clients keeps mutual exclusion, the counter, conservation and the alerts |
| `ThreadPoolProgress.StartedInOrder` | external/BS_thread_pool.hpp:1963-1972 | in every state of every run of a pool without priorities, a task that has been started was submitted before every task still queued |
| `ThreadPoolProgress.TakesHighest` | external/BS_thread_pool.hpp:1963-1972 | a step that takes a task off the queue into a worker takes exactly one, and with priorities leaves none of higher priority behind |
| `ThreadPoolProgress.PriorityKept` | external/BS_thread_pool.hpp:1417-1427 | a task keeps the priority it was submitted with as long as it is queued |
| `ThreadPoolProgress.PausedStartsNothing` | external/BS_thread_pool.hpp:1516-1520 | from `pause` until `unpause`, whatever else happens, no task is started |
| `ThreadPoolProgress.SoloWorkerEmptiesQueue` | external/BS_thread_pool.hpp:1995-2044 | however long a worker alone moves, it sleeps after at most six steps for each queued task and five more, and in a pool that is not paused it has then finished every queued task and its own |
| `ThreadPoolProgress.WorkerGoesToSleep` | external/BS_thread_pool.hpp:1995-2044 | unless somebody else has the mutex, a worker can always go on until it sleeps |
| `ThreadPoolProgress.CallsTakeEffect` | external/BS_thread_pool.hpp:1417-1530 | with the mutex free a client may detach, pause, unpause, purge or wait, and when it lets go of the mutex the call has taken effect |
| `ThreadPoolProgress.NotificationsWake` | external/BS_thread_pool.hpp:1426-1426 | the notification of a submission wakes one sleeping worker if there is one, that of `unpause` all |
| `ThreadPoolProgress.WaiterGoesOn` | external/BS_thread_pool.hpp:1796-1807 | in `wait` with the mutex the condition decides between returning and sleeping; a woken waiter can have the mutex as soon as it is free |
| `ThreadPoolProgress.ReturnMeansDone` | external/BS_thread_pool.hpp:1787-1807 | when a call of `wait` returns no task is running, and unpaused every task submitted so far has finished or been purged |
| `ThreadPoolWaiting.GuardBreaksAtHazardsOnly` | external/BS_thread_pool.hpp:1516-1529 | while the flag announces every waiter and each sleeper whose condition holds is about to be notified, a step breaks that joint guarantee iff it pauses or purges while one sleeps and no task is running, or returns from `wait()`, lowering the flag, while another thread waits |
| `ThreadPoolWaiting.StrandsExactly` | external/BS_thread_pool.hpp:2001-2013 | for any number of waiters, a step leaves a sleeper alone with its condition true iff it pauses or purges with no task running and a sleeper, or is a worker's report withheld because the flag is down although all is done and a waiter sleeps |
| `ThreadPoolWaiting.UnservedWasStranded` | external/BS_thread_pool.hpp:1787-1807 | in every run, a sleeper left alone with its condition true was stranded by exactly such a step, and has been alone since |
| `ThreadPoolWaiting.SoleWaiterLosesNoWakeup` | external/BS_thread_pool.hpp:1787-1807 | whatever happened before, from a call of `wait()` that finds nobody waiting, for as long as nobody else waits and nobody pauses or purges, the waiter never sleeps un-notified with the mutex free while its condition is true |
| `ThreadPoolWaiting.PurgeCanStrandWaiter` | external/BS_thread_pool.hpp:1525-1529 | a run in which a purge leaves a waiter asleep with its condition true and nobody to wake it |
| `ThreadPoolWaiting.PauseCanStrandWaiter` | external/BS_thread_pool.hpp:1516-1520 | the same for a pause |
| `ThreadPoolWaiting.TwoWaitersCanStrand` | external/BS_thread_pool.hpp:1796-1807 | the same for a second waiter, without any pause or purge, because the first one clears the shared flag |
| `TableCore.TableCore.Find` | external/boost_concurrent.hpp:9468-9504 | finds the key iff it is in the map, with its value, although probing stops at the first group whose overflow bit is clear; also for the dummy groups |
| `TableModel.StopIsRight` | external/boost_concurrent.hpp:9494-9503 | if no group up to step i holds the key and the overflow bit there is clear, or all groups were seen, the key is nowhere in the table |
| `TableCore.TableCore.Emplace` | external/boost_concurrent.hpp:11988-12004 | inserts iff the key is absent; the map gains exactly that entry and nothing changes otherwise; below the load limit the element goes where `TableCore.Placed` says, in the same arrays and with the limit kept; at the limit the new number of groups is the least power of two, from 2 on, that holds one element more and a sixty-first of the old ones at load factor 7/8, exactly double for a table full at the limit it was made with, and the limit is restored |
| `TableCore.TableArrays.EmplaceAt` | external/boost_concurrent.hpp:10115-10134 | the element takes the lowest available slot of the first group on its path that is not full, which is reached within one round of the groups; exactly the groups before it, all full, get the overflow bit of its class; every other element stays findable and the map gains one entry |
| `TableModel.PlaceKeepsValid` | external/boost_concurrent.hpp:10121-10132 | placing an element in an available slot whose earlier path is marked keeps the invariant and adds its entry to the map |
| `TableCore.TableCore.EmplaceWithRehash` | external/boost_concurrent.hpp:9729-9751 | new arrays, with that least number of groups, receive the new element, then all others; the map gains one entry |
| `TableCore.TableCore.UncheckedRehash` | external/boost_concurrent.hpp:10036-10071 | the map, the size and the set of stored elements survive; the load limit is restored |
| `TableCore.TableCore.RehashForGrowth` | external/boost_concurrent.hpp:9723-9727 | the same, with that least number of groups, and afterwards the size is below the load limit |
| `TableCore.TableCore.Rehash` | external/boost_concurrent.hpp:9573-9580 | the number of groups becomes the least one with capacity for n that holds the elements at load factor 7/8, none if there are no elements and n is 0; equal capacity changes nothing, not even the limit |
| `TableCore.TableCore.Reserve` | external/boost_concurrent.hpp:9582-9585 | the number of groups becomes the least one that holds n elements, and those present, at load factor 7/8; the load limit admits n elements unless the capacity already was the one asked for and erasures had lowered the limit below n, and then arrays and limit are kept |
| `TableLimits.ReserveFallsShort` | external/boost_concurrent.hpp:9582-9585 | a concrete table, built by insertions and one erasure, whose limit is 50 after room for 51 is reserved although its capacity is good for 51 |
| `TableCore.TableCore.EraseAt` | external/boost_concurrent.hpp:10009-10018 | removes exactly that entry, keeps overflow bytes, and lowers the limit by one iff the element's overflow bit is set in its group, without underflow |
| `TableModel.ResetKeepsValid` | external/boost_concurrent.hpp:10009-10018 | resetting a slot keeps every other element findable and removes one entry |
| `TableCore.TableCore.Erase` | external/boost_concurrent.hpp:11280-11303 | removes the key iff present and returns how many were removed |
| `TableCore.TableCore.Clear` | external/boost_concurrent.hpp:9535-9553 | empties the map, wipes metadata and overflow, restores sentinel and limit; does nothing to the dummy groups |
| `TableCore.TableCore.constructor` | external/boost_concurrent.hpp:9851-9857 | an empty valid table with the initial load limit |
| `TableModel.WipedIsEmpty` | external/boost_concurrent.hpp:9535-9553 | wiped arrays with the sentinel put back are a valid empty table |
| `TableCore.Transfer` | external/boost_concurrent.hpp:10036-10043 | a rehash loop ends with the target holding its own entries and all of the source's |
| `TableCore.SizeIsKeyCount` | external/boost_concurrent.hpp:9437-9438 | `size()` is the number of keys |
| `TableModel.OverflowKeepsValid` | external/boost_concurrent.hpp:10132-10132 | marking more overflow bits hides no element |
| `Probing.ProbeSurjective` | external/boost_concurrent.hpp:8628-8649 | every group of a table of 2^n groups is visited within the first 2^n probes |
| `Probing.ProbeInjective` | external/boost_concurrent.hpp:8628-8649 | no two of the first 2^n probes visit the same group |
| `Probing.ProbeGoesRound` | external/boost_concurrent.hpp:12072-12072 | a prober that is not stopped visits every group again and again: probes two rounds apart coincide |
| `Probing.ProbeIsTriangular` | external/boost_concurrent.hpp:8640-8645 | after i steps the prober stands at the home group plus the i-th triangular number, modulo the number of groups |
| `Probing.MaskedIsRemainder` | external/boost_concurrent.hpp:8640-8645 | the bitwise and with one less than a power of two is the remainder |
| `TableCore.Prober.Next` | external/boost_concurrent.hpp:8640-8645 | the prober's position follows the probe path, and it returns false exactly when the path is exhausted |
| `Tables.CapacityForIsStable` | external/boost_concurrent.hpp:10025-10028 | the capacity allotted for n is at least n and is its own rounding |
| `Tables.LeastPower` | external/boost_concurrent.hpp:8590-8604 | a number of groups is the one allotted iff it is the least power of two that is at least 2 and at least what was asked for |
| `Tables.LeastCapacity` | external/boost_concurrent.hpp:10025-10028 | a number of groups is the one allotted for n elements iff it is the least power of two, from 2 on, whose slots but one are at least n |
| `Tables.ForLoadIsLeast` | external/boost_concurrent.hpp:9582-9585 | dividing by the load factor and rounding up gives the least capacity that holds n elements at that factor |
| `Tables.LeastGrowth` | external/boost_concurrent.hpp:9868-9882 | a number of groups is the one that growth from a size asks for iff it is the least power of two, from 2 on, that holds one element more and a sixty-first of the old ones at load factor 7/8 |
| `Tables.GrowthDoubles` | external/boost_concurrent.hpp:9868-9882 | a table that is full at the limit it was made with doubles its groups |
| `Tables.InitialMaxLoad` | external/boost_concurrent.hpp:9307-9318 | the load limit is the capacity up to 29 elements, and above that the greatest number within 7/8 of it |
| `Tables.Home` | external/boost_concurrent.hpp:8608-8611 | probing starts at the group that the top bits of the hash name |
| `Tables.LoadCoversRequest` | external/boost_concurrent.hpp:9307-9318 | the limit of a table allotted for n divided by the load factor is at least n: rounding down never undoes rounding up |
| `Tables.GrowthMakesRoom` | external/boost_concurrent.hpp:9868-9882 | the load limit after growth exceeds the old size |
| `Tables.ReducedHash` | external/boost_concurrent.hpp:8480-8502 | the reduced hash is in [2, 255], keeps the hash modulo 8, is the low byte unless that is reserved, and then is 8 or 9 |
| `TableMerge.Merge` | external/boost_concurrent.hpp:11374-11391 | the destination becomes the union with its own entries winning, the source keeps exactly the entries whose keys the destination had, the result is the number moved, and sizes are conserved |
| `TableMerge.MergeSelf` | external/boost_concurrent.hpp:11374-11391 | merging a table into itself moves nothing and changes nothing |
| `TableMerge.MergeSlot` | external/boost_concurrent.hpp:11385-11389 | one turn of the traversal, with erasure from the source and possible rehash of the destination, keeps the union and remainder so far exact |
| `BulkVisit.Visit` | external/boost_concurrent.hpp:11591-11609 | bulk visit visits exactly the slots, in exactly the order, of one-by-one visits and returns their number |
| `BulkVisit.VisitEach` | external/boost_concurrent.hpp:11660-11716 | visiting the keys one by one gives that sequence of slots and that count |
| `BulkVisit.VisitChunk` | external/boost_concurrent.hpp:11718-11793 | a chunk of at most 31 keys never indexes past the buffers and visits what its keys' own visits would |
| `BulkVisit.VisitFrom` | external/boost_concurrent.hpp:11751-11790 | from a precomputed group and mask, a key's turn ends at the slot that holds it, or at none iff it is absent |
| `BulkVisit.VisitsConcat` | external/boost_concurrent.hpp:11599-11607 | visiting two sequences of keys in turn is visiting their concatenation |
| `BulkVisit.VisitedKeys` | external/boost_concurrent.hpp:11591-11609 | the i-th slot visited holds the i-th, in order and with repetition, of the asked-for keys that are present, and there are no more visits |
| `InterleavedGroup.Group15.Set` | external/boost_concurrent.hpp:8392-8396 | sets the slot's logical byte to the reduced hash and leaves every other byte and the overflow byte alone |
| `InterleavedGroup.Group15.SetSentinel` | external/boost_concurrent.hpp:8398-8401 | sets the last slot's byte to the sentinel and nothing else |
| `InterleavedGroup.Group15.Reset` | external/boost_concurrent.hpp:8413-8417 | clears the slot's byte and nothing else |
| `InterleavedGroup.Group15.MarkOverflow` | external/boost_concurrent.hpp:8436-8439 | sets bit hash % 8 of the overflow byte and nothing else |
| `InterleavedGroup.Group15.Match` | external/boost_concurrent.hpp:8426-8429 | the mask is exactly the set of positions whose byte is the reduced hash |
| `InterleavedGroup.Group15.MatchAvailable` | external/boost_concurrent.hpp:8450-8456 | the mask is exactly the set of positions whose byte is zero |
| `InterleavedGroup.Group15.MatchOccupied` | external/boost_concurrent.hpp:8465-8471 | the mask is exactly the complement of that |
| `InterleavedGroup.Group15.IsOccupied` | external/boost_concurrent.hpp:8458-8463 | tells whether the byte is not zero |
| `InterleavedGroup.Group15.IsSentinel` | external/boost_concurrent.hpp:8403-8411 | tells whether this is the last slot and holds the sentinel; on regular groups, whether the byte is the sentinel |
| `InterleavedGroup.Group15.IsNotOverflowed` | external/boost_concurrent.hpp:8431-8434 | reads bit hash % 8 of the logical overflow byte |
| `InterleavedGroup.Group15.MaybeCausedOverflow` | external/boost_concurrent.hpp:8441-8448 | the three gathered bits are the byte modulo 8, so it tests the overflow bit of the byte's class |
| `InterleavedGroup.SetNibbleNibble` | external/boost_concurrent.hpp:8504-8535 | the two tables and shifts replace exactly one position's four bits in a word |
| `InterleavedGroup.MatchFindsBytes` | external/boost_concurrent.hpp:8537-8555 | exclusive or with the fill table, folding and masking select exactly the equal bytes |
| `InterleavedGroup.AvailableFindsZeros` | external/boost_concurrent.hpp:8450-8456 | folding the complement selects exactly the zero bytes |
| `InterleavedGroup.OccupiedFindsNonzeros` | external/boost_concurrent.hpp:8465-8471 | folding by or selects exactly the nonzero bytes |
| `InterleavedGroup.SentinelTest` | external/boost_concurrent.hpp:8403-8411 | the two masked comparisons hold iff the last byte is the sentinel |
| `InterleavedGroup.GatheredIsByteModulo8` | external/boost_concurrent.hpp:8441-8448 | gathering by three shifts recovers the byte modulo 8 |
| `PlainGroup.StoredByteFindsOverflowBit` | external/boost_concurrent.hpp:8048-8053 | for every hash, the byte stored for it finds the overflow bit of the whole hash |
| `PlainGroup.LastSlotTestIsEnough` | external/boost_concurrent.hpp:8403-8411 | testing the last slot only agrees with testing the given byte iff no other slot holds the sentinel value |
| `PlainGroup.OperationsKeepRegular` | external/boost_concurrent.hpp:7997-8046 | every operation keeps the sentinel value off slots 0 to 13 |
| `HashRange64.HashBlocks` | external/boost_concurrent.hpp:13346-13397 | for every byte sequence and seed the block-reading form, length first, computes the closed form by block index: the initial word, the length and for each block of the zero-padded range the product of its number moved by its own step of q, all in one exclusive or, and a last product with one more step |
| `HashRange64.HashStream` | external/boost_concurrent.hpp:13399-13503 | so does the streaming form with the length last, for any exclusive or whose operands may be swapped |
| `HashRange64.MachineIsLawful` | external/boost_concurrent.hpp:13357-13361 | 64-bit words with any mulx are such an instance |
| `HashRange64.OrderMatters` | external/boost_concurrent.hpp:13367-13368 | the place of a block matters: a lawful machine tells AAAAAAAABBBBBBBB from BBBBBBBBAAAAAAAA |
| `HashRange32.HashBlocks` | external/boost_concurrent.hpp:13190-13242 | the closed form, with blocks of four bytes and the product of the two halves at the end, for the 32-bit block-reading form |
| `HashRange32.HashStream` | external/boost_concurrent.hpp:13244-13315 | the same for the 32-bit streaming form |
| `HashRange32.Machine32IsLawful` | external/boost_concurrent.hpp:13185-13188 | 32-bit words with the 64-bit product are an instance |
| `HashRange32.OrderMatters` | external/boost_concurrent.hpp:13217-13218 | the same for the 32-bit pair, with blocks of four bytes |
| `ByteWords.TwoReadsIsTail` | external/boost_concurrent.hpp:13377-13380 | two overlapping four-byte reads assemble exactly a tail of 4 to 7 bytes, zero padded |
| `ByteWords.ThreeBytesIsTail` | external/boost_concurrent.hpp:13381-13390 | three byte reads that may coincide assemble exactly a tail of 1 to 3 bytes |
| `ByteWords.Read64IsSlice` | external/boost_concurrent.hpp:13319-13333 | the eight shifted bytes are the little-endian word |
| `ByteWords.Read32IsSlice` | external/boost_concurrent.hpp:13159-13171 | the four shifted bytes are the little-endian word |
| `ByteWords.OrAppends` | external/boost_concurrent.hpp:13415-13490 | OR with one more shifted byte appends it |
| `Blocks.Pool.DetachLoop` | external/BS_thread_pool.hpp:1361-1378 | the submitted tasks together call the loop for the whole range in order, no task is empty, and lengths differ by at most one; without a number of blocks given there are as many as threads, but no more than indices |
| `Blocks.BlocksTile` | external/BS_thread_pool.hpp:463-513 | blocks start at the first index, end at the last, follow each other, are not empty, and exactly the first `remainder` are one longer, so no two differ by more than one |
| `Blocks.OneBlockPerIndex` | external/BS_thread_pool.hpp:463-513 | every index of the range lies in exactly one block |
| `Blocks.RangeHasEachOnce` | external/BS_thread_pool.hpp:1361-1378 | a range in order contains each of its indices once and nothing else |
| `Blocks.WrappedSum` | external/BS_thread_pool.hpp:510-513 | wrapping the summands of a start changes nothing as long as the start itself is representable |
| `Blocks.Blocks.constructor` | external/BS_thread_pool.hpp:463-481 | as many blocks as asked for but no more than indices, none for an empty range |
| `Blocks.Blocks.Start` | external/BS_thread_pool.hpp:510-513 | with its conversions, the start of block b is the exact bound |
| `Blocks.Blocks.End` | external/BS_thread_pool.hpp:489-492 | the end of block b is the start of the next, or the last index |
| `Blocks.DetermineThreadCount` | external/BS_thread_pool.hpp:1949-1956 | the thread count is positive, the given one if it is |
| `Blocks.Pool.constructor` | external/BS_thread_pool.hpp:1887-1899 | a pool always has a thread, so the loop submitters never divide by zero |

## Left out

- Protocol.Step: rehash, clear and other container-wide operations are one step; their inner loops are proved in the sequential table instead.
- Protocol.LookupStep: an erasure always erases what it finds; `erase_if` with a predicate that refuses is the visit with exclusive access.
- Protocol.CommitStep: the 32-bit insertion counter does not wrap around in the model.
- ProtocolLinearization.PresentKeyIsFound: counts steps taken; a lookup that waits for a group's lock takes none.
- TableCore.TableCore.Rehash: requests for more than 2^64 groups, where the code would overflow or fail to allocate, are excluded.
- TableCore.Transfer: the traversal over groups and occupied masks is one loop over slots in the same order; moving and destroying elements is not distinguished from copying.
- TableMerge.Merge: the two tables have the same hash function and the traversal is one loop over slots.
- BulkVisit.Visit: runs on a table that is not modified meanwhile; locks and prefetching are left out, and a mask is a set of positions scanned upwards.
- LockHierarchy.NoCircularWait: callbacks take no locks; a thread runs one container operation at a time.
- LockHierarchy.SomeoneCanProceed: some thread can go on, not every thread is eventually served; a weak swap that fails spuriously for ever is not excluded.
- ProtocolSolo.LeftAloneFinishes: threads that keep moving each other's insertion counters can make each other start over; nothing is said of fairness among them. The arrays after growing must be addressable (`ProtocolSolo.CanGrow`).
- HashRange64.HashStream: the unrolled reads of eight bytes are a method with a loop, and the assembled word is kept as its eight bytes.
- HashRange32.HashStream: the same with four bytes.
- Blocks.Pool.DetachLoop: the common index type of mixed arguments and the overflow of the range's size are left out; the tasks are returned instead of entering the queue.
- ThreadPoolWaiting.SoleWaiterLosesNoWakeup: says nothing of a wait during which another thread waits or anyone pauses or purges; there it can fail, and ThreadPoolWaiting.StrandsExactly takes over.
- ThreadPool.WaitMeansDone: timeouts of `wait_for` and `wait_until` are left out.
- Wakeups across `reset()` and the destruction and creation of worker threads.
- Weak memory orderings, and reads of the interleaved layout torn between its two words; the concurrent model reads metadata byte by byte.
- Exceptions in hashing, comparing or constructing elements, and their rollback paths.
- SIMD code as such; its meaning is the byte layout.
- Allocators, memory layout, iterators, copy and move of tables, swap, extraction, `visit_all` and the other whole-table visits, parallel-algorithm overloads, serialization, statistics, debugger support.
- `submit_loop`, `detach_blocks`, `submit_blocks` and the sequence submitters, which repeat the loop proved for `detach_loop` or need no splitting.
- Futures, promises, native thread extensions, `synced_stream` and semaphores.
- `external/expected.hpp`, the MP11 metaprogramming, the server's own headers, the indexer, the configuration and the scripts: declarations, data or easy properties.
