# Verified model of the async-lock protocols

async-lock builds five synchronization primitives on atomic words and the `Event` wake-up queue: a mutex, a
reader-writer lock, a once cell, a semaphore and a barrier. This project models each of them at the granularity
at which the code can be interleaved: one atomic load, compare-exchange, `fetch_*`, `listen`, `notify` or listener
poll is one step. Dropping a future at a suspension point, dropping a guard and converting a guard are
cut into their own atomic operations in the same way. Futures, guards and unfinished unlocks of any number of
concurrent callers take these steps in any order.

## How it is organized

Each primitive comes in two layers.

* A **machine** (`Mutex.dfy`, `RwLock.dfy`, `Semaphore.dfy`, `OnceCell.dfy`, `Barrier.dfy`, `ArcLock.dfy`): a state,
  the actions that are enabled in it and the state after each. Its invariants and theorems speak about every run of
  the machine under every interleaving and every cancellation. The reader-writer lock, the barrier and the `Arc`
  layer contain the machine they build on (`RwLockModel` contains `MutexModel`, `ArcModel` contains `RwLockModel`),
  so their theorems are about the composition. A machine that uses another one needs only the contract that
  `MutexModel.Shape` states about it: how an action changes the live guards, the unlocks under way and the phase of
  each lock future.
* An **object** (`MutexObject.dfy`, `RwLockObject.dfy`, `SemaphoreObject.dfy`, `OnceCellObject.dfy`,
  `BarrierObject.dfy`, `ArcObject.dfy`): classes whose methods have the control flow of the source, with its loops,
  early returns and branches, and change the atomic word, the events and the fields of the future in place. Before
  each atomic operation the other callers may do anything (`Others`, `Yield`: an arbitrary sequence of enabled
  actions of the machine that are not the caller's own). The ghost field `trace` logs all atomic operations, and
  `Valid` says that the object is in the state which the machine reaches by that log. So every theorem about runs
  holds of the objects, and a method that took another branch, skipped an operation or swapped two of them could
  not keep `Valid` with its operation at the program point that its contract names. Where the order of operations is
  the point, a contract lists them: `Made(id)` is the sequence of operations that `id` has made, read off the log. A poll takes a bound `turns`:
  it ends, or it was stopped for good after at least that many recorded operations (`Preempted`, `Stopped`).

`Events.dfy` is the assumed contract of the `event_listener` crate, which is not part of this model otherwise: a FIFO
queue of listeners, each notified or not. `notify(n)` tops the notified ones up to `n`, `notify_additional(n)`
notifies `n` more, a listener that polls ready leaves without passing its notification on, and a notified listener
that is dropped passes it on in the kind it received. A completed future keeps its listener until it is dropped;
the models keep "completed, not dropped" as a state.

The steps of the larger machines are described by an *effect* of the acting operation alone (where it goes, the new
word, at most one operation on the inner mutex and on each event). For each group of program points one lemma shows
that the effects are *lawful*, a condition on the acting operation that mentions nobody else, and for each invariant
one lemma shows that a lawful step keeps it for everybody.

## What is proved, in short

* **Everywhere.** Of two listeners the one registered first is notified first, each `notify` wakes no more than it says,
  a process ends only after an overflow, and an operation that is left alone completes or waits after a few steps.
* **Mutex.** The word is twice the starved operations that are counted plus one for the single holder, under any
  cancellation; no wake-up is lost; while anybody is counted only counted operations acquire.
* **Reader-writer lock.** Word accounting, exclusion between all modes, real bounds on the word, write preference,
  refinement of an abstract lock with a value, and deadlock freedom of the lock together with its inner mutex.
* **The silent downgrade.** `downgrade_to_upgradable` clears the writer bit without waking readers, and
  `upgradable_read_unlock` does not do so later, so a reader can sleep for ever beside a free lock
  (`StrandedForever`). `ReadersCoveredIff` gives the exact condition for every step from every reachable state: the
  wake-up is lost if and only if the conversion is called while a reader is parked on an unnotified listener, no
  listener of `no_writer` is notified, and nobody is about to notify. Deadlock freedom is proved for every run without
  such a call; in all other runs nothing but parked readers can be left pending (`OnlySilenceStrands`).
* **Semaphore.** Permits are conserved. The claim that a free permit and a parked waiter imply a notification in
  transit is false (`FreePermitSleepingWaiter`); `StrongProgressIff` says by exactly which step it is lost. The weaker
  claim, a notification in transit or a live guard, is lost by exactly one kind of `forget` (`ProgressIff`, reached in
  `ForgetStrands`), and `WakeupOrGuard` and `NobodyStarves` hold in every run without it.
* **Once cell.** Exactly one initializer at a time, one value, never overwritten under shared access, each call's value
  published exactly if the call reports success, unchecked reads are sound, nobody is stranded.
* **Barrier.** Over every run: `n` arrivals per finished generation and a count below `n`, exactly one leader elected
  per generation, no early return, nobody is stranded.
* **Arc.** Every owned guard and `UpgradeArc` is a record with its own `Arc` field, which is cloned, moved, taken or
  dropped where the code does so. The strong count then equals handles plus live owned guards plus pending
  `UpgradeArc` futures plus unfinished drops; every drop finds its `Arc` and finds the raw lock left before; nothing
  uses the lock after the last reference, and nothing leaks.

In the code the early return of `RawWrite` for a word that is already the writer bit (src/rwlock/raw.rs:467-470) is
never taken, whatever its comment suggests; `TakerFindsBitClear` proves it. A barrier for zero tasks behaves like a
barrier for one. The word of the mutex is bounded by 2^63 + 1, that of the reader-writer lock by
2^63 + 3, because the upgradable paths check for overflow once before their loop.

## Model

| member | source | states |
|---|---|---|
| MutexModel.MutualExclusion | src/mutex.rs:164-207 | in every reachable state the word is twice the counted starved futures plus the holder, there is at most one holder, and the word stays between 0 and 2^63 + 1 |
| MutexModel.ApplyKeepsInv | src/mutex.rs:516-631 | every atomic step, cancellation, unlock and `try_lock` keeps the accounting, the registration of listeners and the wake-up invariant |
| MutexModel.WakeupsUnderWay | src/mutex.rs:533-630 | an even word with somebody counted or parked unwoken means a notified listener, an unlock before its `notify`, or an operation that will retry or re-notify |
| MutexModel.HotUnwoken | src/mutex.rs:540-591 | a newcomer that sees an even word of 2 or more and parks without notifying leaves a wake-up in transit |
| MutexModel.DeadlockFreedom | src/mutex.rs:516-631 | when nothing can step, no guard lives and no completed future is kept, no lock future is left |
| MutexModel.Fairness | src/mutex.rs:603-628 | while somebody is counted only counted operations acquire, and the compare-exchange 2 to 3 wins only for the sole one |
| MutexModel.DropKeepsInv | src/mutex.rs:469-513 | dropping a future at any suspension point keeps the counter and loses no wake-up |
| MutexModel.Shape | src/mutex.rs:324-378 | the contract of the mutex for its users: change of guards, of unlocks under way and of each future's phase |
| MutexModel.AbortsOnlyOnOverflow | src/mutex.rs:588-591 | the process ends only in a run that drives the word over usize::MAX / 2, which is 2^63 - 1 |
| MutexModel.FirstInFirstOut | src/mutex.rs:203-207 | over every run, of two listeners the one that registered first is notified first |
| MutexModel.UnlockWakesOne | src/mutex.rs:203-207 | an unlock tops the notified listeners up to one, the first in line, and wakes nobody else |
| MutexModel.SoloPollEnds | src/mutex.rs:520-631 | from every reachable state a future that nobody interferes with makes at most 16 atomic steps before it is done or has to wait |
| MutexModel.FreeMutexIsTaken | src/mutex.rs:533-586 | a future never goes to wait on a mutex that is free with nobody starved, unless it just gave up the hot loop |
| MutexObject.Mutex.TryLock | src/mutex.rs:164-174 | succeeds exactly when the word is 0, and then the caller holds the only guard |
| MutexObject.Mutex.UnlockUnchecked | src/mutex.rs:203-207 | exactly two operations, the bit cleared first; the second tops the notified listeners up to one, the first in line |
| MutexObject.LockFuture.Poll | src/mutex.rs:520-631 | ready means the only guard; a first poll of a free mutex is ready; pending means an unnotified listener and, if the word is even, a wake-up in transit; a starved future stays starved; an abort means that the word passed 2^63 - 1 |
| MutexObject.LockFuture.FastPath | src/mutex.rs:354-377 | the first poll makes one compare-exchange 0 to 1, and enters the hot loop if it found another word |
| MutexObject.LockFuture.PollHot | src/mutex.rs:533-586 | the hot loop ends acquired, parked, or left; it is left only after a registration that saw somebody starved, after waiting too long, or after passing on a notification that was consumed while somebody was starved |
| MutexObject.LockFuture.Starve | src/mutex.rs:588-595 | exactly one operation, which adds 2 to the word unless the word is over half its range: then the process ends |
| MutexObject.LockFuture.PollFair | src/mutex.rs:598-630 | the fair loop ends with the bit taken and the count still in the word, or parked |
| MutexObject.LockFuture.TakeMutex | src/mutex.rs:501-513 | completion subtracts 2 exactly if the future was starved; then there is one guard and the word is odd |
| MutexObject.LockFuture.Drop | src/mutex.rs:469-475 | a starved future that did not complete subtracts 2 and then drops its listener, any other only drops its listener |
| RwLockEffects.EffectLawful | src/rwlock/raw.rs:61-277 | every step changes the word and the mutex by what its operation gains or loses, keeps its listeners in order, and leaves a notification owed where one is due |
| RwLockInvariants.ApplyKeepsInv | src/rwlock/raw.rs:46-572 | every step, call, conversion, cancellation and drop keeps all invariants of the lock and of its inner mutex |
| RwLockInvariants.StepReadersCovered | src/rwlock/raw.rs:326-346 | a lawful step keeps a wake-up under way for readers parked behind a cleared bit, through the reader-to-reader chain, unless it is a silent downgrade past an unwoken reader with nothing in transit |
| RwLockInvariants.StepWriterWakes | src/rwlock/raw.rs:240-246 | a lawful step that leaves the word at 1 keeps a wake-up under way for the parked writer or upgrader |
| RwLockTheorems.ReadersCoveredIff | src/rwlock/raw.rs:230-234 | for every step from every state that meets the invariants: parked readers stay covered by a wake-up in transit if and only if the step is not a `downgrade_to_upgradable` called with a reader parked and no wake-up in transit |
| RwLockTheorems.DeadlockFreedom | src/rwlock/raw.rs:298-572 | in every run none of whose steps is of that kind (the conversion itself may occur): when nothing can step, no guard lives and no completed future is kept, no read, upgradable, write or upgrade operation is pending |
| RwLockTheorems.NoDowngradeNeverStrands | src/rwlock/raw.rs:298-572 | a run without `downgrade_to_upgradable` is such a run |
| RwLockTheorems.QuiescentIff | src/rwlock/raw.rs:214-261 | a state where nothing can move has pending operations if and only if a parked reader is not covered |
| RwLockTheorems.OnlySilenceStrands | src/rwlock/raw.rs:214-261 | after every run in which nothing can move, only parked readers can be left, and only if the bit was last cleared by `downgrade_to_upgradable` with no `no_writer` notification since |
| RwLockTheorems.WakeupsUnderWay | src/rwlock/raw.rs:326-346 | after every run whoever is parked although it could go on has a wake-up in transit, with the one exception for readers that the bit was last cleared by `downgrade_to_upgradable` with no `no_writer` notification since |
| RwLockTheorems.InnerMutexRuns | src/rwlock/raw.rs:26-34 | the inner mutex of every run of the lock performs a run of the mutex machine |
| RwLockPreference.Exclusion | src/rwlock/raw.rs:35-43 | the word is twice the sharing guards plus the bit owner, the owner holds the inner mutex, a write guard is alone, and the words never pass 2^63 + 3 and 2^63 + 1 |
| RwLockPreference.TakerFindsBitClear | src/rwlock/raw.rs:460-470 | whoever just took the inner mutex finds the bit clear, so the early return after `fetch_or` is never taken |
| RwLockPreference.PreferenceStep | src/rwlock/raw.rs:240-246 | while the bit stays set only dropped read guards change the reader count, and the last one owes `no_readers` a notification |
| RwLockPreference.WritePreference | src/rwlock/raw.rs:446-504 | over any stretch with the bit set, readers left plus readers dropped equal the readers at its start |
| RwLockPreference.SilentDowngradeStrands | src/rwlock/raw.rs:230-261 | from any state with a live write guard and otherwise parked readers, downgrade and drop leave the lock free, nothing able to move and all those readers parked |
| RwLockPreference.StrandedForever | src/rwlock/raw.rs:230-261 | a reachable state with the lock free, no guard, nothing able to move and a reader parked |
| RwLockProgress.AbortsOnlyOnOverflow | src/rwlock/raw.rs:71-74 | the process ends only in a run that drives the word over isize::MAX, or that of the mutex over usize::MAX / 2 |
| RwLockProgress.NotifiesOne | src/rwlock/raw.rs:240-276 | every notification tops the notified listeners up to one, the first in line |
| RwLockProgress.FirstInFirstOut | src/rwlock/raw.rs:326-346 | over every run, of two parked readers the one that registered first is notified first |
| RwLockProgress.SoloPollEnds | src/rwlock/raw.rs:298-572 | from every reachable state an operation that nobody interferes with makes at most 25 atomic steps, those on the mutex included, before it is done or has to wait |
| RwLockProgress.FreeLockAdmitsReader | src/rwlock/raw.rs:308-348 | a reader that is not parked unnotified and that nobody interferes with completes whenever the bit is clear |
| RwLockProgress.LoneWriterCompletes | src/rwlock/raw.rs:478-499 | a parked writer or upgrade that is polled again completes once the readers are gone, notified or not |
| RwLockRefinement.Refines | src/rwlock.rs:1255-1306 | every step of the lock is a move of the abstract lock or leaves it alone |
| RwLockRefinement.AlwaysExclusive | src/rwlock/raw.rs:61-277 | after every run the abstract lock is exclusive |
| RwLockRefinement.GuardsSeeOneValue | src/rwlock.rs:886-967 | in every run the value is constant from a guard's acquisition on, for every kind of guard, across upgrades and downgrades, but for the stores of that guard and of the write guard it becomes |
| RwLockObject.RawRwLock.TryRead | src/rwlock/raw.rs:61-87 | refused exactly with the bit set; acquired with the bit clear; a lost race is tried again; the process ends only if a word passed its bound |
| RwLockObject.RawRwLock.TryUpgradableRead | src/rwlock/raw.rs:100-129 | refused exactly when the inner mutex word was not 0; acquired with the bit clear |
| RwLockObject.RawRwLock.CountUpgradable | src/rwlock/raw.rs:377-398 | the bit-blind compare-exchange loop never counts a reader in while the bit is set |
| RwLockObject.RawRwLock.TryWrite | src/rwlock/raw.rs:140-160 | acquired with the word at 1; a refusal gives the inner mutex back and means that it was taken or the word was in use |
| RwLockObject.RawRwLock.TryUpgrade | src/rwlock/raw.rs:179-183 | succeeds exactly when no other guard shares the lock; the value is unchanged |
| RwLockObject.RawRwLock.DowngradeUpgradableRead | src/rwlock/raw.rs:206-208 | ends in a read guard with the inner mutex released and the value unchanged |
| RwLockObject.RawRwLock.DowngradeWrite | src/rwlock/raw.rs:214-224 | exactly these operations: word from 1 to 2, release of the mutex, `no_writer` notified; ends in a read guard with the value unchanged |
| RwLockObject.RawRwLock.DowngradeToUpgradable | src/rwlock/raw.rs:230-234 | one atomic operation takes the word from 1 to 2 and the guard to upgradable |
| RwLockObject.RawRwLock.ReadUnlock | src/rwlock/raw.rs:240-246 | exactly these operations: 2 subtracted, and `no_readers` notified if and only if the word was 2 or 3 |
| RwLockObject.RawRwLock.UpgradableReadUnlock | src/rwlock/raw.rs:252-261 | the same, followed by the two operations that release the inner mutex |
| RwLockObject.RawRwLock.WriteUnlock | src/rwlock/raw.rs:267-276 | exactly these operations in this order: bit cleared, `no_writer` notified, mutex word released, mutex notified |
| RwLockObject.RawRead.Poll | src/rwlock/raw.rs:298-348 | ready means a new read guard with the bit clear; pending means an unnotified listener and, behind a clear bit, a wake-up in transit unless a `downgrade_to_upgradable` stranded a reader before, or the last clearing of the bit was silent; the process ends only if a word passed its bound |
| RwLockObject.RawRead.Wait | src/rwlock/raw.rs:332-342 | a woken reader makes exactly two operations: it consumes its notification and notifies the next one |
| RwLockObject.RawRead.Drop | src/rwlock/raw.rs:282-296 | an unused notification goes to the next reader |
| RwLockObject.RawUpgradableRead.Poll | src/rwlock/raw.rs:363-400 | ready means an upgradable guard with the bit clear; pending means parked on the inner mutex with its wake-up due |
| RwLockObject.RawWrite.Poll | src/rwlock/raw.rs:446-504 | ready means a write guard with the word at 1 and no other guard of any kind; pending means parked with its wake-up in transit if it is due; a waiting one looked at the word in this poll and found readers |
| RwLockObject.RawWrite.SetBit | src/rwlock/raw.rs:455-475 | exactly these operations: bit set from an even word, listener registered, lock future dropped |
| RwLockObject.RawWrite.Drop | src/rwlock/raw.rs:417-428 | a waiting writer makes the operations of `write_unlock` and then drops its listener; a completed one only drops its listener |
| RwLockObject.RawUpgrade.constructor | src/rwlock/raw.rs:189-199 | takes one from an even word: one reader is exactly swapped for the bit |
| RwLockObject.RawUpgrade.Poll | src/rwlock/raw.rs:534-571 | ready means a lone write guard; the value is the one the upgradable guard saw, whatever the outcome; pending means that it looked at the word in this poll and found readers |
| RwLockObject.RawUpgrade.Drop | src/rwlock/raw.rs:520-531 | a pending upgrade makes the operations of `write_unlock` and then drops its listener; a completed one only drops its listener |
| OnceCellInvariants.ApplyKeepsInv | src/once_cell.rs:639-735 | every step, failure, cancellation and `take` keeps all invariants of the cell |
| OnceCellTheorems.ExactlyOnce | src/once_cell.rs:547-595 | initializing means exactly one active initializer, at most one winner, a notified passive listener means initialized, `wait` and successful `set` see the stored value |
| OnceCellTheorems.StoredOrHandedBack | src/once_cell.rs:547-595 | in every run the publications by a caller equal its calls that reported success, collected or not; a finished call still has the value it was made with, which is the one in the cell exactly if it reports success |
| OnceCellTheorems.OncePerCall | src/once_cell.rs:547-595 | from any reachable state a call publishes exactly one value if it reports success and none otherwise, however it is interleaved, cancelled or failed |
| OnceCellTheorems.ValuesStored | src/once_cell.rs:227-239 | values published equal values taken plus one if the cell is initialized |
| OnceCellTheorems.NeverOverwritten | src/once_cell.rs:639-710 | without `take` an initialized cell keeps its value for ever |
| OnceCellTheorems.WakeupsUnderWay | src/once_cell.rs:645-734 | an open cell with a parked initializer has a wake-up in transit, also when the failing initializer holds a listener of its own; behind an initialized one everybody is woken or about to be |
| OnceCellTheorems.NobodyStranded | src/once_cell.rs:645-734 | when nothing moves no initializer is parked, and `wait` sleeps only on an uninitialized cell |
| OnceCellProgress.EndsWake | src/once_cell.rs:691-734 | a failed or cancelled initialization wakes one initializer, the first in line; a successful one wakes all listeners of both events |
| OnceCellProgress.FirstInFirstOut | src/once_cell.rs:660-668 | over every run, of two parked initializers the one that registered first is notified first |
| OnceCellProgress.SoloPollEnds | src/once_cell.rs:639-712 | from every reachable state an operation that nobody interferes with makes at most 13 atomic steps, its closure apart, before it returns or has to wait |
| OnceCellObject.OnceCell.Get | src/once_cell.rs:170-178 | a value exactly when initialized, and the one in the cell |
| OnceCellObject.OnceCell.Take | src/once_cell.rs:227-239 | returns the value and opens the cell, or changes nothing |
| OnceCellObject.OnceCell.TrySet | src/once_cell.rs:567-595 | the value is in the initialized cell, or handed back with the cell claimed by somebody |
| OnceCellObject.OnceCell.Finish | src/once_cell.rs:682-696 | exactly these changes in this order: value, state, both notifications, own listener dropped; the cell holds exactly this value |
| OnceCellObject.OnceCell.Abandon | src/once_cell.rs:725-734 | exactly these changes in this order: cell reopened, next initializer notified, own listener dropped |
| OnceCellObject.InitFuture.RunClosure | src/once_cell.rs:684-709 | exactly the changes of a successful initialization if the closure returned a value, exactly those of an abandoned one if it failed, and none while it runs |
| OnceCellObject.InitFuture.Poll | src/once_cell.rs:639-712 | ready is stored if and only if the closure was run and returned a value, failed with the cell reopened if and only if it was run and failed, and unused otherwise; pending means inside the closure, or on an unnotified listener with the wake-up due in transit |
| OnceCellObject.InitFuture.Drop | src/once_cell.rs:713-735 | the active initializer reopens the cell, notifies and then drops its listener; a parked one passes its notification on |
| OnceCellObject.WaitFuture.Poll | src/once_cell.rs:282-302 | a returned value is the one in the initialized cell, also on the unchecked path; waiting on an initialized cell means that the initializer is about to notify |
| SemaphoreModel.Conservation | src/semaphore.rs:60-77 | over every run available permits, live guards and forgotten guards add up to the initial and the added permits, and the count never goes below 0 |
| SemaphoreModel.ApplyKeepsInv | src/semaphore.rs:289-312 | every step, cancellation, release and `forget` keeps conservation and the registration of listeners |
| SemaphoreModel.ProgressIff | src/semaphore.rs:376-386 | for every step: a free permit and an unwoken waiter stay covered by a wake-up in transit or a live guard if and only if the step is not `forget` on the last thing that covers them while a permit is free |
| SemaphoreModel.WakeupOrGuard | src/semaphore.rs:381-386 | in every run none of whose steps is of that kind, a free permit and a parked unwoken waiter mean a wake-up in transit or a live guard |
| SemaphoreModel.NothingForgottenNeverStrands | src/semaphore.rs:376-378 | a run that forgets no guard is such a run |
| SemaphoreModel.StrongProgressIff | src/semaphore.rs:297-312 | the claim without the guard survives a step if and only if that is not the only woken future taking one of several permits past an unwoken waiter |
| SemaphoreModel.FreePermitSleepingWaiter | src/semaphore.rs:381-386 | two releases before the first woken waiter consumes leave a free permit, a sleeping waiter and nothing in transit |
| SemaphoreModel.NobodyStarves | src/semaphore.rs:289-312 | in every such run, when nothing moves and no guard lives, a pending `acquire` means that every permit ever made was forgotten |
| SemaphoreModel.ForgetStrands | src/semaphore.rs:376-378 | the stranding step is reached, and leaves a free permit, a waiter and nothing able to move |
| SemaphoreProgress.ReleaseWakesOne | src/semaphore.rs:237-240 | the end of a release tops the notified waiters up to one, that of `add_permits(n)` up to n, the first in line, and no more |
| SemaphoreProgress.FirstInFirstOut | src/semaphore.rs:289-312 | over every run, of two waiters the one that registered first is notified first |
| SemaphoreProgress.SoloPollEnds | src/semaphore.rs:289-312 | from every reachable state an operation that nobody interferes with makes at most 6 atomic steps, if no exchange fails spuriously, before it is done or has to wait |
| SemaphoreProgress.FreePermitIsTaken | src/semaphore.rs:299-309 | a parked waiter that is polled again takes a free permit, notified or not |
| SemaphoreObject.Semaphore.TryAcquire | src/semaphore.rs:60-77 | refused with the count at 0, otherwise one permit is taken however often the exchange failed |
| SemaphoreObject.Semaphore.TakePermit | src/semaphore.rs:60-77 | the same loop as used by the poll |
| SemaphoreObject.Semaphore.AddPermits | src/semaphore.rs:237-240 | the count grows before `notify(n)`, which tops the notified waiters up to n, the first in line |
| SemaphoreObject.Semaphore.Release | src/semaphore.rs:381-386 | the permit is back before a waiter is woken; the notified waiters are topped up to one, the first in line |
| SemaphoreObject.Semaphore.ForgetGuard | src/semaphore.rs:376-378 | the guard is gone and the count unchanged |
| SemaphoreObject.AcquireFuture.Poll | src/semaphore.rs:289-312 | ready means a live guard; pending means that the count was 0 at some moment of this poll, an unnotified listener and, unless a `forget` stranded somebody before, a permit free by then has a wake-up in transit or a live guard |
| SemaphoreObject.AcquireFuture.Drop | src/semaphore.rs:268-282 | an unused notification goes to the next waiter |
| BarrierInvariants.ApplyKeepsInv | src/barrier.rs:180-249 | every step and cancellation keeps counting, placement and wake-ups |
| BarrierTheorems.Generations | src/barrier.rs:190-214 | over every run the arrivals are n per finished generation plus a count below n, and nobody returns before the nth arrival of its own generation |
| BarrierTheorems.OneLeaderPerGeneration | src/barrier.rs:207-214 | over every run each finished generation has elected exactly one leader, dropped since or not, and no other generation any |
| BarrierTheorems.WakeupsUnderWay | src/barrier.rs:202-248 | after every run an unnotified listener belongs to the current generation or the last arrival is about to notify everybody, and a woken waiter leaves exactly when its generation is over and listens again otherwise |
| BarrierTheorems.NobodyStranded | src/barrier.rs:202-248 | when nothing moves, whoever is left waits for arrivals that the current generation still lacks |
| BarrierProgress.AbortsOnlyOnOverflow | src/barrier.rs:190-249 | the process ends only in a run that drives the word of the state mutex over its bound |
| BarrierProgress.SoloPollEnds | src/barrier.rs:180-249 | from every reachable state a `wait` that nobody interferes with makes at most 30 atomic steps, those on the mutex included, before it returns or has to wait |
| BarrierObject.Barrier.Counts | src/barrier.rs:200-214 | exactly one arrival more; the count grows by one or, with the nth, goes back to zero while the generation grows by one |
| BarrierObject.Barrier.Compares | src/barrier.rs:236-247 | for fewer than 2^64 generations the wrapped comparison tells exactly whether the generation is over |
| BarrierObject.BarrierWait.Poll | src/barrier.rs:180-249 | ready only after all arrivals of its generation, as the leader or not; pending means parked on the mutex, or on an unnotified listener of the current generation unless the leader is about to notify |
| BarrierObject.BarrierWait.Drop | src/barrier.rs:145-163 | cancelling does not undo the arrival; a received notification goes to the next waiter |
| ArcTheorems.Conservation | src/rwlock.rs:770-807 | in every run, with the count changed only by clones and drops of `Arc` values, it equals the handles plus what the raw lock has of live owned guards, pending upgrades and unfinished drops |
| ArcTheorems.NoUseAfterFree | src/rwlock/futures.rs:426-445 | every step on the raw lock finds a reference alive, but for the drop of a completed upgrade future, which only drops its own listener |
| ArcTheorems.ReleasedBeforeDropped | src/rwlock.rs:788-807 | whenever the `Arc` of a guard or of a cancelled upgrade is dropped it is there, and nothing of that guard is left in the word, the mutex or the events |
| ArcTheorems.FreedLockIsReleased | src/rwlock.rs:1025-1032 | when the count reaches 0 the word, the inner mutex and its queue are free |
| ArcTheorems.NothingLeaks | src/rwlock.rs:770-807 | in every run: when nothing can step on the raw lock, no guard lives, no completed future is kept and no `Arc` is left to drop, the count equals the handles and no record, so no stuck upgrade, exists |
| ArcObject.ArcRwLock.FromArc | src/rwlock/futures.rs:107-121 | an owned guard gets its own reference after the raw lock was taken |
| ArcObject.ArcRwLock.DropGuardArc | src/rwlock.rs:797-807 | the raw unlock runs to its end, then the reference is dropped |
| ArcObject.ArcRwLock.ConvertGuard | src/rwlock.rs:1084-1140 | conversions move the reference with the guard and never copy it |
| ArcObject.ArcRwLock.DropField | src/rwlock.rs:1348-1356 | the reference goes when nothing of the guard is left in the raw lock, and the last one leaves a free lock |
| ArcObject.UpgradeArc.constructor | src/rwlock.rs:1161-1178 | the guard's reference moves into the future; the count is unchanged |
| ArcObject.UpgradeArc.Poll | src/rwlock/futures.rs:465-484 | on completion the `Arc` is taken out for the write guard, which is alone; pending means parked with its wake-up in transit if it is due |
| ArcObject.UpgradeArc.Drop | src/rwlock/futures.rs:426-445 | the raw future goes first; the reference is dropped if and only if the future was not ready |

## Left out

- Memory orderings: all steps are sequentially consistent.
- The internals of `event_listener` and `event_listener_strategy`, wakers and thread parking: only the contract in `Events.dfy` is assumed. The wake-up proofs do not use the FIFO order; `FirstInFirstOut` is what it gives the callers.
- Real time: whether 500 microseconds have passed is a free choice at each turn of the hot loop, which also covers builds without `std`.
- Blocking variants, and the `Arc` variants of the mutex and the semaphore: the same protocol.
- Termination under interference: other callers can make a retry loop go round for ever, so an object's poll is bounded by `turns`; a poll that is left alone ends (`SoloPollEnds`). That a parked operation is polled again after its notification is the executor's promise.
- Aborts: a counter overflow ends the run. The `fetch_add(2)` of the mutex and its abort are one step, as is the load of the reader-writer word and the abort that follows it.
- Panics; a panicking closure of the once cell behaves like a cancelled one.
- Counter widths are those of a 64-bit target, as bounds on unbounded integers. The semaphore's count is assumed not to exceed `usize`, and `BarrierTheorems.NobodyStranded`, `BarrierTheorems.WakeupsUnderWay` and `BarrierObject.Barrier.Compares` assume fewer than 2^64 generations, because the id wraps around.
- Polls of a parked future without a notification: in the machines they change nothing unless the code looks at the word first (`Repoll`).
- The protected data is one integer, and a write guard's store one step. The once cell's value is one integer too; dropping values is not modelled.
- The inner mutex of the reader-writer lock and of the barrier is a value of the mutex machine in the objects, polled step by step; its poll loop as code is `MutexObject.LockFuture`.
- `ArcObject.ArcRwLock` takes the steps of the raw lock from its machine; the raw methods as code are in `RwLockObject`. Any guard acquired through a handle may become an owned one (`CloneInto`), not only those of the `_arc` methods. Moves of an `Arc` inside one thread ride with the atomic operation before them.
- The borrow checker: a handle is not dropped while a borrowing guard or future needs it; this is the guard of `DropHandle` in `ArcModel`.
- `OnceCell::get_mut`, `into_inner`, and the conversions, formatting and marker traits of all types: no protocol in them.
