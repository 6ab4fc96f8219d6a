// The raw reader-writer lock as a machine of atomic steps on top of the mutex machine: a word
// holding twice the readers plus the writer bit, two events, and the inner mutex.
//
// Every step has an effect: where the acting operation goes next, the new word, and at most one
// operation on the inner mutex and one on each event.
module RwLockModel {
  import opened Counting
  import opened Events
  import M = MutexModel

  // `isize::MAX` on a 64-bit target: a larger word makes the lock abort.
  const ISIZE_MAX := 0x7FFF_FFFF_FFFF_FFFF

  // ----- where an operation stands; each name is the atomic step it takes next -----

  /** `RawRead`, and the loop of `try_read`. */
  datatype Reader =
    | RNew(seen: int)            // created with the word it loaded, not polled
    | RCas(seen: int)            // no writer seen: compare-exchange seen -> seen + 2
    | RListen                    // writer seen, no listener: `no_writer.listen`
    | RLoad                      // reloads the word
    | RWait                      // polls its `no_writer` listener
    | RNotify                    // consumed a notification: wakes the next reader
    | TryReadCas(seen: int)

  /** `RawUpgradableRead`, and with `keep == false` the same code in `try_upgradable_read`. */
  datatype Upgradable =
    | ULock                      // acquiring the inner mutex
    | ULoad(keep: bool)          // holds the mutex: loads the word
    | UCas(seen: int, keep: bool)

  /** `RawWrite`, and the compare-exchange of `try_write`. */
  datatype Writer =
    | WLock                      // acquiring the inner mutex
    | WOr                        // holds the mutex: `fetch_or(WRITER_BIT)`
    | WListen                    // `no_readers.listen`
    | WClose                     // drops the completed inner lock future
    | WCheck                     // loads the word
    | WRelisten                  // readers left, no listener: `no_readers.listen`
    | WWait                      // polls its `no_readers` listener
    | TryWriteCas                // holds the mutex: compare-exchange 0 -> WRITER_BIT

  /** `RawUpgrade`. */
  datatype Upgrader =
    | PNew                       // created, not polled
    | PCheck                     // loads the word
    | PListen                    // `no_readers.listen`
    | PWait                      // polls its `no_readers` listener

  datatype Guard = ReadGuard | UpgradableGuard | WriteGuard

  /** What is left of a cancellation, an unlock or a downgrade. */
  datatype Release =
    | LockClosing                // cancelled: the inner lock future drops its listener
    | TryWriteUnlock             // `try_write` failed: releases the mutex
    | ReadUnlockNotify           // `read_unlock` of the last reader: `no_readers.notify(1)`
    | UpUnlockNotify             // the same in `upgradable_read_unlock`
    | UpUnlockMutex              // releases the mutex
    | MutexNotify                // released the mutex word: notifies its next operation
    | WriteUnlockNotify          // `write_unlock` cleared the bit: `no_writer.notify(1)`
    | WriteUnlockMutex           // releases the mutex
    | WriteUnlockMutexNotify
    | WriteUnlockListener        // a cancelled future drops its `no_readers` listener
    | DownUpMutexNotify          // `downgrade_upgradable_read` released the mutex word
    | DownMutex                  // `downgrade_write` changed the word: releases the mutex
    | DownMutexNotify
    | DownNotify                 // `no_writer.notify(1)`

  datatype Kind = ReadFuture | UpgradableFuture | WriteFuture | UpgradeFuture

  datatype Pc =
    | Reading(r: Reader)
    | Upgrading(u: Upgradable)
    | Writing(w: Writer)
    | Raising(p: Upgrader)
    | Releasing(x: Release)
    | Held(g: Guard)             // a live guard
    | Finished(kind: Kind)       // a completed future that was not dropped yet

  /** Operations and guards that own the inner mutex. */
  predicate HoldsMutex(pc: Pc) {
    match pc
    case Upgrading(u) => !u.ULock?
    case Writing(w) => !w.WLock?
    case Raising(_) => true
    case Held(g) => !g.ReadGuard?
    case Releasing(x) =>
      x.TryWriteUnlock? || x.UpUnlockNotify? || x.UpUnlockMutex? || x.WriteUnlockNotify? || x.WriteUnlockMutex?
          || x.DownMutex?
    case _ => false
  }

  /** Write guards, waiting writers and pending upgrades: they own the writer bit. */
  predicate OwnsBit(pc: Pc) {
    match pc
    case Writing(w) => !w.WLock? && !w.WOr? && !w.TryWriteCas?
    case Raising(_) => true
    case Held(g) => g.WriteGuard?
    case _ => false
  }

  /** Guards counted as readers, including those still running a downgrade. */
  predicate Shares(pc: Pc) {
    match pc
    case Held(g) => !g.WriteGuard?
    case Releasing(x) => x.DownUpMutexNotify? || x.DownMutex? || x.DownMutexNotify? || x.DownNotify?
    case _ => false
  }

  /** Between `fetch_sub` and `notify` of the inner mutex. */
  predicate ReleasesMutex(pc: Pc) {
    && pc.Releasing?
    && (pc.x.MutexNotify? || pc.x.WriteUnlockMutexNotify? || pc.x.DownUpMutexNotify? || pc.x.DownMutexNotify?)
  }

  /** `value` is the protected data. */
  datatype State = State(
    m: M.State, word: int, noReaders: Event, noWriter: Event, procs: map<Id, Pc>, value: int, aborted: bool)

  function Initial(value: int): State {
    State(M.INITIAL, 0, NO_LISTENERS, NO_LISTENERS, map[], value, false)
  }

  datatype Action =
    | Call(id: Id, call: CallKind)
    | Step(id: Id, late: bool, gid: Id)  // `gid` names the guard handed out on completion
    | Repoll(id: Id)                     // a parked write or upgrade future is polled again
    | DropFuture(id: Id)
    | DropGuard(id: Id)
    | Convert(id: Id, conversion: Conversion)
    | Store(id: Id, v: int)              // a write guard writes the data

  datatype CallKind = Read | TryRead | UpgradableRead | TryUpgradableRead | Write | TryWrite

  datatype Conversion = DowngradeUpgradable | TryUpgrade | Upgrade | DowngradeWrite | DowngradeToUpgradable

  // ----- effects -----

  datatype Next =
    | Goto(pc: Pc)
    | Gone
    | Complete(kind: Kind, g: Guard)  // the future is finished and a guard appears
    | Halt                            // the process aborts

  datatype EventOp = Keep | DoListen | DoConsume | DoNotify | DoDrop

  datatype Effect = Effect(
    next: Next, word: int, lock: Maybe<M.Action>, readers: EventOp, writers: EventOp, value: int)

  function Go(s: State, next: Next): Effect {
    Effect(next, s.word, None, Keep, Keep, s.value)
  }

  function SetWord(s: State, next: Next, word: int): Effect {
    Effect(next, word, None, Keep, Keep, s.value)
  }

  function OnLock(s: State, next: Next, a: M.Action): Effect {
    Effect(next, s.word, Some(a), Keep, Keep, s.value)
  }

  function OnReaders(s: State, next: Next, op: EventOp): Effect {
    Effect(next, s.word, None, op, Keep, s.value)
  }

  function OnWriters(s: State, next: Next, op: EventOp): Effect {
    Effect(next, s.word, None, Keep, op, s.value)
  }

  /** What the loop of `RawRead` does next with the word it last saw. */
  function ReadLoop(s: State, id: Id, seen: int): Next {
    if seen % 2 == 0 then Goto(Reading(RCas(seen)))
    else if Listening(s.noWriter, id) then Goto(Reading(RWait))
    else Goto(Reading(RListen))
  }

  function ReadEffect(s: State, id: Id, r: Reader): Effect {
    match r
    case RNew(seen) => Go(s, ReadLoop(s, id, seen))
    case RCas(seen) =>
      if seen > ISIZE_MAX then Go(s, Halt)
      else if s.word == seen then SetWord(s, Complete(ReadFuture, ReadGuard), seen + 2)
      else Go(s, ReadLoop(s, id, s.word))
    case RListen => OnWriters(s, Goto(Reading(RLoad)), DoListen)
    case RLoad => Go(s, ReadLoop(s, id, s.word))
    case RWait => OnWriters(s, Goto(Reading(RNotify)), DoConsume)
    case RNotify => OnWriters(s, Goto(Reading(RLoad)), DoNotify)
    case TryReadCas(seen) =>
      if seen > ISIZE_MAX then Go(s, Halt)
      else if s.word == seen then SetWord(s, Goto(Held(ReadGuard)), seen + 2)
      else if s.word % 2 == 1 then Go(s, Gone)
      else Go(s, Goto(Reading(TryReadCas(s.word))))
  }

  function UpgradableEffect(s: State, id: Id, u: Upgradable, late: bool): Effect {
    match u
    case ULock =>
      OnLock(s, Goto(Upgrading(if M.Completes(s.m, id) then ULoad(true) else ULock)), M.Step(id, late))
    case ULoad(keep) =>
      if s.word > ISIZE_MAX then Go(s, Halt) else Go(s, Goto(Upgrading(UCas(s.word, keep))))
    case UCas(seen, keep) =>
      if s.word != seen then Go(s, Goto(Upgrading(UCas(s.word, keep))))
      else if keep then SetWord(s, Complete(UpgradableFuture, UpgradableGuard), seen + 2)
      else SetWord(s, Goto(Held(UpgradableGuard)), seen + 2)
  }

  function WriteEffect(s: State, id: Id, w: Writer, late: bool): Effect {
    match w
    case WLock =>
      OnLock(s, Goto(Writing(if M.Completes(s.m, id) then WOr else WLock)), M.Step(id, late))
    case WOr =>
      // `fetch_or` returns the old word, and the code compares that with the writer bit.
      if s.word == 1 then OnLock(s, Complete(WriteFuture, WriteGuard), M.DropFuture(id))
      else SetWord(s, Goto(Writing(WListen)), if s.word % 2 == 0 then s.word + 1 else s.word)
    case WListen => OnReaders(s, Goto(Writing(WClose)), DoListen)
    case WClose => OnLock(s, Goto(Writing(WCheck)), M.DropFuture(id))
    case WCheck =>
      if s.word == 1 then Go(s, Complete(WriteFuture, WriteGuard))
      else Go(s, Goto(Writing(if Listening(s.noReaders, id) then WWait else WRelisten)))
    case WRelisten => OnReaders(s, Goto(Writing(WCheck)), DoListen)
    case WWait => OnReaders(s, Goto(Writing(WCheck)), DoConsume)
    case TryWriteCas =>
      if s.word == 0 then SetWord(s, Goto(Held(WriteGuard)), 1)
      else Go(s, Goto(Releasing(TryWriteUnlock)))
  }

  function UpgradeEffect(s: State, id: Id, p: Upgrader): Effect {
    match p
    case PListen => OnReaders(s, Goto(Raising(PCheck)), DoListen)
    case PWait => OnReaders(s, Goto(Raising(PCheck)), DoConsume)
    case _ =>
      if s.word == 1 then Go(s, Complete(UpgradeFuture, WriteGuard))
      else Go(s, Goto(Raising(if Listening(s.noReaders, id) then PWait else PListen)))
  }

  function ReleaseEffect(s: State, id: Id, x: Release): Effect {
    match x
    case LockClosing => OnLock(s, Gone, M.Step(id, false))
    case TryWriteUnlock => OnLock(s, Goto(Releasing(MutexNotify)), M.Unlock(id))
    case ReadUnlockNotify => OnReaders(s, Gone, DoNotify)
    case UpUnlockNotify => OnReaders(s, Goto(Releasing(UpUnlockMutex)), DoNotify)
    case UpUnlockMutex => OnLock(s, Goto(Releasing(MutexNotify)), M.Unlock(id))
    case MutexNotify => OnLock(s, Gone, M.UnlockNotify(id))
    case WriteUnlockNotify => OnWriters(s, Goto(Releasing(WriteUnlockMutex)), DoNotify)
    case WriteUnlockMutex => OnLock(s, Goto(Releasing(WriteUnlockMutexNotify)), M.Unlock(id))
    case WriteUnlockMutexNotify =>
      OnLock(s, if Listening(s.noReaders, id) then Goto(Releasing(WriteUnlockListener)) else Gone, M.UnlockNotify(id))
    case WriteUnlockListener => OnReaders(s, Gone, DoDrop)
    case DownUpMutexNotify => OnLock(s, Goto(Held(ReadGuard)), M.UnlockNotify(id))
    case DownMutex => OnLock(s, Goto(Releasing(DownMutexNotify)), M.Unlock(id))
    case DownMutexNotify => OnLock(s, Goto(Releasing(DownNotify)), M.UnlockNotify(id))
    case DownNotify => OnWriters(s, Goto(Held(ReadGuard)), DoNotify)
  }

  /** `write_unlock` up to and including `fetch_and(!WRITER_BIT)`. */
  function ClearBit(s: State): Effect {
    Effect(Goto(Releasing(WriteUnlockNotify)), s.word - s.word % 2, None, Keep, Keep, s.value)
  }

  /** A future is dropped where it is suspended: unpolled, parked or completed. */
  predicate Droppable(pc: Pc) {
    match pc
    case Reading(r) => r.RNew? || r.RWait?
    case Upgrading(u) => u.ULock?
    case Writing(w) => w.WLock? || w.WWait?
    case Raising(p) => p.PNew? || p.PWait?
    case Finished(_) => true
    case _ => false
  }

  /** Dropping the inner lock future: a starved one gives back its count first and drops its
      listener in a second step. */
  function DropLock(s: State, id: Id): Effect {
    var starved := id in s.m.ops && s.m.ops[id].FairWait?;
    OnLock(s, if starved then Goto(Releasing(LockClosing)) else Gone, M.DropFuture(id))
  }

  function CancelEffect(s: State, id: Id, pc: Pc): Effect
    requires Droppable(pc)
  {
    match pc
    case Reading(_) => OnWriters(s, Gone, DoDrop)
    case Upgrading(_) => DropLock(s, id)
    case Writing(w) => if w.WLock? then DropLock(s, id) else ClearBit(s)
    case Raising(_) => ClearBit(s)
    case Finished(kind) =>
      match kind
      case ReadFuture => OnWriters(s, Gone, DoDrop)
      case UpgradableFuture => DropLock(s, id)
      case _ => OnReaders(s, Gone, DoDrop)
  }

  /** The test that `read_unlock` and `upgradable_read_unlock` make on the old word. */
  predicate LastReader(word: int) {
    word - word % 2 == 2
  }

  function DropGuardEffect(s: State, g: Guard): Effect {
    match g
    case ReadGuard =>
      SetWord(s, if LastReader(s.word) then Goto(Releasing(ReadUnlockNotify)) else Gone, s.word - 2)
    case UpgradableGuard =>
      SetWord(s, Goto(Releasing(if LastReader(s.word) then UpUnlockNotify else UpUnlockMutex)), s.word - 2)
    case WriteGuard => ClearBit(s)
  }

  /** The guard a conversion starts from. */
  function Before(c: Conversion): Guard {
    if c.DowngradeWrite? || c.DowngradeToUpgradable? then WriteGuard else UpgradableGuard
  }

  function ConvertEffect(s: State, id: Id, c: Conversion): Effect {
    match c
    case DowngradeUpgradable => OnLock(s, Goto(Releasing(DownUpMutexNotify)), M.Unlock(id))
    case TryUpgrade =>
      if s.word == 2 then SetWord(s, Goto(Held(WriteGuard)), 1) else Go(s, Goto(Held(UpgradableGuard)))
    case Upgrade => SetWord(s, Goto(Raising(PNew)), s.word - 1)
    case DowngradeWrite => Effect(Goto(Releasing(DownMutex)), s.word + 1, None, Keep, Keep, s.value)
    case DowngradeToUpgradable => Effect(Goto(Held(UpgradableGuard)), s.word + 1, None, Keep, Keep, s.value)
  }

  function CallEffect(s: State, id: Id, call: CallKind): Effect {
    match call
    case Read => Go(s, Goto(Reading(RNew(s.word))))
    case TryRead => Go(s, if s.word % 2 == 1 then Gone else Goto(Reading(TryReadCas(s.word))))
    case UpgradableRead => OnLock(s, Goto(Upgrading(ULock)), M.Spawn(id))
    case Write => OnLock(s, Goto(Writing(WLock)), M.Spawn(id))
    case TryUpgradableRead => OnLock(s, if s.m.word == 0 then Goto(Upgrading(ULoad(false))) else Gone, M.TryLock)
    case TryWrite => OnLock(s, if s.m.word == 0 then Goto(Writing(TryWriteCas)) else Gone, M.TryLock)
  }

  // ----- the machine -----

  /** Neither finished, nor a guard, nor parked on a listener of this lock that was not notified. */
  predicate Runnable(s: State, id: Id) {
    && id in s.procs
    && match s.procs[id]
       case Reading(r) => r.RWait? ==> id in s.noWriter.notified
       case Writing(w) => w.WWait? ==> id in s.noReaders.notified
       case Raising(p) => p.PWait? ==> id in s.noReaders.notified
       case Held(_) => false
       case Finished(_) => false
       case _ => true
  }

  predicate Allowed(s: State, a: Action) {
    match a
    case Call(id, _) => id !in s.procs
    case Step(id, _, gid) => Runnable(s, id) && gid !in s.procs
    case Repoll(id) => id in s.procs && (s.procs[id] == Writing(WWait) || s.procs[id] == Raising(PWait))
    case DropFuture(id) => id in s.procs && Droppable(s.procs[id])
    case DropGuard(id) => id in s.procs && s.procs[id].Held?
    case Convert(id, c) => id in s.procs && s.procs[id] == Held(Before(c))
    case Store(id, _) => id in s.procs && s.procs[id] == Held(WriteGuard)
  }

  function StepEffect(s: State, id: Id, pc: Pc, late: bool): Effect
    requires !pc.Held? && !pc.Finished?
  {
    match pc
    case Reading(r) => ReadEffect(s, id, r)
    case Upgrading(u) => UpgradableEffect(s, id, u, late)
    case Writing(w) => WriteEffect(s, id, w, late)
    case Raising(p) => UpgradeEffect(s, id, p)
    case Releasing(x) => ReleaseEffect(s, id, x)
  }

  function EffectOf(s: State, a: Action): Effect
    requires Allowed(s, a)
  {
    match a
    case Call(id, call) => CallEffect(s, id, call)
    case Step(id, late, _) => StepEffect(s, id, s.procs[id], late)
    case Repoll(id) => Go(s, Goto(if s.procs[id].Writing? then Writing(WCheck) else Raising(PCheck)))
    case DropFuture(id) => CancelEffect(s, id, s.procs[id])
    case DropGuard(id) => DropGuardEffect(s, s.procs[id].g)
    case Convert(id, c) => ConvertEffect(s, id, c)
    case Store(_, v) => Effect(Goto(Held(WriteGuard)), s.word, None, Keep, Keep, v)
  }

  /** A step that uses the inner mutex must be one that the mutex allows. */
  predicate Enabled(s: State, a: Action) {
    && !s.aborted
    && Allowed(s, a)
    && (EffectOf(s, a).lock.Some? ==> M.Enabled(s.m, EffectOf(s, a).lock.value))
  }

  function OnEvent(e: Event, id: Id, op: EventOp): Event {
    match op
    case Keep => e
    case DoListen => Listen(e, id)
    case DoConsume => Forget(e, id)
    case DoNotify => Notify(e, 1)
    case DoDrop => DropListener(e, id)
  }

  function Move(procs: map<Id, Pc>, id: Id, gid: Id, next: Next): map<Id, Pc> {
    match next
    case Goto(pc) => procs[id := pc]
    case Gone => procs - {id}
    case Complete(kind, g) => procs[id := Finished(kind)][gid := Held(g)]
    case Halt => procs
  }

  function Perform(s: State, id: Id, gid: Id, e: Effect, m: M.State): State {
    State(m, e.word, OnEvent(s.noReaders, id, e.readers), OnEvent(s.noWriter, id, e.writers),
          Move(s.procs, id, gid, e.next), e.value, e.next.Halt? || m.aborted)
  }

  /** The inner mutex after an effect. */
  function LockAfter(s: State, e: Effect): M.State
    requires e.lock.Some? ==> M.Enabled(s.m, e.lock.value)
  {
    if e.lock.None? then s.m else M.Apply(s.m, e.lock.value)
  }

  function Apply(s: State, a: Action): State
    requires Enabled(s, a)
  {
    var e := EffectOf(s, a);
    Perform(s, a.id, if a.Step? then a.gid else a.id, e, LockAfter(s, e))
  }
}
