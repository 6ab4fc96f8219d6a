// What the raw reader-writer lock keeps over every step, first as conditions on the effect of a
// single step that mention nothing but the acting operation.
module RwLockEffects {
  import opened Counting
  import opened Events
  import opened RwLockModel
  import M = MutexModel

  // ----- the word and the inner mutex -----

  /** What one operation contributes to the word. */
  function WordShare(pc: Maybe<Pc>): int {
    if pc.None? then 0 else 2 * One(Shares(pc.value)) + One(OwnsBit(pc.value))
  }

  function MutexShare(pc: Maybe<Pc>): int {
    if pc.None? then 0 else One(HoldsMutex(pc.value))
  }

  function Fate(pc: Maybe<Pc>, next: Next): Maybe<Pc> {
    match next
    case Goto(to) => Some(to)
    case Gone => None
    case Complete(kind, _) => Some(Finished(kind))
    case Halt => pc
  }

  function NewGuard(next: Next): Maybe<Pc> {
    if next.Complete? then Some(Held(next.g)) else None
  }

  function LockGain(s: State, e: Effect): int {
    if e.lock.Some? then M.Gain(s.m, e.lock.value) else 0
  }

  /** The word and the mutex guards change by as much as the operation's shares do. */
  predicate Balanced(s: State, pc: Maybe<Pc>, e: Effect) {
    && e.word - s.word == WordShare(Fate(pc, e.next)) + WordShare(NewGuard(e.next)) - WordShare(pc)
    && LockGain(s, e) == MutexShare(Fate(pc, e.next)) + MutexShare(NewGuard(e.next)) - MutexShare(pc)
  }

  // ----- who is registered where -----

  function LockPhase(pc: Maybe<Pc>): M.Phase {
    if pc.None? then M.Absent
    else match pc.value
      case Upgrading(u) =>
        if u.ULock? then M.Acquiring else if u.keep then M.Acquired else M.Absent
      case Writing(w) =>
        if w.WLock? then M.Acquiring else if w.WOr? || w.WListen? || w.WClose? then M.Acquired else M.Absent
      case Finished(kind) => if kind.UpgradableFuture? then M.Acquired else M.Absent
      case Releasing(x) => if x.LockClosing? then M.Leaving else M.Absent
      case _ => M.Absent
  }

  predicate WritersSeat(pc: Maybe<Pc>, listening: bool) {
    if pc.None? then !listening
    else match pc.value
      case Reading(r) => if r.RWait? then listening else listening ==> r.RCas? || r.RLoad?
      case Finished(kind) => listening ==> kind.ReadFuture?
      case _ => !listening
  }

  predicate ReadersSeat(pc: Maybe<Pc>, listening: bool) {
    if pc.None? then !listening
    else match pc.value
      case Writing(w) => if w.WWait? || w.WClose? then listening else listening ==> w.WCheck?
      case Raising(p) => if p.PWait? then listening else listening ==> p.PCheck?
      case Releasing(x) =>
        if x.WriteUnlockListener? then listening
        else listening ==> x.WriteUnlockNotify? || x.WriteUnlockMutex? || x.WriteUnlockMutexNotify?
      case Finished(kind) => listening ==> kind.WriteFuture? || kind.UpgradeFuture?
      case _ => !listening
  }

  predicate SeenEven(pc: Maybe<Pc>) {
    pc.Some? && pc.value.Reading? && (pc.value.r.RCas? || pc.value.r.TryReadCas?) ==> pc.value.r.seen % 2 == 0
  }

  /** The traces an operation at `pc` leaves in the mutex and in the two events. */
  predicate Placed(pc: Maybe<Pc>, phase: M.Phase, releasing: bool, onReaders: bool, onWriters: bool) {
    && phase == LockPhase(pc)
    && (releasing <==> pc.Some? && ReleasesMutex(pc.value))
    && ReadersSeat(pc, onReaders)
    && WritersSeat(pc, onWriters)
    && SeenEven(pc)
  }

  predicate PlacedNow(s: State, id: Id) {
    Placed(At(s.procs, id), M.PhaseOf(s.m.ops, id), id in s.m.releasing,
           Listening(s.noReaders, id), Listening(s.noWriter, id))
  }

  predicate ListensAfter(e: Event, id: Id, op: EventOp) {
    op.DoListen? || (Listening(e, id) && !op.DoConsume? && !op.DoDrop?)
  }

  predicate PlacedAfter(s: State, id: Id, e: Effect) {
    Placed(Fate(At(s.procs, id), e.next),
           if e.lock.Some? then M.PhaseAfter(s.m, e.lock.value, id) else M.PhaseOf(s.m.ops, id),
           id in (if e.lock.Some? then M.ReleasingAfter(s.m, e.lock.value) else s.m.releasing),
           ListensAfter(s.noReaders, id, e.readers), ListensAfter(s.noWriter, id, e.writers))
  }

  /** The mutex action is the acting operation's own. */
  predicate OwnLock(id: Id, e: Effect) {
    e.lock.Some? ==>
      match e.lock.value
      case Spawn(x) => x == id
      case Step(x, _) => x == id
      case DropFuture(x) => x == id
      case Unlock(x) => x == id
      case UnlockNotify(x) => x == id
      case TryLock => true
  }

  // ----- wake-ups -----

  /** Operations that still owe a `no_writer` notification. */
  predicate OwesWriters(pc: Maybe<Pc>) {
    && pc.Some?
    && (pc.value == Reading(RNotify)
        || (pc.value.Releasing? && (pc.value.x.WriteUnlockNotify? || pc.value.x.DownMutex?
                                    || pc.value.x.DownMutexNotify? || pc.value.x.DownNotify?)))
  }

  /** Operations that still owe a `no_readers` notification. */
  predicate OwesReaders(pc: Maybe<Pc>) {
    pc.Some? && pc.value.Releasing? && (pc.value.x.ReadUnlockNotify? || pc.value.x.UpUnlockNotify?)
  }

  predicate ParkedReader(pc: Maybe<Pc>) {
    pc == Some(Reading(RWait))
  }

  predicate ParkedWriter(pc: Maybe<Pc>) {
    pc == Some(Writing(WWait)) || pc == Some(Raising(PWait))
  }

  /** The step of `downgrade_to_upgradable`: a write guard becomes an upgradable one. */
  predicate DowngradesSilently(pc: Maybe<Pc>, e: Effect) {
    pc == Some(Held(WriteGuard)) && Fate(pc, e.next) == Some(Held(UpgradableGuard))
  }

  /** No step leaves a reader unwoken behind a cleared bit, except a silent downgrade. */
  predicate WakesReaders(s: State, pc: Maybe<Pc>, e: Effect) {
    var to := Fate(pc, e.next);
    && (s.word % 2 == 1 && e.word % 2 == 0 ==> DowngradesSilently(pc, e) || OwesWriters(to))
    && (OwesWriters(pc) ==> e.writers.DoNotify? || OwesWriters(to))
    && (e.writers.DoConsume? ==> OwesWriters(to))
    && (ParkedReader(to) && !ParkedReader(pc) ==> e.word % 2 == 1)
    && (e.writers.DoListen? ==> !ParkedReader(to))
  }

  /** The step that leaves the word at 1 owes a notification, or is the bit owner's own. */
  predicate WakesWriter(s: State, pc: Maybe<Pc>, e: Effect) {
    var to := Fate(pc, e.next);
    && (e.word == 1 && s.word != 1 ==> OwesReaders(to) || MutexShare(to) == 1 || MutexShare(pc) == 1)
    && (OwesReaders(pc) ==> e.readers.DoNotify? || OwesReaders(to))
    && (e.readers.DoConsume? ==> MutexShare(pc) == 1 && !ParkedWriter(to))
    && (ParkedWriter(to) ==> e.word != 1 || (ParkedWriter(pc) && s.word == 1))
    && (e.readers.DoListen? ==> !ParkedWriter(to))
  }

  // ----- exclusion and overflow -----

  predicate Modest(s: State, pc: Maybe<Pc>, e: Effect) {
    var to := Fate(pc, e.next);
    && e.word <= ISIZE_MAX + 4
    && (e.word > s.word ==> e.word <= ISIZE_MAX + 2 || MutexShare(to) == 1 || MutexShare(pc) == 1)
    && (to.Some? && to.value.Upgrading? && to.value.u.UCas? ==> e.word <= ISIZE_MAX + 2)
  }

  /** A write guard appears only with the word at 1, and others only change an even word or own a share. */
  predicate Excludes(s: State, pc: Maybe<Pc>, e: Effect) {
    && (Fate(pc, e.next) == Some(Held(WriteGuard)) || NewGuard(e.next) == Some(Held(WriteGuard)) ==> e.word == 1)
    && (e.word != s.word && s.word % 2 == 1 ==> MutexShare(pc) == 1 || WordShare(pc) > 0)
    && (e.value != s.value ==> pc == Some(Held(WriteGuard)))
  }

  /** Everything a lawful step has to do, none of it about anybody else. */
  predicate Lawful(s: State, id: Id, e: Effect) {
    var pc := At(s.procs, id);
    && Balanced(s, pc, e) && PlacedAfter(s, id, e) && OwnLock(id, e)
    && WakesReaders(s, pc, e) && WakesWriter(s, pc, e) && Modest(s, pc, e) && Excludes(s, pc, e)
  }

  /** What the acting operation may rely on: a holder of the inner mutex finds the writer bit set
      exactly when it owns it, and a write guard finds the word at 1. */
  predicate Trusts(s: State, id: Id) {
    var pc := At(s.procs, id);
    && PlacedNow(s, id)
    && s.word <= ISIZE_MAX + 4
    && (MutexShare(pc) == 1 ==> s.word % 2 == One(OwnsBit(pc.value)))
    && (pc == Some(Held(WriteGuard)) ==> s.word == 1)
    && (pc.Some? && pc.value.Upgrading? && pc.value.u.UCas? ==> s.word <= ISIZE_MAX + 2)
    && s.word >= WordShare(pc)
  }

  lemma ReadLawful(s: State, id: Id, r: Reader)
    requires At(s.procs, id) == Some(Reading(r)) && Trusts(s, id)
    ensures Lawful(s, id, ReadEffect(s, id, r))
  {
    if r.RListen? || r.RWait? || r.RNotify? {
      ReadEventLawful(s, id, r);
    } else if r.RCas? || r.TryReadCas? {
      ReadCasLawful(s, id, r);
    } else {
      ReadLoadLawful(s, id, r);
    }
  }

  lemma ReadCasLawful(s: State, id: Id, r: Reader)
    requires At(s.procs, id) == Some(Reading(r)) && Trusts(s, id) && (r.RCas? || r.TryReadCas?)
    ensures Lawful(s, id, ReadEffect(s, id, r))
  {
  }

  lemma ReadLoadLawful(s: State, id: Id, r: Reader)
    requires At(s.procs, id) == Some(Reading(r)) && Trusts(s, id) && (r.RNew? || r.RLoad?)
    ensures Lawful(s, id, ReadEffect(s, id, r))
  {
  }

  lemma ReadEventLawful(s: State, id: Id, r: Reader)
    requires At(s.procs, id) == Some(Reading(r)) && Trusts(s, id)
    requires r.RListen? || r.RWait? || r.RNotify?
    ensures Lawful(s, id, ReadEffect(s, id, r))
  {
  }

  lemma UpgradableLawful(s: State, id: Id, u: Upgradable, late: bool)
    requires At(s.procs, id) == Some(Upgrading(u)) && Trusts(s, id)
    ensures Lawful(s, id, UpgradableEffect(s, id, u, late))
  {
  }

  lemma WriteLawful(s: State, id: Id, w: Writer, late: bool)
    requires At(s.procs, id) == Some(Writing(w)) && Trusts(s, id)
    ensures Lawful(s, id, WriteEffect(s, id, w, late))
  {
    if w.WLock? || w.WOr? || w.WClose? { WriteLockLawful(s, id, w, late); } else { WriteEventLawful(s, id, w, late); }
  }

  lemma WriteLockLawful(s: State, id: Id, w: Writer, late: bool)
    requires At(s.procs, id) == Some(Writing(w)) && Trusts(s, id) && (w.WLock? || w.WOr? || w.WClose?)
    ensures Lawful(s, id, WriteEffect(s, id, w, late))
  {
  }

  lemma WriteEventLawful(s: State, id: Id, w: Writer, late: bool)
    requires At(s.procs, id) == Some(Writing(w)) && Trusts(s, id) && !w.WLock? && !w.WOr? && !w.WClose?
    ensures Lawful(s, id, WriteEffect(s, id, w, late))
  {
  }

  lemma UpgradeLawful(s: State, id: Id, p: Upgrader)
    requires At(s.procs, id) == Some(Raising(p)) && Trusts(s, id)
    ensures Lawful(s, id, UpgradeEffect(s, id, p))
  {
  }

  predicate Unlocks(x: Release) {
    x.TryWriteUnlock? || x.UpUnlockMutex? || x.WriteUnlockMutex? || x.DownMutex? || x.LockClosing?
  }

  lemma ReleaseLawful(s: State, id: Id, x: Release)
    requires At(s.procs, id) == Some(Releasing(x)) && Trusts(s, id)
    ensures Lawful(s, id, ReleaseEffect(s, id, x))
  {
    if Unlocks(x) { UnlockLawful(s, id, x); } else { NotifyLawful(s, id, x); }
  }

  lemma UnlockLawful(s: State, id: Id, x: Release)
    requires At(s.procs, id) == Some(Releasing(x)) && Trusts(s, id) && Unlocks(x)
    ensures Lawful(s, id, ReleaseEffect(s, id, x))
  {
  }

  lemma NotifyLawful(s: State, id: Id, x: Release)
    requires At(s.procs, id) == Some(Releasing(x)) && Trusts(s, id) && !Unlocks(x)
    ensures Lawful(s, id, ReleaseEffect(s, id, x))
  {
  }

  lemma CancelLawful(s: State, id: Id, pc: Pc)
    requires At(s.procs, id) == Some(pc) && Droppable(pc) && Trusts(s, id)
    ensures Lawful(s, id, CancelEffect(s, id, pc))
  {
    if pc.Finished? { DropFinishedLawful(s, id, pc.kind); } else { CancelPendingLawful(s, id, pc); }
  }

  lemma CancelPendingLawful(s: State, id: Id, pc: Pc)
    requires At(s.procs, id) == Some(pc) && Droppable(pc) && Trusts(s, id) && !pc.Finished?
    ensures Lawful(s, id, CancelEffect(s, id, pc))
  {
  }

  lemma DropFinishedLawful(s: State, id: Id, kind: Kind)
    requires At(s.procs, id) == Some(Finished(kind)) && Trusts(s, id)
    ensures Lawful(s, id, CancelEffect(s, id, Finished(kind)))
  {
  }

  lemma DropGuardLawful(s: State, id: Id, g: Guard)
    requires At(s.procs, id) == Some(Held(g)) && Trusts(s, id)
    ensures Lawful(s, id, DropGuardEffect(s, g))
  {
  }

  lemma ConvertLawful(s: State, id: Id, c: Conversion)
    requires At(s.procs, id) == Some(Held(Before(c))) && Trusts(s, id)
    ensures Lawful(s, id, ConvertEffect(s, id, c))
  {
  }

  lemma CallLawful(s: State, id: Id, call: CallKind)
    requires At(s.procs, id) == None && Trusts(s, id)
    ensures Lawful(s, id, CallEffect(s, id, call))
  {
  }

  lemma StepLawful(s: State, id: Id, pc: Pc, late: bool)
    requires At(s.procs, id) == Some(pc) && Trusts(s, id) && !pc.Held? && !pc.Finished?
    ensures Lawful(s, id, StepEffect(s, id, pc, late))
  {
    match pc
    case Reading(r) => ReadLawful(s, id, r);
    case Upgrading(u) => UpgradableLawful(s, id, u, late);
    case Writing(w) => WriteLawful(s, id, w, late);
    case Raising(p) => UpgradeLawful(s, id, p);
    case Releasing(x) => ReleaseLawful(s, id, x);
  }

  lemma EffectLawful(s: State, a: Action)
    requires Allowed(s, a) && Trusts(s, a.id)
    ensures Lawful(s, a.id, EffectOf(s, a))
  {
    match a
    case Call(id, call) => CallLawful(s, id, call);
    case Step(id, late, _) => StepLawful(s, id, s.procs[id], late);
    case Repoll(id) =>
    case DropFuture(id) => CancelLawful(s, id, s.procs[id]);
    case DropGuard(id) => DropGuardLawful(s, id, s.procs[id].g);
    case Convert(id, c) => ConvertLawful(s, id, c);
    case Store(id, v) =>
  }
}
