// What a single operation of the raw reader-writer lock may count on: when the process ends, in which
// order listeners are woken, and that a poll which is left alone ends.
module RwLockProgress {
  import opened Counting
  import opened Events
  import opened RwLockModel
  import opened RwLockEffects
  import opened RwLockInvariants
  import opened RwLockTheorems
  import M = MutexModel

  // ----- the abort -----

  /** The word of the lock passes `isize::MAX`, or that of its mutex `usize::MAX / 2`, at some moment of the
      run. */
  ghost predicate Overflows(s: State, acts: seq<Action>)
    requires CanRun(s, acts)
    decreases acts
  {
    || s.word > 0x7FFF_FFFF_FFFF_FFFF
    || s.m.word > 0x7FFF_FFFF_FFFF_FFFF
    || (acts != [] && Overflows(Apply(s, acts[0]), acts[1..]))
  }

  predicate SeenFits(pc: Pc) {
    pc.Reading? ==>
      match pc.r
      case RNew(seen) => seen <= 0x7FFF_FFFF_FFFF_FFFF
      case RCas(seen) => seen <= 0x7FFF_FFFF_FFFF_FFFF
      case TryReadCas(seen) => seen <= 0x7FFF_FFFF_FFFF_FFFF
      case _ => true
  }

  ghost predicate AllFit(s: State) {
    && !s.aborted && !s.m.aborted
    && forall id :: id in s.procs ==> SeenFits(s.procs[id])
  }

  lemma StepFits(s: State, id: Id, pc: Pc, late: bool)
    requires !pc.Held? && !pc.Finished? && SeenFits(pc) && s.word <= 0x7FFF_FFFF_FFFF_FFFF
    ensures
      var next := StepEffect(s, id, pc, late).next;
      !next.Halt? && (next.Goto? ==> SeenFits(next.pc))
  {
  }

  lemma EffectFits(s: State, a: Action)
    requires Allowed(s, a) && AllFit(s) && s.word <= 0x7FFF_FFFF_FFFF_FFFF
    ensures
      var next := EffectOf(s, a).next;
      !next.Halt? && (next.Goto? ==> SeenFits(next.pc))
  {
    if a.Step? { StepFits(s, a.id, s.procs[a.id], a.late); }
  }

  lemma MutexFits(s: State, e: Effect)
    requires !s.m.aborted && s.m.word <= 0x7FFF_FFFF_FFFF_FFFF
    requires e.lock.Some? ==> M.Enabled(s.m, e.lock.value)
    ensures !LockAfter(s, e).aborted
  {
    if e.lock.Some? { M.AbortIff(s.m, e.lock.value); }
  }

  lemma {:induction false} FitsUntilOverflow(s: State, acts: seq<Action>)
    requires CanRun(s, acts) && AllFit(s) && Run(s, acts).aborted
    ensures Overflows(s, acts)
    decreases acts
  {
    if s.word <= 0x7FFF_FFFF_FFFF_FFFF && s.m.word <= 0x7FFF_FFFF_FFFF_FFFF {
      EffectFits(s, acts[0]);
      MutexFits(s, EffectOf(s, acts[0]));
      FitsUntilOverflow(Apply(s, acts[0]), acts[1..]);
    }
  }

  /** The process ends only in a run that drives one of the two words over its bound. */
  lemma AbortsOnlyOnOverflow(value: int, acts: seq<Action>)
    requires CanRun(Initial(value), acts) && Run(Initial(value), acts).aborted
    ensures Overflows(Initial(value), acts)
  {
    FitsUntilOverflow(Initial(value), acts);
  }

  // ----- the events -----

  /** Every `notify` tops the notified listeners up to one, the first in line. */
  lemma NotifiesOne(s: State, a: Action)
    requires Enabled(s, a)
    ensures EffectOf(s, a).readers.DoNotify? ==> TopsUp(s.noReaders, Apply(s, a).noReaders, 1)
    ensures EffectOf(s, a).writers.DoNotify? ==> TopsUp(s.noWriter, Apply(s, a).noWriter, 1)
  {
    NotifyInOrder(s.noReaders, 1);
    NotifyInOrder(s.noWriter, 1);
  }

  lemma EventKeepsOrder(e: Event, id: Id, op: EventOp, x: Id, y: Id)
    requires AheadIn(Queue(e), x, y) && Listening(e, x) && Listening(OnEvent(e, id, op), x)
    ensures AheadIn(Queue(OnEvent(e, id, op)), x, y)
  {
    match op
    case Keep =>
    case DoListen => ListenKeepsAhead(e, x, y, id);
    case DoConsume => ForgetKeepsAhead(e, x, y, id);
    case DoNotify => NotifyInOrder(e, 1);
    case DoDrop => DropKeepsAhead(e, x, y, id);
  }

  /** `x` keeps its `no_writer` listener over the whole run. */
  predicate StaysRegistered(s: State, acts: seq<Action>, x: Id)
    requires CanRun(s, acts)
    decreases acts
  {
    Listening(s.noWriter, x) && (acts != [] ==> StaysRegistered(Apply(s, acts[0]), acts[1..], x))
  }

  lemma {:induction false} RunKeepsOrder(s: State, acts: seq<Action>, x: Id, y: Id)
    requires CanRun(s, acts) && StaysRegistered(s, acts, x) && AheadIn(Queue(s.noWriter), x, y)
    ensures AheadIn(Queue(Run(s, acts).noWriter), x, y)
    decreases acts
  {
    if acts != [] {
      EventKeepsOrder(s.noWriter, acts[0].id, EffectOf(s, acts[0]).writers, x, y);
      RunKeepsOrder(Apply(s, acts[0]), acts[1..], x, y);
    }
  }

  /** Of two parked readers the one that registered first is notified first. */
  lemma FirstInFirstOut(s: State, acts: seq<Action>, x: Id, y: Id)
    requires CanRun(s, acts) && x != y && StaysRegistered(s, acts, x) && !Listening(s.noWriter, y)
    ensures y in Run(s, acts).noWriter.notified ==> x in Run(s, acts).noWriter.notified
  {
    NotThereIsBehind(Queue(s.noWriter), x, y);
    RunKeepsOrder(s, acts, x, y);
    var e := Run(s, acts).noWriter;
    if y in e.notified { AheadIsNotified(e.notified, e.waiting, x, y); }
  }

  // ----- a poll that is left alone ends -----

  function ReadRank(r: Reader, word: int, listening: bool, woken: bool): nat {
    if word % 2 == 0 then
      match r
      case RNew(_) => 4
      case RCas(seen) => if seen == word then 1 else 2
      case RListen => 3
      case RLoad => 2
      case RWait => if woken then 4 else 0
      case RNotify => 3
      case TryReadCas(seen) => if seen == word then 1 else 2
    else
      match r
      case RNew(_) => 8
      case RCas(_) => 7
      case RListen => 2
      case RLoad => if !listening then 3 else if woken then 6 else 1
      case RWait => if woken then 5 else 0
      case RNotify => 4
      case TryReadCas(_) => 2
  }

  function UpgradableRank(u: Upgradable, word: int, mutex: nat): nat {
    match u
    case ULock => if mutex == 0 then 0 else mutex + 3
    case ULoad(_) => 3
    case UCas(seen, _) => if seen == word then 1 else 2
  }

  /** The rank of a wait for the readers. */
  function CheckRank(word: int, listening: bool, woken: bool): nat {
    if word == 1 then 1 else if !listening then 3 else if woken then 5 else 1
  }

  function WriteRank(w: Writer, word: int, mutex: nat, listening: bool, woken: bool): nat {
    match w
    case WLock => if mutex == 0 then 0 else mutex + 9
    case WOr => 9
    case WListen => 8
    case WClose => 7
    case WCheck => CheckRank(word, listening, woken)
    case WRelisten => 2
    case WWait => if woken then 4 else 0
    case TryWriteCas => 3
  }

  function UpgradeRank(p: Upgrader, word: int, listening: bool, woken: bool): nat {
    match p
    case PNew => CheckRank(word, listening, woken)
    case PCheck => CheckRank(word, listening, woken)
    case PListen => 2
    case PWait => if woken then 4 else 0
  }

  function ReleaseRank(x: Release): nat {
    match x
    case LockClosing => 1
    case TryWriteUnlock => 2
    case ReadUnlockNotify => 1
    case UpUnlockNotify => 3
    case UpUnlockMutex => 2
    case MutexNotify => 1
    case WriteUnlockNotify => 4
    case WriteUnlockMutex => 3
    case WriteUnlockMutexNotify => 2
    case WriteUnlockListener => 1
    case DownUpMutexNotify => 1
    case DownMutex => 3
    case DownMutexNotify => 2
    case DownNotify => 1
  }

  /** What a rank depends on: the word, the rank of the inner lock future, and the listeners. */
  datatype View = View(word: int, mutex: nat, onReaders: bool, wokenReaders: bool, onWriters: bool, wokenWriters: bool)

  function RankOf(pc: Maybe<Pc>, v: View): nat {
    if pc.None? then 0
    else match pc.value
      case Reading(r) => ReadRank(r, v.word, v.onWriters, v.wokenWriters)
      case Upgrading(u) => UpgradableRank(u, v.word, v.mutex)
      case Writing(w) => WriteRank(w, v.word, v.mutex, v.onReaders, v.wokenReaders)
      case Raising(p) => UpgradeRank(p, v.word, v.onReaders, v.wokenReaders)
      case Releasing(x) => ReleaseRank(x)
      case Held(_) => 0
      case Finished(_) => 0
  }

  function ViewOf(s: State, id: Id): View {
    View(s.word, M.Rank(s.m, id), Listening(s.noReaders, id), id in s.noReaders.notified,
         Listening(s.noWriter, id), id in s.noWriter.notified)
  }

  /** A bound on the steps that an operation can make by itself before it waits or is done. */
  function Rank(s: State, id: Id): nat {
    RankOf(At(s.procs, id), ViewOf(s, id))
  }

  predicate WokenAfter(e: Event, id: Id, op: EventOp) {
    id in e.notified && !op.DoConsume? && !op.DoDrop?
  }

  function ViewAfter(s: State, id: Id, e: Effect, mutex: nat): View {
    View(e.word, mutex, ListensAfter(s.noReaders, id, e.readers), WokenAfter(s.noReaders, id, e.readers),
         ListensAfter(s.noWriter, id, e.writers), WokenAfter(s.noWriter, id, e.writers))
  }

  /** An operation never notifies itself, and listens only when it has no listener. */
  predicate Selfless(s: State, id: Id, e: Effect) {
    && (e.readers.DoNotify? || e.readers.DoListen? ==> !Listening(s.noReaders, id))
    && (e.writers.DoNotify? || e.writers.DoListen? ==> !Listening(s.noWriter, id))
  }

  ghost predicate Settles(s: State, id: Id, pc: Pc, e: Effect, mutex: nat) {
    && Selfless(s, id, e)
    && (e.next.Halt? || RankOf(Fate(Some(pc), e.next), ViewAfter(s, id, e, mutex)) < RankOf(Some(pc), ViewOf(s, id)))
  }

  lemma ReadSettles(s: State, id: Id, r: Reader, mutex: nat)
    requires At(s.procs, id) == Some(Reading(r)) && Trusts(s, id) && (r.RWait? ==> id in s.noWriter.notified)
    ensures Settles(s, id, Reading(r), ReadEffect(s, id, r), mutex)
  {
  }

  lemma UpgradableSettles(s: State, id: Id, u: Upgradable, late: bool, mutex: nat)
    requires At(s.procs, id) == Some(Upgrading(u)) && Trusts(s, id)
    requires u.ULock? ==> mutex < M.Rank(s.m, id)
    ensures Settles(s, id, Upgrading(u), UpgradableEffect(s, id, u, late), mutex)
  {
  }

  lemma WriteSettles(s: State, id: Id, w: Writer, late: bool, mutex: nat)
    requires At(s.procs, id) == Some(Writing(w)) && Trusts(s, id) && (w.WWait? ==> id in s.noReaders.notified)
    requires w.WLock? ==> mutex < M.Rank(s.m, id)
    ensures Settles(s, id, Writing(w), WriteEffect(s, id, w, late), mutex)
  {
  }

  lemma UpgradeSettles(s: State, id: Id, p: Upgrader, mutex: nat)
    requires At(s.procs, id) == Some(Raising(p)) && Trusts(s, id) && (p.PWait? ==> id in s.noReaders.notified)
    ensures Settles(s, id, Raising(p), UpgradeEffect(s, id, p), mutex)
  {
  }

  lemma ReleaseSettles(s: State, id: Id, x: Release, mutex: nat)
    requires At(s.procs, id) == Some(Releasing(x)) && Trusts(s, id)
    ensures Settles(s, id, Releasing(x), ReleaseEffect(s, id, x), mutex)
  {
  }

  lemma EffectSettles(s: State, a: Action, mutex: nat)
    requires Enabled(s, a) && a.Step? && Trusts(s, a.id) && (WaitsForLock(s.procs[a.id]) ==> mutex < M.Rank(s.m, a.id))
    ensures Settles(s, a.id, s.procs[a.id], EffectOf(s, a), mutex)
  {
    match s.procs[a.id]
    case Reading(r) => ReadSettles(s, a.id, r, mutex);
    case Upgrading(u) => UpgradableSettles(s, a.id, u, a.late, mutex);
    case Writing(w) => WriteSettles(s, a.id, w, a.late, mutex);
    case Raising(p) => UpgradeSettles(s, a.id, p, mutex);
    case Releasing(x) => ReleaseSettles(s, a.id, x, mutex);
  }

  lemma ViewFollows(s: State, a: Action, mutex: nat)
    requires Enabled(s, a) && a.Step? && Selfless(s, a.id, EffectOf(s, a))
    requires mutex == M.Rank(Apply(s, a).m, a.id)
    ensures ViewOf(Apply(s, a), a.id) == ViewAfter(s, a.id, EffectOf(s, a), mutex)
  {
  }

  lemma MutexSettles(s: State, a: Action)
    requires Inv(s) && Enabled(s, a) && a.Step? && WaitsForLock(s.procs[a.id]) && !Apply(s, a).m.aborted
    ensures M.Rank(Apply(s, a).m, a.id) < M.Rank(s.m, a.id)
  {
    M.OwnStepSettles(s.m, a.id, a.late);
  }

  /** Every step that an operation makes by itself lowers its rank. */
  lemma OwnStepSettles(s: State, a: Action)
    requires Inv(s) && Enabled(s, a) && a.Step? && !Apply(s, a).aborted
    ensures Rank(Apply(s, a), a.id) < Rank(s, a.id)
  {
    var t := Apply(s, a);
    Trusted(s, a.id);
    if WaitsForLock(s.procs[a.id]) { MutexSettles(s, a); }
    EffectSettles(s, a, M.Rank(t.m, a.id));
    ViewFollows(s, a, M.Rank(t.m, a.id));
    OnlyFuturesComplete(s, a);
    assert At(t.procs, a.id) == Fate(At(s.procs, a.id), EffectOf(s, a).next);
  }

  lemma CanOnlyStepBelow(s: State, a: Action)
    requires Inv(s) && Enabled(s, a) && a.Step?
    ensures 0 < Rank(s, a.id) <= 25
  {
    Trusted(s, a.id);
    assert PlacedNow(s, a.id);
  }

  lemma {:induction false} SoloSteps(s: State, acts: seq<Action>, id: Id)
    requires Inv(s) && CanRun(s, acts) && forall i :: 0 <= i < |acts| ==> acts[i].Step? && acts[i].id == id
    ensures |acts| <= Rank(s, id)
    decreases acts
  {
    if acts != [] {
      var t := Apply(s, acts[0]);
      assert acts[0].Step? && acts[0].id == id;
      CanOnlyStepBelow(s, acts[0]);
      ApplyKeepsInv(s, acts[0]);
      SoloSteps(t, acts[1..], id);
      if !t.aborted { OwnStepSettles(s, acts[0]); }
      assert CanRun(t, acts[1..]) && t.aborted ==> acts[1..] == [];
    }
  }

  /** From every reachable state an operation that nobody interferes with makes at most 25 atomic steps, on
      the lock and on its mutex together: then it is complete, gone, or waits for a notification, or the
      process ended. */
  lemma SoloPollEnds(value: int, before: seq<Action>, acts: seq<Action>, id: Id)
    requires CanRun(Initial(value), before) && CanRun(Run(Initial(value), before), acts)
    requires forall i :: 0 <= i < |acts| ==> acts[i].Step? && acts[i].id == id
    ensures |acts| <= 25
  {
    InitialInv(value);
    RunKeepsInv(Initial(value), before);
    SoloSteps(Run(Initial(value), before), acts, id);
    if acts != [] { CanOnlyStepBelow(Run(Initial(value), before), acts[0]); }
  }

  // ----- what is free is taken -----

  lemma ReaderGoesOn(s: State, id: Id, r: Reader)
    requires s.word % 2 == 0 && s.word <= 0x7FFF_FFFF_FFFF_FFFF && !r.TryReadCas? && SeenFits(Reading(r))
    requires At(s.procs, id) == Some(Reading(r)) && PlacedNow(s, id)
    ensures
      var e := ReadEffect(s, id, r);
      && e.lock.None? && e.word == (if e.next.Complete? then s.word + 2 else s.word)
      && (e.next == Complete(ReadFuture, ReadGuard)
          || (e.next.Goto? && e.next.pc.Reading? && SeenFits(e.next.pc)
              && !e.next.pc.r.RWait? && !e.next.pc.r.TryReadCas?))
  {
  }

  lemma ReaderCanStep(s: State, id: Id) returns (gid: Id)
    requires !s.aborted && At(s.procs, id).Some? && s.procs[id].Reading?
    requires s.procs[id].r.RWait? ==> id in s.noWriter.notified
    ensures Enabled(s, Step(id, false, gid))
  {
    gid := FreshName(s.procs.Keys);
  }

  /** A reader that is not parked unnotified, and that nobody interferes with, is admitted whenever the
      writer bit is clear: when it can go on no further, it is complete. */
  lemma {:induction false} FreeLockAdmitsReader(s: State, acts: seq<Action>, id: Id)
    requires Inv(s) && CanRun(s, acts) && forall i :: 0 <= i < |acts| ==> acts[i].Step? && acts[i].id == id
    requires !s.aborted && !s.m.aborted && s.word % 2 == 0 && s.word <= 0x7FFF_FFFF_FFFF_FFFF
    requires At(s.procs, id).Some? && s.procs[id].Reading? && !s.procs[id].r.TryReadCas? && SeenFits(s.procs[id])
    requires s.procs[id].r.RWait? ==> id in s.noWriter.notified
    requires forall late, gid :: !Enabled(Run(s, acts), Step(id, late, gid))
    ensures At(Run(s, acts).procs, id) == Some(Finished(ReadFuture))
    decreases acts
  {
    assert PlacedNow(s, id);
    ReaderGoesOn(s, id, s.procs[id].r);
    var gid := ReaderCanStep(s, id);
    if acts != [] {
      assert acts[0].Step? && acts[0].id == id;
      assert |acts| > 1 ==> acts[1].Step? && acts[1].id == id && acts[1..][0] == acts[1];
      var t := Apply(s, acts[0]);
      OnlyFuturesComplete(s, acts[0]);
      ApplyKeepsInv(s, acts[0]);
      assert At(t.procs, id) == Fate(At(s.procs, id), EffectOf(s, acts[0]).next);
      if !EffectOf(s, acts[0]).next.Complete? { FreeLockAdmitsReader(t, acts[1..], id); }
    }
  }

  /** A parked writer or upgrade that is polled again looks at the word before it waits on: with all readers
      gone it completes, notified or not. */
  lemma LoneWriterCompletes(s: State, id: Id, late: bool, gid: Id)
    requires !s.aborted && !s.m.aborted && s.word == 1 && gid !in s.procs
    requires At(s.procs, id) == Some(Writing(WWait)) || At(s.procs, id) == Some(Raising(PWait))
    ensures CanRun(s, [Repoll(id), Step(id, late, gid)])
    ensures At(Run(s, [Repoll(id), Step(id, late, gid)]).procs, gid) == Some(Held(WriteGuard))
  {
    var t := Apply(s, Repoll(id));
    var acts := [Repoll(id), Step(id, late, gid)];
    assert acts[1..] == [Step(id, late, gid)] && acts[1..][1..] == [];
    assert Enabled(t, Step(id, late, gid));
    assert Run(t, acts[1..]) == Apply(t, Step(id, late, gid));
  }
}
