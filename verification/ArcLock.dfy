// Reference counts: the lock inside an `Arc`, whose owned guards and `UpgradeArc` futures hold a
// reference of their own.
//
// A machine of atomic steps on top of the raw lock.  The strong count changes where the program clones
// or drops an `Arc`, and nowhere else.  What a record does with its `Arc` between two atomic operations
// (moving it out of a consumed guard, taking it out of a future, going on after a raw call returned) is
// local to its thread and rides with the atomic operation before it.
module ArcModel {
  import opened Counting
  import opened Events
  import R = RwLockModel

  /** What the thread that uses a record is doing. */
  datatype Stage =
    | Live          // a guard in the user's hands
    | Dropping      // its `drop` runs the raw unlock
    | Downgrading   // a raw downgrade runs; `into_arc` and `from_arc` come after it
    | Polling       // an `UpgradeArc` that did not return `Ready`
    | Completed     // an `UpgradeArc` that returned `Ready`, not dropped yet
    | Cancelling    // the drop of an `UpgradeArc` runs the drop of its raw future
    | DropField     // the raw lock was left; the `Arc` field goes next

  /** An owned guard or an `UpgradeArc`; `arc`: an `Arc` value is in its `lock` field. */
  datatype Rec = Rec(stage: Stage, arc: bool)

  datatype State = State(raw: R.State, strong: int, handles: nat, recs: map<Id, Rec>)

  function Initial(value: int): State {
    State(R.Initial(value), 1, 1, map[])
  }

  datatype Action =
    | Raw(a: R.Action)
    | CloneHandle
    | DropHandle
    | CloneInto(g: Id)   // `from_arc(lock.clone())` on a guard that was just acquired through a handle
    | DropArc(id: Id)    // the `Arc` field of a record is dropped

  /** Guards and futures that live no longer than the handle they were made from.  A completed upgrade
      future refers to nothing but its own listener. */
  predicate Borrows(s: State, id: Id) {
    id in s.raw.procs && id !in s.recs && s.raw.procs[id] != R.Finished(R.UpgradeFuture)
  }

  /** The last conjunct of `DropHandle` is the borrow checker's. */
  predicate Enabled(s: State, act: Action) {
    match act
    case Raw(a) =>
      && R.Enabled(s.raw, a)
      && (a.Call? ==> s.handles > 0 && a.id !in s.recs)
      && (a.Step? ==> a.gid !in s.recs)
    case CloneHandle => s.handles > 0
    case DropHandle => s.handles > 0 && (s.handles == 1 ==> forall id | id in s.raw.procs :: !Borrows(s, id))
    case CloneInto(g) => s.handles > 0 && g in s.raw.procs && s.raw.procs[g].Held? && g !in s.recs
    case DropArc(id) => id in s.recs && s.recs[id].stage.DropField?
  }

  /** `into_arc`: the `Arc` is read out of the consumed guard `r` and put into what takes its place. */
  function IntoArc(r: Rec, stage: Stage): Rec {
    Rec(stage, r.arc)
  }

  /** What the thread of the record `r` goes on to do after the step `a` on the raw lock that led to
      `next`; `raw` is the place of the raw future before the step.  `None`: the record is gone, and its
      `Arc` field, if there is still something in it, is never dropped. */
  function GoesOn(r: Rec, a: R.Action, raw: R.Pc, next: R.Next): Maybe<Rec> {
    match a
    case DropGuard(_) => Some(Rec(if next.Gone? then DropField else Dropping, r.arc))
    case Convert(_, c) =>
      Some(match c
             case TryUpgrade => IntoArc(r, Live)
             case DowngradeToUpgradable => IntoArc(r, Live)
             case Upgrade => IntoArc(r, Polling)
             case _ => Rec(Downgrading, r.arc))
    case DropFuture(_) =>
      // `is_ready` is asked of the raw future before that is dropped.
      if raw == R.Finished(R.UpgradeFuture) then None
      else Some(Rec(if next.Gone? then DropField else Cancelling, r.arc))
    case Step(_, _, _) =>
      (match r.stage
       case Dropping => Some(Rec(if next.Gone? then DropField else Dropping, r.arc))
       case Cancelling => Some(Rec(if next.Gone? then DropField else Cancelling, r.arc))
       case Downgrading => Some(if next.Goto? && next.pc.Held? then IntoArc(r, Live) else r)
       case Polling => Some(if next.Complete? then Rec(Completed, false) else r)
       case _ => Some(r))
    case _ => Some(r)
  }

  /** The guard that a completed upgrade returns gets what `ManuallyDrop::take` finds in the future. */
  function Granted(r: Rec, next: R.Next): Maybe<Rec> {
    if r.stage.Polling? && next.Complete? then Some(Rec(Live, r.arc)) else None
  }

  function Put(recs: map<Id, Rec>, id: Id, r: Maybe<Rec>): map<Id, Rec> {
    if r.None? then recs - {id} else recs[id := r.value]
  }

  function RecsAfter(s: State, a: R.Action): map<Id, Rec>
    requires R.Enabled(s.raw, a)
  {
    if a.id !in s.recs || a.id !in s.raw.procs then s.recs
    else
      var next, r := R.EffectOf(s.raw, a).next, s.recs[a.id];
      var own := Put(s.recs, a.id, GoesOn(r, a, s.raw.procs[a.id], next));
      if a.Step? && Granted(r, next).Some? then own[a.gid := Granted(r, next).value] else own
  }

  function Apply(s: State, act: Action): State
    requires Enabled(s, act)
  {
    match act
    case Raw(a) => s.(raw := R.Apply(s.raw, a), recs := RecsAfter(s, a))
    case CloneHandle => s.(strong := s.strong + 1, handles := s.handles + 1)
    case DropHandle => s.(strong := s.strong - 1, handles := s.handles - 1)
    case CloneInto(g) => s.(strong := s.strong + 1, recs := s.recs[g := Rec(Live, true)])
    case DropArc(id) => s.(strong := s.strong - 1, recs := s.recs - {id})
  }
}

module ArcTheorems {
  import opened Counting
  import opened Events
  import opened ArcModel
  import opened RwLockEffects
  import RI = RwLockInvariants
  import RT = RwLockTheorems
  import R = RwLockModel
  import M = MutexModel

  /** What is left of an unlock, as opposed to a downgrade that ends in a read guard. */
  predicate Ending(pc: R.Pc) {
    pc.Releasing? && !pc.x.DownUpMutexNotify? && !pc.x.DownMutex? && !pc.x.DownMutexNotify? && !pc.x.DownNotify?
  }

  /** The record and its place in the raw lock agree, and the `Arc` is there exactly until it was taken. */
  predicate Agrees(r: Rec, pc: Maybe<R.Pc>) {
    && r.arc == !r.stage.Completed?
    && match r.stage
       case Live => pc.Some? && pc.value.Held?
       case Dropping => pc.Some? && Ending(pc.value)
       case Downgrading => pc.Some? && pc.value.Releasing? && !Ending(pc.value)
       case Polling => pc.Some? && pc.value.Raising?
       case Completed => pc == Some(R.Finished(R.UpgradeFuture))
       case Cancelling => pc.Some? && Ending(pc.value)
       case DropField => pc.None?
  }

  predicate HoldsArc(r: Rec) { r.arc }

  ghost predicate Inv(s: State) {
    && RI.Inv(s.raw)
    && s.strong == s.handles + |Those(s.recs, HoldsArc)|
    && (forall id :: id in s.recs ==> Agrees(s.recs[id], At(s.raw.procs, id)))
    && (forall id :: Borrows(s, id) ==> s.handles > 0)
  }

  // ----- one step on the raw lock -----

  /** Whose entry a step of the raw lock changes. */
  lemma Moves(s: R.State, a: R.Action, y: Id)
    requires R.Enabled(s, a)
    ensures
      var next := R.EffectOf(s, a).next;
      At(R.Apply(s, a).procs, y) ==
        if next.Complete? && a.Step? && y == a.gid then Some(R.Held(next.g))
        else if y == a.id then Fate(At(s.procs, y), next) else At(s.procs, y)
  {
    RI.OnlyFuturesComplete(s, a);
  }

  /** A step by a record's operation: the thread goes on in agreement with the raw lock, the `Arc` is
      neither lost nor doubled, and a record disappears only after its `Arc` was taken. */
  ghost predicate GoesOnWell(r: Rec, a: R.Action, pc: R.Pc, next: R.Next) {
    var own, granted := GoesOn(r, a, pc, next), Granted(r, next);
    && (own.Some? ==> Agrees(own.value, Fate(Some(pc), next)))
    && (own.None? ==> next.Gone?)
    && (granted.Some? <==> next.Complete?)
    && (granted.Some? ==> a.Step? && Agrees(granted.value, Some(R.Held(next.g))))
    && One(r.arc) == One(own.Some? && own.value.arc) + One(granted.Some? && granted.value.arc)
  }

  lemma ReleaseLeads(s: R.State, id: Id, x: R.Release)
    ensures
      var next := R.ReleaseEffect(s, id, x).next;
      if Ending(R.Releasing(x)) then next.Gone? || (next.Goto? && Ending(next.pc))
      else next == R.Goto(R.Held(R.ReadGuard)) || (next.Goto? && next.pc.Releasing? && !Ending(next.pc))
  {
  }

  lemma StepGoesOn(s: R.State, a: R.Action, r: Rec)
    requires R.Enabled(s, a) && a.Step? && Agrees(r, At(s.procs, a.id))
    ensures GoesOnWell(r, a, s.procs[a.id], R.EffectOf(s, a).next)
  {
    var pc := s.procs[a.id];
    if pc.Releasing? { ReleaseLeads(s, a.id, pc.x); } else { RaisingLeads(s, a.id, pc.p); }
  }

  lemma RaisingLeads(s: R.State, id: Id, p: R.Upgrader)
    ensures
      var next := R.UpgradeEffect(s, id, p).next;
      next == R.Complete(R.UpgradeFuture, R.WriteGuard) || (next.Goto? && next.pc.Raising?)
  {
  }

  lemma OtherGoesOn(s: R.State, a: R.Action, r: Rec)
    requires R.Enabled(s, a) && !a.Step? && !a.Call? && Agrees(r, At(s.procs, a.id))
    ensures GoesOnWell(r, a, s.procs[a.id], R.EffectOf(s, a).next)
  {
  }

  lemma RecordGoesOn(s: R.State, a: R.Action, r: Rec)
    requires R.Enabled(s, a) && a.id in s.procs && Agrees(r, At(s.procs, a.id))
    ensures GoesOnWell(r, a, s.procs[a.id], R.EffectOf(s, a).next)
  {
    if a.Step? { StepGoesOn(s, a, r); } else { OtherGoesOn(s, a, r); }
  }

  lemma PutCounts(recs: map<Id, Rec>, id: Id, r: Maybe<Rec>)
    requires id in recs
    ensures |Those(Put(recs, id, r), HoldsArc)| == |Those(recs, HoldsArc)|
            + One(r.Some? && r.value.arc) - One(recs[id].arc)
  {
    if r.None? { RecountGone(recs, id, HoldsArc); } else { Recount(recs, id, r.value, HoldsArc); }
  }

  lemma RawKeepsCount(s: State, a: R.Action)
    requires Inv(s) && Enabled(s, Raw(a))
    ensures |Those(RecsAfter(s, a), HoldsArc)| == |Those(s.recs, HoldsArc)|
  {
    if a.id in s.recs && a.id in s.raw.procs {
      var next, r := R.EffectOf(s.raw, a).next, s.recs[a.id];
      var own := GoesOn(r, a, s.raw.procs[a.id], next);
      RecordGoesOn(s.raw, a, r);
      PutCounts(s.recs, a.id, own);
      if Granted(r, next).Some? { Recount(Put(s.recs, a.id, own), a.gid, Granted(r, next).value, HoldsArc); }
    }
  }

  lemma RawKeepsAgreement(s: State, a: R.Action, id: Id)
    requires Inv(s) && Enabled(s, Raw(a)) && id in RecsAfter(s, a)
    ensures Agrees(RecsAfter(s, a)[id], At(R.Apply(s.raw, a).procs, id))
  {
    Moves(s.raw, a, id);
    RI.OnlyFuturesComplete(s.raw, a);
    if a.id in s.recs && a.id in s.raw.procs { RecordGoesOn(s.raw, a, s.recs[a.id]); }
  }

  lemma FinishedOnlyDrops(s: R.State, a: R.Action)
    requires R.Enabled(s, a) && !a.Call? && s.procs[a.id].Finished?
    ensures a.DropFuture? && (s.procs[a.id].kind.UpgradeFuture? ==> R.EffectOf(s, a).next.Gone?)
  {
  }

  lemma BorrowersHaveHandle(s: State, a: R.Action, id: Id)
    requires Inv(s) && Enabled(s, Raw(a)) && Borrows(Apply(s, Raw(a)), id)
    ensures s.handles > 0
  {
    Moves(s.raw, a, id);
    if !a.Call? && !Borrows(s, id) {
      if s.raw.procs[a.id].Finished? {
        FinishedOnlyDrops(s.raw, a);
      } else if a.id in s.recs {
        RecordGoesOn(s.raw, a, s.recs[a.id]);
      } else {
        assert Borrows(s, a.id);
      }
    }
  }

  lemma RawKeepsInv(s: State, a: R.Action)
    requires Inv(s) && Enabled(s, Raw(a))
    ensures Inv(Apply(s, Raw(a)))
  {
    var t := Apply(s, Raw(a));
    RI.ApplyKeepsInv(s.raw, a);
    RawKeepsCount(s, a);
    forall id | id in t.recs ensures Agrees(t.recs[id], At(t.raw.procs, id)) { RawKeepsAgreement(s, a, id); }
    forall id | Borrows(t, id) ensures t.handles > 0 { BorrowersHaveHandle(s, a, id); }
  }

  lemma CountKeepsInv(s: State, act: Action)
    requires Inv(s) && Enabled(s, act) && !act.Raw?
    ensures Inv(Apply(s, act))
  {
    if act.CloneInto? { Recount(s.recs, act.g, Rec(Live, true), HoldsArc); }
    if act.DropArc? {
      RecountGone(s.recs, act.id, HoldsArc);
      assert Agrees(s.recs[act.id], At(s.raw.procs, act.id));
    }
    forall id | Borrows(Apply(s, act), id) ensures Apply(s, act).handles > 0 {
      assert Borrows(s, id);
    }
  }

  lemma ApplyKeepsInv(s: State, act: Action)
    requires Inv(s) && Enabled(s, act)
    ensures Inv(Apply(s, act))
  {
    if act.Raw? { RawKeepsInv(s, act.a); } else { CountKeepsInv(s, act); }
  }

  // ----- runs -----

  predicate CanRun(s: State, acts: seq<Action>)
    decreases acts
  {
    acts == [] || (Enabled(s, acts[0]) && CanRun(Apply(s, acts[0]), acts[1..]))
  }

  function Run(s: State, acts: seq<Action>): State
    requires CanRun(s, acts)
    decreases acts
  {
    if acts == [] then s else Run(Apply(s, acts[0]), acts[1..])
  }

  lemma {:induction false} RunKeepsInv(s: State, acts: seq<Action>)
    requires Inv(s) && CanRun(s, acts)
    ensures Inv(Run(s, acts))
    decreases acts
  {
    if acts != [] {
      ApplyKeepsInv(s, acts[0]);
      RunKeepsInv(Apply(s, acts[0]), acts[1..]);
    }
  }

  lemma InitialInv(value: int)
    ensures Inv(Initial(value))
  {
    RT.InitialInv(value);
    assert Those(Initial(value).recs, HoldsArc) == {};
  }

  // ----- what the invariants mean -----

  /** Live guards, pending upgrades, and what is left of an unlock or a downgrade. */
  predicate GuardLike(pc: R.Pc) {
    pc.Held? || pc.Raising? || pc.Releasing?
  }

  /** The owned ones among them, and the records that left the raw lock but kept their reference. */
  function References(s: State): set<Id> {
    set id | id in s.recs && (id !in s.raw.procs || GuardLike(s.raw.procs[id]))
  }

  /** In every run, after every conversion, completion, cancellation and drop, the strong count is the
      handles plus, as the raw lock has them, the live owned guards, the pending `UpgradeArc` futures and
      the unfinished drops of either. */
  lemma Conservation(value: int, acts: seq<Action>)
    requires CanRun(Initial(value), acts)
    ensures var s := Run(Initial(value), acts); s.strong == s.handles + |References(s)|
  {
    InitialInv(value);
    RunKeepsInv(Initial(value), acts);
    ReferencesHoldArcs(Run(Initial(value), acts));
  }

  lemma ReferencesHoldArcs(s: State)
    requires Inv(s)
    ensures References(s) == Those(s.recs, HoldsArc)
  {
    forall id | id in s.recs ensures id in References(s) <==> s.recs[id].arc {
      assert Agrees(s.recs[id], At(s.raw.procs, id));
    }
  }

  /** Whenever a record's `Arc` is dropped there is one to drop, and the raw lock was left before: no
      guard, no share of the word, no hold on the inner mutex, no listener and no unfinished unlock of
      that record remains. */
  lemma ReleasedBeforeDropped(s: State, id: Id)
    requires Inv(s) && Enabled(s, DropArc(id))
    ensures s.recs[id].arc && s.strong >= 1
    ensures id !in s.raw.procs && id !in s.raw.m.ops && id !in s.raw.m.releasing
    ensures !Listening(s.raw.noReaders, id) && !Listening(s.raw.noWriter, id)
  {
    assert Agrees(s.recs[id], At(s.raw.procs, id));
    assert PlacedNow(s.raw, id);
    RecountGone(s.recs, id, HoldsArc);
  }

  /** Nothing ever touches a lock that was freed: every step on the raw lock finds the count at one or
      more, except the drop of a completed upgrade future, which only drops its listener. */
  lemma NoUseAfterFree(s: State, a: R.Action)
    requires Inv(s) && Enabled(s, Raw(a))
    ensures s.strong >= 1 || (a.DropFuture? && a.id in s.raw.procs && s.raw.procs[a.id] == R.Finished(R.UpgradeFuture))
  {
    if !a.Call? && !Borrows(s, a.id) && a.id in s.recs {
      assert Agrees(s.recs[a.id], At(s.raw.procs, a.id));
      RecountGone(s.recs, a.id, HoldsArc);
      if s.recs[a.id].stage.Completed? { FinishedOnlyDrops(s.raw, a); }
    }
  }

  /** When the count reaches zero, the raw lock and its mutex were released before. */
  lemma FreedLockIsReleased(s: State)
    requires Inv(s) && s.strong == 0
    ensures s.raw.word == 0 && s.raw.m.word == 0 && s.raw.m.ops == map[] && s.raw.m.releasing == {}
    ensures forall id :: id in s.raw.procs ==> s.raw.procs[id] == R.Finished(R.UpgradeFuture)
  {
    assert Those(s.recs, HoldsArc) == {};
    forall id | id in s.raw.procs ensures s.raw.procs[id] == R.Finished(R.UpgradeFuture) {
      assert !Borrows(s, id);
      assert id in s.recs ==> Agrees(s.recs[id], At(s.raw.procs, id)) && id !in Those(s.recs, HoldsArc);
    }
    NothingHeld(s.raw);
  }

  lemma NothingHeld(s: R.State)
    requires RI.Inv(s) && forall id :: id in s.procs ==> s.procs[id] == R.Finished(R.UpgradeFuture)
    ensures s.word == 0 && s.m.word == 0 && s.m.ops == map[] && s.m.releasing == {}
  {
    assert RI.Sharers(s.procs) == {} && RI.Owners(s.procs) == {} && RI.Holders(s.procs) == {};
    forall id ensures id !in s.m.ops && id !in s.m.releasing {
      assert PlacedNow(s, id);
    }
    assert s.m.ops == map[];
    assert M.Starved(s.m.ops) == {} && M.Taking(s.m.ops) == {};
  }

  /** No reference leaks, and no `UpgradeArc` is stuck with one: when nothing can step on the raw lock, no
      guard lives, no completed future is kept and no `Arc` field is left to drop, the count is back at the
      handles and no record exists. */
  lemma NothingLeaks(value: int, acts: seq<Action>)
    requires CanRun(Initial(value), acts)
    requires var s := Run(Initial(value), acts); RT.Quiescent(s.raw) && forall id :: !Enabled(s, DropArc(id))
    ensures var s := Run(Initial(value), acts); s.strong == s.handles && s.recs == map[]
  {
    InitialInv(value);
    RunKeepsInv(Initial(value), acts);
    var s := Run(Initial(value), acts);
    RT.QuiescentIsEmpty(s.raw);
    forall id ensures id !in s.recs {
      assert !Enabled(s, DropArc(id));
      assert id in s.recs ==> Agrees(s.recs[id], At(s.raw.procs, id));
    }
    assert Those(s.recs, HoldsArc) == {};
  }
}
