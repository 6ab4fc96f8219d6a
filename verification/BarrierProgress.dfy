// When a run of a barrier aborts, and that a poll which is left alone ends.
module BarrierProgress {
  import opened Counting
  import opened Events
  import opened BarrierModel
  import opened BarrierInvariants
  import opened BarrierTheorems
  import M = MutexModel

  // ----- the abort -----

  /** The word of the state mutex passes `usize::MAX / 2` at some moment of the run. */
  ghost predicate Overflows(s: State, acts: seq<Action>)
    requires CanRun(s, acts)
    decreases acts
  {
    s.m.word > 0x7FFF_FFFF_FFFF_FFFF || (acts != [] && Overflows(Apply(s, acts[0]), acts[1..]))
  }

  lemma MutexFits(s: State, e: Effect)
    requires !s.m.aborted && s.m.word <= 0x7FFF_FFFF_FFFF_FFFF
    requires e.lock.Some? ==> M.Enabled(s.m, e.lock.value)
    ensures !LockAfter(s, e).aborted
  {
    if e.lock.Some? { M.AbortIff(s.m, e.lock.value); }
  }

  lemma {:induction false} FitsUntilOverflow(s: State, acts: seq<Action>)
    requires CanRun(s, acts) && !s.aborted && !s.m.aborted && Run(s, acts).aborted
    ensures Overflows(s, acts)
    decreases acts
  {
    if s.m.word <= 0x7FFF_FFFF_FFFF_FFFF {
      MutexFits(s, EffectOf(s, acts[0]));
      FitsUntilOverflow(Apply(s, acts[0]), acts[1..]);
    }
  }

  /** The process ends only in a run that drives the word of the mutex over its bound. */
  lemma AbortsOnlyOnOverflow(n: nat, acts: seq<Action>)
    requires CanRun(Initial(n), acts) && Run(Initial(n), acts).aborted
    ensures Overflows(Initial(n), acts)
  {
    FitsUntilOverflow(Initial(n), acts);
  }

  // ----- a poll that is left alone ends -----

  function EnterRank(f: First, mutex: nat): nat {
    match f
    case Lock => if mutex == 0 then 0 else mutex + 9
    case Close => 9
    case Arrive => 8
  }

  function StayRank(w: Stay, mutex: nat, woken: bool): nat {
    match w
    case Register => 7
    case Unlock => if woken then 30 else 6
    case UnlockNotify => if woken then 29 else 5
    case Wait => if woken then 28 else 0
    case Relock => if mutex == 0 then 0 else mutex + 9
    case Reclose => 9
    case Check => 8
    case Leave => 4
    case LeaveNotify => 3
  }

  function LeadRank(l: Last): nat {
    match l
    case WakeAll => 3
    case LastUnlock => 2
    case LastUnlockNotify => 1
  }

  function RankOf(pc: Maybe<Pc>, mutex: nat, woken: bool): nat {
    if pc.None? then 0
    else match pc.value
      case Entering(f) => EnterRank(f, mutex)
      case Staying(w, _) => StayRank(w, mutex, woken)
      case Leading(l, _) => LeadRank(l)
      case Done(_, _) => 0
      case Closing => 1
  }

  /** A bound on the steps that a `wait` can make by itself before it has to wait or is done. */
  function Rank(s: State, id: Id): nat {
    RankOf(At(s.procs, id), M.Rank(s.m, id), id in s.ev.notified)
  }

  predicate WokenAfter(e: Event, id: Id, op: EventOp) {
    id in e.notified && !op.DoConsume? && !op.DoDrop?
  }

  lemma StepSettles(s: State, id: Id, pc: Pc, late: bool, mutex: nat)
    requires At(s.procs, id) == Some(pc) && Runnable(s, id) && PlacedNow(s, id)
    requires WaitsForLock(pc) ==> mutex < M.Rank(s.m, id)
    requires pc.Staying? && pc.w.Wait? ==> mutex <= 16
    ensures
      var e := StepEffect(s, id, pc, late);
      && (e.op.DoListen? ==> !Listening(s.ev, id))
      && (e.op.DoNotifyAll? ==> !Listening(s.ev, id))
      && RankOf(e.to, mutex, WokenAfter(s.ev, id, e.op)) < Rank(s, id)
  {
  }

  lemma EventFollows(e: Event, id: Id, op: EventOp)
    requires op.DoListen? || op.DoNotifyAll? ==> !Listening(e, id)
    ensures id in OnEvent(e, id, op).notified <==> WokenAfter(e, id, op)
  {
  }

  lemma MutexSettles(s: State, a: Action)
    requires Inv(s) && Enabled(s, a) && a.Step? && WaitsForLock(s.procs[a.id]) && !Apply(s, a).m.aborted
    ensures M.Rank(Apply(s, a).m, a.id) < M.Rank(s.m, a.id)
  {
    M.OwnStepSettles(s.m, a.id, a.late);
  }

  lemma MutexRank(m: M.State, id: Id)
    ensures M.Rank(m, id) <= 16
  {
  }

  /** Every step that a `wait` makes by itself lowers its rank. */
  lemma OwnStepSettles(s: State, a: Action)
    requires Inv(s) && Enabled(s, a) && a.Step? && !Apply(s, a).aborted
    ensures Rank(Apply(s, a), a.id) < Rank(s, a.id)
  {
    var t, e := Apply(s, a), EffectOf(s, a);
    assert PlacedNow(s, a.id);
    if WaitsForLock(s.procs[a.id]) { MutexSettles(s, a); }
    MutexRank(t.m, a.id);
    StepSettles(s, a.id, s.procs[a.id], a.late, M.Rank(t.m, a.id));
    EventFollows(s.ev, a.id, e.op);
    ApplyMoves(s, a, a.id);
  }

  lemma CanOnlyStepBelow(s: State, a: Action)
    requires Inv(s) && Enabled(s, a) && a.Step?
    ensures 0 < Rank(s, a.id) <= 30
  {
    assert PlacedNow(s, a.id);
    MutexRank(s.m, a.id);
  }

  lemma {:induction false} SoloSteps(s: State, acts: seq<Action>, id: Id)
    requires Inv(s) && CanRun(s, acts) && forall i :: 0 <= i < |acts| ==> acts[i].Step? && acts[i].id == id
    ensures |acts| <= Rank(s, id)
    decreases acts
  {
    if acts != [] {
      var t := Apply(s, acts[0]);
      assert acts[0].Step? && acts[0].id == id;
      CanOnlyStepBelow(s, acts[0]);
      ApplyKeepsInv(s, acts[0]);
      SoloSteps(t, acts[1..], id);
      if !t.aborted { OwnStepSettles(s, acts[0]); }
      assert CanRun(t, acts[1..]) && t.aborted ==> acts[1..] == [];
    }
  }

  /** From every reachable state a `wait` that nobody interferes with makes at most 30 atomic steps, on the
      barrier and its mutex together: then it has returned or waits for a notification, or the process
      ended. */
  lemma SoloPollEnds(n: nat, before: seq<Action>, acts: seq<Action>, id: Id)
    requires CanRun(Initial(n), before) && CanRun(Run(Initial(n), before), acts)
    requires forall i :: 0 <= i < |acts| ==> acts[i].Step? && acts[i].id == id
    ensures |acts| <= 30
  {
    InitialInv(n);
    RunKeepsInv(Initial(n), before);
    SoloSteps(Run(Initial(n), before), acts, id);
    if acts != [] { CanOnlyStepBelow(Run(Initial(n), before), acts[0]); }
  }
}
