// Owned guards in the form the program has them: the lock behind an `Arc`, whose count, guards and
// `UpgradeArc` futures the methods change in place.  Between two atomic operations the other threads may
// do anything the machine of `ArcModel` allows; `trace` records the operations.
module ArcObject {
  import opened Counting
  import opened Events
  import opened ArcModel
  import opened ArcTheorems
  import opened RwLockEffects
  import RI = RwLockInvariants
  import RT = RwLockTheorems
  import R = RwLockModel
  import M = MutexModel

  predicate By(act: Action, id: Id) {
    match act
    case Raw(a) => a.id == id
    case CloneInto(g) => g == id
    case DropArc(x) => x == id
    case _ => false
  }

  /** What other threads cannot change about the record `id`. */
  ghost predicate Untouched(s: State, t: State, id: Id) {
    && At(t.raw.procs, id) == At(s.raw.procs, id)
    && id in s.recs && id in t.recs && t.recs[id] == s.recs[id]
    && t.raw.aborted == s.raw.aborted
  }

  lemma OthersLeave(s: State, act: Action, id: Id)
    requires Inv(s) && Enabled(s, act) && !By(act, id) && id in s.recs && !Apply(s, act).raw.aborted
    ensures Untouched(s, Apply(s, act), id)
  {
    if act.Raw? { Moves(s.raw, act.a, id); }
  }

  lemma {:induction false} RunThen(s: State, acts: seq<Action>, act: Action)
    requires CanRun(s, acts) && Enabled(Run(s, acts), act)
    ensures CanRun(s, acts + [act]) && Run(s, acts + [act]) == Apply(Run(s, acts), act)
    decreases acts
  {
    if acts == [] {
      assert [act][1..] == [];
    } else {
      assert (acts + [act])[1..] == acts[1..] + [act];
      RunThen(Apply(s, acts[0]), acts[1..], act);
    }
  }

  /** Unlocks and downgrades never wait, and end as they should. */
  lemma ReleaseGoesOn(s: R.State, a: R.Action)
    requires RI.Inv(s) && !s.aborted && a.Step? && a.id in s.procs && s.procs[a.id].Releasing? && a.gid !in s.procs
    ensures R.Enabled(s, a) && !R.EffectOf(s, a).next.Complete? && !R.EffectOf(s, a).next.Halt?
    ensures
      var next := R.EffectOf(s, a).next;
      if Ending(s.procs[a.id]) then next.Gone? || (next.Goto? && Ending(next.pc))
      else next == R.Goto(R.Held(R.ReadGuard)) || (next.Goto? && next.pc.Releasing? && !Ending(next.pc))
  {
    RT.LockReady(s, a.id, s.procs[a.id]);
    ReleaseLeads(s, a.id, s.procs[a.id].x);
  }

  predicate Harmless(m: M.State, ma: M.Action) {
    ma.Unlock? || ma.UnlockNotify? || (ma.Step? && ma.id in m.ops && m.ops[ma.id].Closing?)
  }

  lemma HarmlessDoesNotAbort(m: M.State, ma: M.Action)
    requires M.Enabled(m, ma) && Harmless(m, ma)
    ensures !M.Apply(m, ma).aborted
  {
  }

  lemma ReleaseIsHarmless(s: R.State, id: Id, x: R.Release)
    requires At(s.procs, id) == Some(R.Releasing(x)) && PlacedNow(s, id)
    ensures var e := R.ReleaseEffect(s, id, x); e.lock.Some? ==> Harmless(s.m, e.lock.value)
  {
  }

  lemma ReleaseDoesNotAbort(s: R.State, a: R.Action)
    requires RI.Inv(s) && a.Step? && a.id in s.procs && s.procs[a.id].Releasing? && R.Enabled(s, a)
    requires !R.EffectOf(s, a).next.Halt? && !s.m.aborted
    ensures !R.Apply(s, a).aborted
  {
    assert PlacedNow(s, a.id);
    var e := R.EffectOf(s, a);
    ReleaseIsHarmless(s, a.id, s.procs[a.id].x);
    assert e == R.ReleaseEffect(s, a.id, s.procs[a.id].x);
    if e.lock.Some? { HarmlessDoesNotAbort(s.m, e.lock.value); }
  }

  /** Where the thread goes when the raw call that it makes in stage `st` returns. */
  function Returned(st: Stage): Stage {
    if st.Downgrading? then Live else DropField
  }

  predicate InCall(st: Stage) {
    st.Dropping? || st.Cancelling? || st.Downgrading?
  }

  class ArcRwLock {
    var raw: R.State
    var strong: int          // the strong count
    var handles: nat         // `Arc` values in the user's hands
    var recs: map<Id, Rec>   // owned guards and `UpgradeArc` futures
    const initial: int
    ghost var trace: seq<Action>

    function View(): State
      reads this
    {
      State(raw, strong, handles, recs)
    }

    ghost predicate Valid()
      reads this
    {
      CanRun(Initial(initial), trace) && View() == Run(Initial(initial), trace)
    }

    constructor (value: int)
      ensures Valid() && View() == Initial(value) && trace == [] && initial == value
    {
      raw, strong, handles, recs := R.Initial(value), 1, 1, map[];
      initial := value;
      trace := [];
    }

    lemma Sound()
      requires Valid()
      ensures Inv(View())
    {
      InitialInv(initial);
      RunKeepsInv(Initial(initial), trace);
    }

    /** The count is the handles and what the raw lock and the unfinished drops account for. */
    ghost predicate Counted()
      reads this
    {
      strong == handles + |References(View())|
    }

    lemma AlwaysCounted()
      requires Valid()
      ensures Counted()
    {
      Sound();
      ReferencesHoldArcs(View());
    }

    twostate predicate Did(act: Action)
      reads this
    {
      Valid() && Enabled(old(View()), act) && View() == Apply(old(View()), act) && trace == old(trace) + [act]
    }

    /** The record `id` is in the stage `st` and has its `Arc`. */
    ghost predicate Holds(id: Id, st: Stage)
      reads this
    {
      Valid() && !raw.aborted && id in recs && recs[id] == Rec(st, true)
    }

    /** A live owned guard. */
    ghost predicate Owned(id: Id, g: R.Guard)
      reads this
    {
      Holds(id, Live) && At(raw.procs, id) == Some(R.Held(g))
    }

    method Fresh() returns (g: Id)
      ensures g !in raw.procs && g !in recs
    {
      g := 0;
      ghost var above := raw.procs.Keys + recs.Keys;
      while g in raw.procs || g in recs
        invariant forall x :: (x in raw.procs || x in recs) && g <= x ==> x in above
        decreases above
      {
        above := above - {g};
        g := g + 1;
      }
    }

    method Next(id: Id) returns (a: R.Action)
      ensures a.Step? && a.id == id && a.gid !in raw.procs && a.gid !in recs
    {
      var g := Fresh();
      var late: bool := *;
      return R.Step(id, late, g);
    }

    /** One atomic operation, on the raw lock or on the count. */
    method Do(act: Action)
      requires Valid() && Enabled(View(), act)
      modifies this
      ensures Did(act)
    {
      RunThen(Initial(initial), trace, act);
      match act {
        case Raw(a) =>
          recs := RecsAfter(View(), a);
          raw := R.Apply(raw, a);
        case CloneHandle => strong, handles := strong + 1, handles + 1;
        case DropHandle => strong, handles := strong - 1, handles - 1;
        case CloneInto(g) => strong, recs := strong + 1, recs[g := Rec(Live, true)];
        case DropArc(id) => strong, recs := strong - 1, recs - {id};
      }
      trace := trace + [act];
    }

    /** Any number of atomic operations of other threads; none of them ends the process. */
    method Yield(id: Id)
      requires Valid() && id in recs
      modifies this
      ensures Valid() && old(trace) <= trace && Untouched(old(View()), View(), id)
    {
      var acts: seq<Action> := *;
      for i := 0 to |acts|
        invariant Valid() && old(trace) <= trace && Untouched(old(View()), View(), id)
      {
        if Enabled(View(), acts[i]) && !By(acts[i], id) && !Apply(View(), acts[i]).raw.aborted {
          Sound();
          OthersLeave(View(), acts[i], id);
          Do(acts[i]);
        }
      }
    }

    // ----- handles -----

    method CloneArc()
      requires Valid() && handles > 0
      modifies this
      ensures Did(CloneHandle) && strong == old(strong) + 1
    {
      Do(CloneHandle);
    }

    /** Drops a handle that no borrowing guard or future needs any more; with the last reference gone
        the raw lock is free. */
    method DropOneHandle() returns (freed: bool)
      requires Valid() && Enabled(View(), DropHandle)
      modifies this
      ensures Did(DropHandle) && strong == old(strong) - 1 && (freed <==> strong == 0)
      ensures freed ==> raw.word == 0 && raw.m.word == 0 && raw.m.ops == map[]
    {
      Do(DropHandle);
      freed := strong == 0;
      Sound();
      if freed { FreedLockIsReleased(View()); }
    }

    // ----- owned guards -----

    /** `from_arc(lock.clone())`: the guard `g`, acquired through a borrowed handle, gets a reference of
        its own. */
    method FromArc(g: Id)
      requires Valid() && !raw.aborted && g in raw.procs && raw.procs[g].Held? && g !in recs
      modifies this
      ensures Did(CloneInto(g)) && strong == old(strong) + 1 && raw == old(raw)
      ensures Owned(g, raw.procs[g].g) && Counted()
    {
      Sound();
      assert Borrows(View(), g);
      Do(CloneInto(g));
      AlwaysCounted();
    }

    lemma CallGoesOn(id: Id, st: Stage, a: R.Action)
      requires Holds(id, st) && InCall(st) && a.Step? && a.id == id && a.gid !in raw.procs && a.gid !in recs
      ensures Enabled(View(), Raw(a)) && !R.Apply(raw, a).aborted
      ensures
        var after := RecsAfter(View(), a);
        && id in after && after[id].arc && (after[id].stage == st || after[id].stage == Returned(st))
        && (st.Downgrading? && after[id].stage.Live? ==> At(R.Apply(raw, a).procs, id) == Some(R.Held(R.ReadGuard)))
    {
      Sound();
      assert Agrees(recs[id], At(raw.procs, id));
      ReleaseGoesOn(raw, a);
      ReleaseDoesNotAbort(raw, a);
      Moves(raw, a, id);
    }

    /** Goes on with the raw call until it returns; the thread may be stopped after `turns` steps. */
    method Finish(id: Id, ghost st: Stage, turns: nat) returns (returned: bool)
      requires InCall(st)
      requires Holds(id, st) || Holds(id, Returned(st))
      requires st.Downgrading? ==> Holds(id, st)
      modifies this
      ensures old(trace) <= trace
      ensures Holds(id, if returned then Returned(st) else st)
      ensures returned && st.Downgrading? ==> Owned(id, R.ReadGuard)
      ensures !returned ==> |trace| >= |old(trace)| + turns
    {
      var left := turns;
      while InCall(recs[id].stage)
        invariant Holds(id, st) || Holds(id, Returned(st))
        invariant old(trace) <= trace && |trace| + left >= |old(trace)| + turns
        invariant st.Downgrading? && Holds(id, Live) ==> Owned(id, R.ReadGuard)
        decreases left
      {
        if left == 0 { return false; }
        left := left - 1;
        Yield(id);
        var a := Next(id);
        CallGoesOn(id, st, a);
        Do(Raw(a));
      }
      return true;
    }

    /** Drops the `Arc` field of a record whose raw call returned: the raw lock was left before, and the
        last reference leaves a free lock. */
    method DropField(id: Id) returns (freed: bool)
      requires Holds(id, Stage.DropField)
      modifies this
      ensures Valid() && id !in recs && id !in raw.procs && id !in raw.m.ops
      ensures old(trace) < trace && trace[|trace| - 1] == DropArc(id)
      ensures Counted() && (freed <==> strong == 0)
      ensures freed ==> raw.word == 0 && raw.m.word == 0 && raw.m.ops == map[]
    {
      Yield(id);
      Sound();
      ReleasedBeforeDropped(View(), id);
      Do(DropArc(id));
      freed := strong == 0;
      AlwaysCounted();
      Sound();
      if freed { FreedLockIsReleased(View()); }
    }

    lemma DropLeads(id: Id, g: R.Guard)
      requires Owned(id, g)
      ensures Enabled(View(), Raw(R.DropGuard(id))) && !R.Apply(raw, R.DropGuard(id)).aborted
      ensures
        var after := RecsAfter(View(), R.DropGuard(id));
        id in after && after[id].arc && (after[id].stage.Dropping? || after[id].stage.DropField?)
    {
      Sound();
    }

    /** Drops an owned guard: unlocks first, then lets go of the reference. */
    method DropGuardArc(id: Id, ghost g: R.Guard, turns: nat) returns (dropped: bool)
      requires Owned(id, g)
      modifies this
      ensures Valid() && Counted() && old(trace) + [Raw(R.DropGuard(id))] <= trace
      ensures dropped ==> id !in recs && id !in raw.procs && trace[|trace| - 1] == DropArc(id)
      ensures !dropped ==> Holds(id, Dropping) && |trace| > |old(trace)| + turns
    {
      DropLeads(id, g);
      Do(Raw(R.DropGuard(id)));
      dropped := Finish(id, Dropping, turns);
      if dropped { var freed := DropField(id); }
      AlwaysCounted();
    }

    lemma ConversionLeads(id: Id, c: R.Conversion)
      requires Owned(id, R.Before(c)) && !c.Upgrade?
      ensures Enabled(View(), Raw(R.Convert(id, c))) && !R.Apply(raw, R.Convert(id, c)).aborted
      ensures
        var t := R.Apply(raw, R.Convert(id, c));
        && RecsAfter(View(), R.Convert(id, c)) ==
            recs[id := Rec(if c.TryUpgrade? || c.DowngradeToUpgradable? then Live else Downgrading, true)]
        && (c.TryUpgrade? ==>
              At(t.procs, id) == Some(R.Held(if raw.word == 2 then R.WriteGuard else R.UpgradableGuard)))
        && (c.DowngradeToUpgradable? ==> At(t.procs, id) == Some(R.Held(R.UpgradableGuard)))
    {
      Sound();
      assert PlacedNow(raw, id);
      RecountGone(raw.procs, id, R.HoldsMutex);
    }

    /** The downgrades and `try_upgrade`: the reference moves into the guard that takes the old one's
        place; the count is not touched for it. */
    method ConvertGuard(id: Id, c: R.Conversion, turns: nat) returns (done: bool)
      requires Owned(id, R.Before(c)) && !c.Upgrade?
      modifies this
      ensures Counted() && old(trace) + [Raw(R.Convert(id, c))] <= trace
      ensures c.TryUpgrade? ==> done && Owned(id, if old(raw).word == 2 then R.WriteGuard else R.UpgradableGuard)
      ensures c.DowngradeToUpgradable? ==> done && Owned(id, R.UpgradableGuard)
      ensures c.TryUpgrade? || c.DowngradeToUpgradable? ==> strong == old(strong)
      ensures done && (c.DowngradeUpgradable? || c.DowngradeWrite?) ==> Owned(id, R.ReadGuard)
      ensures !done ==> Holds(id, Downgrading) && |trace| > |old(trace)| + turns
    {
      ConversionLeads(id, c);
      Do(Raw(R.Convert(id, c)));
      done := true;
      if c.DowngradeUpgradable? || c.DowngradeWrite? { done := Finish(id, Downgrading, turns); }
      AlwaysCounted();
    }
  }

  datatype Poll = Ready(guard: Id) | Pending | Preempted

  /** The future of `upgrade` on an owned guard. */
  class UpgradeArc {
    const lock: ArcRwLock
    const id: Id
    var arc: bool        // the `Arc` in `ManuallyDrop` was not taken out

    /** `is_ready` of the raw future. */
    predicate RawIsReady()
      reads lock
    {
      id in lock.raw.procs && lock.raw.procs[id] == R.Finished(R.UpgradeFuture)
    }

    ghost predicate Valid()
      reads this, lock
    {
      && lock.Valid() && !lock.raw.aborted
      && id in lock.recs && lock.recs[id].arc == arc
      && if RawIsReady() then lock.recs[id].stage.Completed?
         else lock.recs[id].stage.Polling?
              && (At(lock.raw.procs, id) == Some(R.Raising(R.PNew))
                  || At(lock.raw.procs, id) == Some(R.Raising(R.PWait)))
    }

    /** The guard's reference moves into the future; the count is not touched. */
    constructor (l: ArcRwLock, id: Id)
      requires l.Owned(id, R.UpgradableGuard)
      modifies l
      ensures Valid() && arc && lock == l && this.id == id
      ensures l.strong == old(l.strong) && l.handles == old(l.handles) && l.Counted()
      ensures l.trace == old(l.trace) + [Raw(R.Convert(id, R.Upgrade))]
    {
      lock, this.id, arc := l, id, true;
      new;
      l.Sound();
      l.Do(Raw(R.Convert(id, R.Upgrade)));
      l.AlwaysCounted();
    }

    /** After the first `k` recorded operations readers were left. */
    ghost predicate ReadersAfter(k: nat)
      reads lock
    {
      && k <= |lock.trace| && CanRun(Initial(lock.initial), lock.trace[..k])
      && Run(Initial(lock.initial), lock.trace[..k]).raw.word != 1
    }

    /** The future goes to wait, or to register for it. */
    predicate GoesToWait()
      reads lock
      requires id in lock.raw.procs
    {
      lock.raw.procs[id] == R.Raising(R.PWait) || lock.raw.procs[id] == R.Raising(R.PListen)
    }

    ghost predicate Looping()
      reads this, lock
    {
      lock.Holds(id, Polling) && arc && id in lock.raw.procs && lock.raw.procs[id].Raising?
    }

    lemma UpgradeLeads(s: R.State, p: R.Upgrader)
      ensures
        var e := R.UpgradeEffect(s, id, p);
        e.lock.None? && (e.next == R.Complete(R.UpgradeFuture, R.WriteGuard) || (e.next.Goto? && e.next.pc.Raising?))
    {
    }

    lemma StepLeads(a: R.Action)
      requires Looping() && R.Runnable(lock.raw, id) && a.Step? && a.id == id && a.gid !in lock.raw.procs
               && a.gid !in lock.recs
      ensures Enabled(lock.View(), Raw(a)) && !R.Apply(lock.raw, a).aborted
      ensures
        var t := R.Apply(lock.raw, a);
        && id in t.procs
        && if R.EffectOf(lock.raw, a).next.Complete?
           then t.procs[id] == R.Finished(R.UpgradeFuture) && At(t.procs, a.gid) == Some(R.Held(R.WriteGuard))
           else t.procs[id].Raising?
    {
      lock.Sound();
      UpgradeLeads(lock.raw, lock.raw.procs[id].p);
    }

    /** One step of the raw future; after the last one the `Arc` is taken out for the guard `g`. */
    method Advance() returns (completed: bool, g: Id)
      requires Looping() && R.Runnable(lock.raw, id)
      modifies this, lock
      ensures old(lock.trace) < lock.trace && lock.strong == old(lock.strong)
      ensures completed ==> Valid() && !arc && RawIsReady() && lock.Owned(g, R.WriteGuard) && lock.raw.word == 1
      ensures !completed ==> Looping()
      ensures !completed && GoesToWait() ==> old(lock.raw).word != 1
    {
      var a := lock.Next(id);
      g := a.gid;
      StepLeads(a);
      lock.Do(Raw(a));
      completed := RawIsReady();
      if completed { arc := false; }
      lock.Sound();
    }

    method Poll(turns: nat) returns (outcome: Poll)
      requires Valid() && !RawIsReady()
      modifies this, lock
      ensures lock.Valid() && old(lock.trace) <= lock.trace && lock.Counted()
      ensures outcome.Ready? ==> Valid() && !arc && lock.Owned(outcome.guard, R.WriteGuard) && lock.raw.word == 1
      ensures outcome.Pending? ==> Valid() && arc
      ensures outcome.Pending? ==> id in lock.raw.noReaders.waiting && id !in lock.raw.noReaders.notified
      ensures outcome.Pending? && lock.raw.word == 1 ==> RI.WriterWakeup(lock.raw)
      ensures outcome.Preempted? ==> |lock.trace| >= |old(lock.trace)| + turns
      ensures outcome.Pending? ==> exists k :: |old(lock.trace)| <= k && ReadersAfter(k)
    {
      var left := turns;
      ArcIsThere();
      if lock.raw.procs[id] == R.Raising(R.PWait) { LookAgain(); }
      ghost var k := 0;
      while true
        invariant Looping() && old(lock.trace) <= lock.trace
        invariant GoesToWait() ==> |old(lock.trace)| <= k && ReadersAfter(k)
        invariant |lock.trace| + left >= |old(lock.trace)| + turns
        decreases left
      {
        lock.AlwaysCounted();
        if left == 0 { return Preempted; }
        left := left - 1;
        if !R.Runnable(lock.raw, id) { ParkedIsWoken(); return Pending; }
        ghost var log := lock.trace;
        assert log[..|log|] == log;
        var completed, g := Advance();
        if completed { lock.AlwaysCounted(); return Ready(g); }
        k := |log|;
        assert lock.trace[..k] == log;
        lock.Yield(id);
        assert lock.trace[..k] == log;
      }
    }

    lemma ParkedIsWoken()
      requires Looping() && !R.Runnable(lock.raw, id)
      ensures id in lock.raw.noReaders.waiting && id !in lock.raw.noReaders.notified
      ensures lock.raw.word == 1 ==> RI.WriterWakeup(lock.raw)
    {
      lock.Sound();
      assert PlacedNow(lock.raw, id);
    }

    lemma ArcIsThere()
      requires Valid()
      ensures arc <==> !RawIsReady()
    {
      lock.Sound();
      assert Agrees(lock.recs[id], At(lock.raw.procs, id));
    }

    method LookAgain()
      requires Looping() && lock.raw.procs[id] == R.Raising(R.PWait)
      modifies lock
      ensures Looping() && old(lock.trace) <= lock.trace
      ensures lock.raw.procs[id] == R.Raising(R.PCheck)
    {
      lock.Sound();
      lock.Do(Raw(R.Repoll(id)));
    }

    /** Drops the future: the raw future first, which unlocks if it was not ready, and after it the `Arc`
        if and only if the raw future was not ready; then, and only then, it is still there. */
    method Drop(turns: nat) returns (dropped: bool)
      requires Valid()
      modifies this, lock
      ensures lock.Valid() && lock.Counted() && old(lock.trace) + [Raw(R.DropFuture(id))] <= lock.trace
      ensures dropped ==> id !in lock.raw.procs && id !in lock.recs
      ensures !dropped ==> lock.Holds(id, Cancelling) && |lock.trace| > |old(lock.trace)| + turns
      ensures old(RawIsReady()) ==> dropped && lock.strong == old(lock.strong) && !old(arc)
      ensures !old(RawIsReady()) && dropped ==> old(arc) && lock.trace[|lock.trace| - 1] == DropArc(id)
    {
      var isReady := RawIsReady();
      ArcIsThere();
      DropLeads();
      lock.Do(Raw(R.DropFuture(id)));
      dropped := true;
      if !isReady {
        dropped := lock.Finish(id, Cancelling, turns);
        if dropped {
          var freed := lock.DropField(id);
          arc := false;
        }
      }
      lock.AlwaysCounted();
    }

    lemma DropLeads()
      requires Valid()
      ensures Enabled(lock.View(), Raw(R.DropFuture(id))) && !R.Apply(lock.raw, R.DropFuture(id)).aborted
      ensures
        var after := RecsAfter(lock.View(), R.DropFuture(id));
        if RawIsReady() then id !in after && id !in R.Apply(lock.raw, R.DropFuture(id)).procs
        else id in after && after[id] == Rec(Cancelling, arc)
    {
      lock.Sound();
    }
  }
}
