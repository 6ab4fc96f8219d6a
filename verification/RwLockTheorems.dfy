// What the invariants of the raw reader-writer lock say about whole runs.
module RwLockTheorems {
  import opened Counting
  import opened Events
  import opened RwLockModel
  import opened RwLockEffects
  import opened RwLockInvariants
  import M = MutexModel

  predicate CanRun(s: State, acts: seq<Action>)
    decreases acts
  {
    acts == [] || (Enabled(s, acts[0]) && CanRun(Apply(s, acts[0]), acts[1..]))
  }

  function Run(s: State, acts: seq<Action>): State
    requires CanRun(s, acts)
    decreases acts
  {
    if acts == [] then s else Run(Apply(s, acts[0]), acts[1..])
  }

  lemma InitialInv(value: int)
    ensures Inv(Initial(value))
  {
    var s := Initial(value);
    forall id ensures PlacedNow(s, id) {}
  }

  lemma {:induction false} RunKeepsInv(s: State, acts: seq<Action>)
    requires Inv(s) && CanRun(s, acts)
    ensures Inv(Run(s, acts))
    decreases acts
  {
    if acts != [] {
      ApplyKeepsInv(s, acts[0]);
      RunKeepsInv(Apply(s, acts[0]), acts[1..]);
    }
  }

  ghost predicate Reachable(s: State) {
    exists value: int, acts: seq<Action> :: CanRun(Initial(value), acts) && Run(Initial(value), acts) == s
  }

  lemma ReachableInv(s: State)
    requires Reachable(s)
    ensures Inv(s)
  {
    var value: int, acts: seq<Action> :| CanRun(Initial(value), acts) && Run(Initial(value), acts) == s;
    InitialInv(value);
    RunKeepsInv(Initial(value), acts);
  }

  lemma {:induction false} RunThen(s: State, acts: seq<Action>, a: Action)
    requires CanRun(s, acts) && Enabled(Run(s, acts), a)
    ensures CanRun(s, acts + [a]) && Run(s, acts + [a]) == Apply(Run(s, acts), a)
    decreases acts
  {
    if acts == [] {
      assert [a][1..] == [];
    } else {
      assert (acts + [a])[1..] == acts[1..] + [a];
      RunThen(Apply(s, acts[0]), acts[1..], a);
    }
  }

  lemma ReachableStep(s: State, a: Action)
    requires Reachable(s) && Enabled(s, a)
    ensures Reachable(Apply(s, a))
  {
    var value: int, acts: seq<Action> :| CanRun(Initial(value), acts) && Run(Initial(value), acts) == s;
    RunThen(Initial(value), acts, a);
  }

  // ----- deadlock freedom of the composition -----

  /** Nothing can step, no guard is live and no completed future is left undropped. */
  ghost predicate Quiescent(s: State) {
    && !s.aborted
    && (forall id :: id in s.procs ==> !s.procs[id].Held? && !s.procs[id].Finished?)
    && (forall id, late, gid :: !Enabled(s, Step(id, late, gid)))
  }

  predicate WaitsForLock(pc: Pc) {
    pc == Upgrading(ULock) || pc == Writing(WLock)
  }

  /** Outside its own wait for the inner mutex an operation never finds that mutex unready. */
  lemma LockReady(s: State, id: Id, pc: Pc)
    requires Inv(s) && !s.aborted && At(s.procs, id) == Some(pc) && !pc.Held? && !pc.Finished? && !WaitsForLock(pc)
    ensures var e := StepEffect(s, id, pc, false); e.lock.Some? ==> M.Enabled(s.m, e.lock.value)
  {
    assert PlacedNow(s, id);
    LockNeeds(s, id, pc);
    if HoldsMutex(pc) {
      RecountGone(s.procs, id, HoldsMutex);
    }
  }

  /** What an operation needs for its use of the inner mutex. */
  lemma LockNeeds(s: State, id: Id, pc: Pc)
    requires !pc.Held? && !pc.Finished? && !WaitsForLock(pc)
    ensures
      var e := StepEffect(s, id, pc, false);
      e.lock.Some? ==>
        match e.lock.value
        case Unlock(x) => x == id && HoldsMutex(pc)
        case UnlockNotify(x) => x == id && ReleasesMutex(pc)
        case DropFuture(x) => x == id && LockPhase(Some(pc)).Acquired?
        case Step(x, _) => x == id && LockPhase(Some(pc)).Leaving?
        case _ => false
  {
  }

  predicate Unwoken(e: Event, id: Id) {
    id in e.waiting && id !in e.notified
  }

  predicate Parked(s: State, id: Id) {
    && id in s.procs
    && match s.procs[id]
       case Reading(r) => r.RWait? && Unwoken(s.noWriter, id)
       case Upgrading(u) => u.ULock? && !M.CanStep(s.m, id)
       case Writing(w) => (w.WLock? && !M.CanStep(s.m, id)) || (w.WWait? && Unwoken(s.noReaders, id))
       case Raising(p) => p.PWait? && Unwoken(s.noReaders, id)
       case _ => false
  }

  lemma OnlyParkedLeft(s: State, id: Id)
    requires Inv(s) && Quiescent(s) && id in s.procs
    ensures Parked(s, id)
  {
    var pc := s.procs[id];
    var g := FreshName(s.procs.Keys);
    assert PlacedNow(s, id);
    assert !Enabled(s, Step(id, false, g));
    if !WaitsForLock(pc) {
      LockReady(s, id, pc);
      assert !Runnable(s, id);
    }
  }

  /** In a quiescent state the inner mutex is free. */
  lemma NobodyHolds(s: State)
    requires Inv(s) && Quiescent(s)
    ensures Holders(s.procs) == {} && Owners(s.procs) == {} && s.word == 0
  {
    forall id | id in s.procs ensures Parked(s, id) { OnlyParkedLeft(s, id); }
    assert Sharers(s.procs) == {};
    NoWakeupLeft(s);
    forall x ensures x !in Holders(s.procs) { HolderWouldWake(s, x); }
    assert Owners(s.procs) <= Holders(s.procs);
  }

  /** A holder that is parked is the bit owner, and then the word is 1. */
  lemma HolderWouldWake(s: State, x: Id)
    requires Inv(s) && Sharers(s.procs) == {}
    requires forall id :: id in s.procs ==> Parked(s, id)
    ensures x in Holders(s.procs) ==> WriterWakeup(s)
  {
    if x in Holders(s.procs) {
      forall y | y in Owners(s.procs) ensures y == x { OneHolder(s, x, y); }
      assert x in Owners(s.procs);
      assert Owners(s.procs) == {x};
    }
  }

  /** Whoever was notified is one of the operations that can have a listener. */
  lemma NotifiedArePlaced(s: State)
    requires Places(s)
    ensures s.noReaders.notified != [] ==>
              exists y :: y in s.noReaders.notified && y in s.procs && ReadersSeat(Some(s.procs[y]), true)
    ensures s.noWriter.notified != [] ==>
              exists y :: y in s.noWriter.notified && y in s.procs && WritersSeat(Some(s.procs[y]), true)
  {
    if s.noReaders.notified != [] {
      var y := s.noReaders.notified[0];
      assert y in s.noReaders.notified && PlacedNow(s, y);
    }
    if s.noWriter.notified != [] {
      var y := s.noWriter.notified[0];
      assert y in s.noWriter.notified && PlacedNow(s, y);
    }
  }

  lemma NoWakeupLeft(s: State)
    requires Inv(s) && forall id :: id in s.procs ==> Parked(s, id)
    ensures !WriterWakeup(s) && !ReaderInTransit(s)
  {
    NotifiedArePlaced(s);
  }

  /** With its guards gone, the inner mutex has nobody left waiting either. */
  lemma NobodyWaitsForLock(s: State)
    requires Inv(s) && Quiescent(s)
    ensures s.m.ops == map[]
  {
    NobodyHolds(s);
    forall id ensures id !in s.m.releasing && (id in s.m.ops ==> s.m.ops[id] != M.Done && !M.CanStep(s.m, id)) {
      assert PlacedNow(s, id);
      if id in s.procs { OnlyParkedLeft(s, id); }
    }
    M.NothingStranded(s.m);
  }

  /** When nothing moves any more, only readers can still be pending. */
  lemma QuiescentIsEmpty(s: State)
    requires Inv(s) && Quiescent(s)
    ensures forall id :: id in s.procs ==> s.procs[id] == Reading(RWait) && UnwokenReader(s, id)
    ensures !ReaderInTransit(s)
  {
    NobodyHolds(s);
    NobodyWaitsForLock(s);
    forall id | id in s.procs ensures s.procs[id] == Reading(RWait) && UnwokenReader(s, id) {
      OnlyParkedLeft(s, id);
      assert PlacedNow(s, id);
      assert id !in Holders(s.procs);
    }
    forall y | y in s.procs ensures Parked(s, y) { OnlyParkedLeft(s, y); }
    NoWakeupLeft(s);
  }

  // ----- the one step that loses a reader's wake-up -----

  /** The conversion is called while a reader is parked and nobody is about to wake it. */
  ghost predicate StrandsReaders(s: State, a: Action) {
    && a.Convert? && a.conversion.DowngradeToUpgradable?
    && !ReaderInTransit(s)
    && exists x :: UnwokenReader(s, x)
  }

  /** Every other step that clears the bit owes `no_writer` a notification. */
  lemma ClearsBitLoudly(s: State, a: Action)
    requires Allowed(s, a) && Trusts(s, a.id) && !(a.Convert? && a.conversion.DowngradeToUpgradable?)
    requires s.word % 2 == 1 && EffectOf(s, a).word % 2 == 0
    ensures OwesWriters(Fate(At(s.procs, a.id), EffectOf(s, a).next))
  {
  }

  lemma StaysCovered(s: State, a: Action)
    requires Inv(s) && ReadersCovered(s) && Enabled(s, a) && !StrandsReaders(s, a)
    ensures ReadersCovered(Apply(s, a))
  {
    Trusted(s, a.id);
    EffectLawful(s, a);
    OnlyFuturesComplete(s, a);
    SilentIsTheConversion(s, a);
    StepReadersCovered(s, Apply(s, a), a.id, if a.Step? then a.gid else a.id, EffectOf(s, a));
  }

  lemma SilentIsTheConversion(s: State, a: Action)
    requires Allowed(s, a)
    ensures DowngradesSilently(At(s.procs, a.id), EffectOf(s, a)) <==> a.Convert? && a.conversion.DowngradeToUpgradable?
  {
  }

  lemma StrandingUncovers(s: State, a: Action)
    requires Inv(s) && Enabled(s, a) && StrandsReaders(s, a)
    ensures !ReadersCovered(Apply(s, a))
  {
    var t := Apply(s, a);
    assert At(s.procs, a.id) == Some(Held(WriteGuard));
    var x :| UnwokenReader(s, x);
    assert t.word == 2 && UnwokenReader(t, x);
    assert forall w :: OwesWriters(At(t.procs, w)) ==> OwesWriters(At(s.procs, w));
  }

  /** Exactly one kind of step loses a reader's wake-up: `downgrade_to_upgradable` called while a reader
      is parked with no notification on its way. */
  lemma ReadersCoveredIff(s: State, a: Action)
    requires Inv(s) && ReadersCovered(s) && Enabled(s, a)
    ensures ReadersCovered(Apply(s, a)) <==> !StrandsReaders(s, a)
  {
    if StrandsReaders(s, a) { StrandingUncovers(s, a); } else { StaysCovered(s, a); }
  }

  /** No step of the run is of that kind; the conversion itself may occur any number of times. */
  ghost predicate NeverStrands(s: State, acts: seq<Action>)
    requires CanRun(s, acts)
    decreases acts
  {
    acts != [] ==> !StrandsReaders(s, acts[0]) && NeverStrands(Apply(s, acts[0]), acts[1..])
  }

  lemma {:induction false} RunCoversReaders(s: State, acts: seq<Action>)
    requires Inv(s) && ReadersCovered(s) && CanRun(s, acts) && NeverStrands(s, acts)
    ensures ReadersCovered(Run(s, acts))
    decreases acts
  {
    if acts != [] {
      ReadersCoveredIff(s, acts[0]);
      ApplyKeepsInv(s, acts[0]);
      RunCoversReaders(Apply(s, acts[0]), acts[1..]);
    }
  }

  /** A state where nothing can move has pending readers exactly if some reader is not covered. */
  lemma QuiescentIff(s: State)
    requires Inv(s) && Quiescent(s)
    ensures s.procs == map[] <==> ReadersCovered(s)
  {
    NobodyHolds(s);
    QuiescentIsEmpty(s);
    if s.procs != map[] {
      var id :| id in s.procs;
      assert s.word % 2 == 0 && UnwokenReader(s, id);
    }
  }

  /** In every run whose downgrades to upgradable strand no reader, under any cancellation: a state where
      nothing can step, no guard lives and no completed future is kept has no pending operation at all. */
  lemma DeadlockFreedom(value: int, acts: seq<Action>)
    requires CanRun(Initial(value), acts) && NeverStrands(Initial(value), acts)
    requires Quiescent(Run(Initial(value), acts))
    ensures Run(Initial(value), acts).procs == map[]
  {
    InitialInv(value);
    RunKeepsInv(Initial(value), acts);
    RunCoversReaders(Initial(value), acts);
    QuiescentIff(Run(Initial(value), acts));
  }

  predicate NoSilentDowngrade(acts: seq<Action>) {
    forall i :: 0 <= i < |acts| ==> !(acts[i].Convert? && acts[i].conversion.DowngradeToUpgradable?)
  }

  /** In particular a run without the conversion strands nobody. */
  lemma {:induction false} NoDowngradeNeverStrands(s: State, acts: seq<Action>)
    requires CanRun(s, acts) && NoSilentDowngrade(acts)
    ensures NeverStrands(s, acts)
    decreases acts
  {
    if acts != [] {
      assert !(acts[0].Convert? && acts[0].conversion.DowngradeToUpgradable?);
      NoDowngradeNeverStrands(Apply(s, acts[0]), acts[1..]);
    }
  }

  // ----- the exception, for every run -----

  /** Whether the writer bit was last cleared by `downgrade_to_upgradable` with no notification of
      `no_writer` since. */
  function SilentAfter(s: State, a: Action, silent: bool): bool
    requires Enabled(s, a)
  {
    if a.Convert? && a.conversion.DowngradeToUpgradable? then true
    else
      var e := EffectOf(s, a);
      silent && !e.writers.DoNotify? && !(s.word % 2 == 1 && e.word % 2 == 0)
  }

  function Silent(s: State, acts: seq<Action>, silent: bool): bool
    requires CanRun(s, acts)
    decreases acts
  {
    if acts == [] then silent else Silent(Apply(s, acts[0]), acts[1..], SilentAfter(s, acts[0], silent))
  }

  lemma SilenceEnds(s: State, a: Action)
    requires Inv(s) && Enabled(s, a) && !SilentAfter(s, a, true)
    ensures ReadersCovered(Apply(s, a))
  {
    Trusted(s, a.id);
    OnlyFuturesComplete(s, a);
    if !EffectOf(s, a).writers.DoNotify? {
      ClearsBitLoudly(s, a);
      assert At(Apply(s, a).procs, a.id) == Fate(At(s.procs, a.id), EffectOf(s, a).next);
    } else {
      assert Apply(s, a).noWriter == Notify(s.noWriter, 1);
    }
  }

  lemma {:induction false} RunCoversUnlessSilent(s: State, acts: seq<Action>, silent: bool)
    requires Inv(s) && (silent || ReadersCovered(s)) && CanRun(s, acts)
    ensures Silent(s, acts, silent) || ReadersCovered(Run(s, acts))
    decreases acts
  {
    if acts != [] {
      var a := acts[0];
      if !SilentAfter(s, a, silent) {
        if silent { SilenceEnds(s, a); } else { StaysCovered(s, a); }
      }
      ApplyKeepsInv(s, a);
      RunCoversUnlessSilent(Apply(s, a), acts[1..], SilentAfter(s, a, silent));
    }
  }

  /** After every run, whoever is parked although it could go on has a wake-up on its way: on the inner
      mutex, behind the last reader, and behind a cleared writer bit, there with the one exception that
      the bit was last cleared by `downgrade_to_upgradable` with no `no_writer` notification since. */
  lemma WakeupsUnderWay(value: int, acts: seq<Action>)
    requires CanRun(Initial(value), acts)
    ensures
      var s := Run(Initial(value), acts);
      s.m.word % 2 == 0 && (exists id :: M.Unwoken(s.m, id)) ==> M.InTransit(s.m)
    ensures
      var s := Run(Initial(value), acts);
      forall id :: s.word % 2 == 0 && UnwokenReader(s, id) ==> ReaderInTransit(s) || Silent(Initial(value), acts, false)
    ensures
      var s := Run(Initial(value), acts);
      forall id :: s.word == 1 && ParkedWriter(At(s.procs, id)) && id in s.noReaders.waiting ==>
        s.noReaders.notified != [] || exists w :: OwesReaders(At(s.procs, w))
  {
    InitialInv(value);
    RunKeepsInv(Initial(value), acts);
    RunCoversUnlessSilent(Initial(value), acts, false);
  }

  /** So after every run in which nothing can move any more, parked readers are all that can be left, and
      only if the last clearing of the bit was silent. */
  lemma OnlySilenceStrands(value: int, acts: seq<Action>)
    requires CanRun(Initial(value), acts) && Quiescent(Run(Initial(value), acts))
    ensures
      var s := Run(Initial(value), acts);
      && (s.procs == map[] || Silent(Initial(value), acts, false))
      && forall id :: id in s.procs ==> s.procs[id] == Reading(RWait)
  {
    InitialInv(value);
    RunKeepsInv(Initial(value), acts);
    RunCoversUnlessSilent(Initial(value), acts, false);
    QuiescentIsEmpty(Run(Initial(value), acts));
    QuiescentIff(Run(Initial(value), acts));
  }

  // ----- the inner mutex on its own -----

  /** The mutex actions of a run, in order. */
  function LockRun(s: State, acts: seq<Action>): seq<M.Action>
    requires CanRun(s, acts)
    decreases acts
  {
    if acts == [] then []
    else
      var e := EffectOf(s, acts[0]);
      (if e.lock.Some? then [e.lock.value] else []) + LockRun(Apply(s, acts[0]), acts[1..])
  }

  /** The inner mutex of every run of the lock performs a run of the mutex machine, so all that is
      proved of that machine holds inside the lock. */
  lemma {:induction false} InnerMutexRuns(s: State, acts: seq<Action>)
    requires CanRun(s, acts)
    ensures M.CanRun(s.m, LockRun(s, acts)) && M.Run(s.m, LockRun(s, acts)) == Run(s, acts).m
    decreases acts
  {
    if acts != [] {
      var e, t := EffectOf(s, acts[0]), Apply(s, acts[0]);
      InnerMutexRuns(t, acts[1..]);
      if e.lock.Some? {
        assert LockRun(s, acts)[1..] == LockRun(t, acts[1..]);
      } else {
        assert LockRun(s, acts) == LockRun(t, acts[1..]);
      }
    }
  }
}
