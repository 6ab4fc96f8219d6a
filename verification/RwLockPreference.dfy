// Exclusion, write preference and the silent downgrade of the raw reader-writer lock.
module RwLockPreference {
  import opened Counting
  import opened Events
  import opened RwLockModel
  import opened RwLockEffects
  import opened RwLockInvariants
  import opened RwLockTheorems
  import M = MutexModel

  /** Word accounting and exclusion, in every reachable state. */
  lemma Exclusion(s: State)
    requires Reachable(s)
    ensures s.word == 2 * |Sharers(s.procs)| + |Owners(s.procs)|
    ensures Owners(s.procs) <= Holders(s.procs) && |Holders(s.procs)| == s.m.guards <= 1
    ensures forall w :: w in s.procs && s.procs[w] == Held(WriteGuard) ==> s.word == 1 && Sharers(s.procs) == {}
    ensures forall x, y :: x in s.procs && y in s.procs && x != y && s.procs[x] == Held(WriteGuard)
              ==> s.procs[y] != Held(WriteGuard) && s.procs[y] != Held(UpgradableGuard) && s.procs[y] != Held(ReadGuard)
    ensures 0 <= s.word <= 0x8000_0000_0000_0003 && 0 <= s.m.word <= 0x8000_0000_0000_0001
  {
    ReachableInv(s);
    forall w | w in s.procs && s.procs[w] == Held(WriteGuard) ensures s.word == 1 && Sharers(s.procs) == {} {
      assert At(s.procs, w) == Some(Held(WriteGuard));
      assert w in Owners(s.procs);
    }
    forall x, y | x in s.procs && y in s.procs && x != y && s.procs[x] == Held(WriteGuard)
      ensures s.procs[y] != Held(WriteGuard) && s.procs[y] != Held(UpgradableGuard) && s.procs[y] != Held(ReadGuard)
    {
      assert y !in Sharers(s.procs);
      if s.procs[y] == Held(WriteGuard) { OneHolder(s, x, y); }
    }
  }

  /** Whoever just took the inner mutex finds the writer bit clear, so `fetch_or` returns an even
      word and the early return of `RawWrite` is never taken. */
  lemma TakerFindsBitClear(s: State, id: Id)
    requires Reachable(s) && id in s.procs
    requires (s.procs[id].Upgrading? && !s.procs[id].u.ULock?)
             || s.procs[id] == Writing(WOr) || s.procs[id] == Writing(TryWriteCas)
    ensures s.word % 2 == 0
    ensures s.procs[id] == Writing(WOr) ==> StepEffect(s, id, s.procs[id], false).next == Goto(Writing(WListen))
  {
    ReachableInv(s);
    BitIsOwners(s, id);
  }

  // ----- write preference -----

  predicate DropsReader(s: State, a: Action) {
    a.DropGuard? && a.id in s.procs && s.procs[a.id] == Held(ReadGuard)
  }

  lemma BitFreezesReaders(s: State, a: Action)
    requires Allowed(s, a) && Trusts(s, a.id)
    requires s.word % 2 == 1 && EffectOf(s, a).word % 2 == 1
    ensures EffectOf(s, a).word == s.word - 2 * One(DropsReader(s, a))
  {
  }

  lemma OneOwnerWhenOdd(s: State)
    requires Inv(s) && s.word % 2 == 1
    ensures |Owners(s.procs)| == 1
  {
    if x :| x in Owners(s.procs) {
      forall y | y in Owners(s.procs) ensures y == x { OneHolder(s, x, y); }
      assert Owners(s.procs) == {x};
    }
  }

  /** While the bit stays set the reader count only falls, by one for each dropped read guard, and
      the step that takes it to zero owes a `no_readers` notification. */
  lemma PreferenceStep(s: State, a: Action)
    requires Inv(s) && Enabled(s, a) && s.word % 2 == 1 && Apply(s, a).word % 2 == 1
    ensures |Sharers(Apply(s, a).procs)| == |Sharers(s.procs)| - One(DropsReader(s, a))
    ensures DropsReader(s, a) && Apply(s, a).word == 1 ==>
        At(Apply(s, a).procs, a.id) == Some(Releasing(ReadUnlockNotify))
  {
    Trusted(s, a.id);
    BitFreezesReaders(s, a);
    ApplyKeepsInv(s, a);
    OneOwnerWhenOdd(s);
    OneOwnerWhenOdd(Apply(s, a));
  }

  ghost predicate BitHeld(s: State, acts: seq<Action>)
    requires CanRun(s, acts)
    decreases acts
  {
    s.word % 2 == 1 && (acts != [] ==> BitHeld(Apply(s, acts[0]), acts[1..]))
  }

  ghost function ReadersDropped(s: State, acts: seq<Action>): nat
    requires CanRun(s, acts)
    decreases acts
  {
    if acts == [] then 0 else One(DropsReader(s, acts[0])) + ReadersDropped(Apply(s, acts[0]), acts[1..])
  }

  /** Over any stretch of a run in which the writer bit stays set, the readers that are left and the
      readers that were dropped add up to the readers at its start: nobody was admitted. */
  lemma {:induction false} WritePreference(s: State, acts: seq<Action>)
    requires Inv(s) && CanRun(s, acts) && BitHeld(s, acts)
    ensures |Sharers(Run(s, acts).procs)| + ReadersDropped(s, acts) == |Sharers(s.procs)|
    decreases acts
  {
    if acts != [] {
      PreferenceStep(s, acts[0]);
      ApplyKeepsInv(s, acts[0]);
      WritePreference(Apply(s, acts[0]), acts[1..]);
    }
  }

  // ----- the silent downgrade -----

  /** A write guard, some parked readers, and nothing that would wake them. */
  ghost predicate OnlyReadersWait(s: State, g: Id) {
    && !s.aborted
    && At(s.procs, g) == Some(Held(WriteGuard))
    && s.noWriter.notified == []
    && s.m.ops == map[]
    && forall id :: id in s.procs && id != g ==> s.procs[id] == Reading(RWait)
  }

  lemma RunCons(s: State, a: Action, rest: seq<Action>)
    requires Enabled(s, a) && CanRun(Apply(s, a), rest)
    ensures CanRun(s, [a] + rest) && Run(s, [a] + rest) == Run(Apply(s, a), rest)
  {
    assert ([a] + rest)[1..] == rest;
  }

  /** What `downgrade_to_upgradable` and the drop of the upgradable guard do, one step at a time. */
  function Downgraded(s: State, g: Id): State {
    s.(word := 2, procs := s.procs[g := Held(UpgradableGuard)])
  }

  function Dropped(s: State, g: Id): State {
    s.(word := 0, procs := s.procs[g := Releasing(UpUnlockNotify)])
  }

  function Notified(s: State, g: Id): State {
    s.(word := 0, noReaders := Notify(s.noReaders, 1), procs := s.procs[g := Releasing(UpUnlockMutex)])
  }

  function Unlocked(s: State, g: Id): State {
    s.(word := 0, noReaders := Notify(s.noReaders, 1), procs := s.procs[g := Releasing(MutexNotify)],
       m := s.m.(word := s.m.word - 1, guards := 0, releasing := s.m.releasing + {g}))
  }

  function Stranded(s: State, g: Id): State {
    s.(word := 0, noReaders := Notify(s.noReaders, 1), procs := s.procs - {g},
       m := s.m.(word := s.m.word - 1, guards := 0, releasing := s.m.releasing - {g}, ev := Notify(s.m.ev, 1)))
  }

  function DowngradeAndDrop(g: Id, other: Id): seq<Action> {
    [Convert(g, DowngradeToUpgradable)] + ([DropGuard(g)]
      + ([Step(g, false, other)] + ([Step(g, false, other)] + ([Step(g, false, other)] + []))))
  }

  ghost predicate StepsTo(s: State, a: Action, t: State) {
    Enabled(s, a) && Apply(s, a) == t
  }

  lemma DowngradeSteps(s: State, g: Id)
    requires Inv(s) && OnlyReadersWait(s, g)
    ensures StepsTo(s, Convert(g, DowngradeToUpgradable), Downgraded(s, g))
    ensures StepsTo(Downgraded(s, g), DropGuard(g), Dropped(s, g))
  {
    assert s.word == 1;
  }

  lemma SoleGuard(s: State, g: Id)
    requires Inv(s) && OnlyReadersWait(s, g)
    ensures s.m.guards == 1 && g !in s.m.releasing && !s.m.aborted
  {
    assert PlacedNow(s, g);
    RecountGone(s.procs, g, HoldsMutex);
  }

  lemma NotifyStep(s: State, g: Id, other: Id)
    requires Inv(s) && OnlyReadersWait(s, g) && other !in s.procs
    ensures StepsTo(Dropped(s, g), Step(g, false, other), Notified(s, g))
  {
  }

  lemma UnlockStep(s: State, g: Id, other: Id)
    requires Inv(s) && OnlyReadersWait(s, g) && other !in s.procs
    ensures StepsTo(Notified(s, g), Step(g, false, other), Unlocked(s, g))
  {
    SoleGuard(s, g);
  }

  lemma LastStep(s: State, g: Id, other: Id)
    requires Inv(s) && OnlyReadersWait(s, g) && other !in s.procs
    ensures StepsTo(Unlocked(s, g), Step(g, false, other), Stranded(s, g))
  {
    SoleGuard(s, g);
  }

  lemma StrandingRun(s: State, g: Id, other: Id)
    requires Inv(s) && OnlyReadersWait(s, g) && other !in s.procs
    ensures CanRun(s, DowngradeAndDrop(g, other))
    ensures Run(s, DowngradeAndDrop(g, other)) == Stranded(s, g)
  {
    DowngradeSteps(s, g);
    NotifyStep(s, g, other);
    UnlockStep(s, g, other);
    LastStep(s, g, other);
    var step := Step(g, false, other);
    RunCons(Unlocked(s, g), step, []);
    RunCons(Notified(s, g), step, [step] + []);
    RunCons(Dropped(s, g), step, [step] + ([step] + []));
    RunCons(Downgraded(s, g), DropGuard(g), [step] + ([step] + ([step] + [])));
    RunCons(s, Convert(g, DowngradeToUpgradable), [DropGuard(g)] + ([step] + ([step] + ([step] + []))));
  }

  /** From every reachable state with a live write guard and otherwise only parked readers,
      `downgrade_to_upgradable` followed by dropping the guard leaves the lock free, nothing able to
      move, and every one of those readers still parked. */
  lemma SilentDowngradeStrands(s: State, g: Id, other: Id)
    requires Inv(s) && OnlyReadersWait(s, g) && other !in s.procs
    ensures CanRun(s, DowngradeAndDrop(g, other))
    ensures
      var t := Run(s, DowngradeAndDrop(g, other));
      && Quiescent(t) && t.word == 0 && t.m.word == 0
      && t.procs == s.procs - {g}
      && forall id :: id in t.procs ==> t.procs[id] == Reading(RWait) && id in t.noWriter.waiting
  {
    StrandingRun(s, g, other);
    RecountGone(s.procs, g, HoldsMutex);
    assert Those(s.procs - {g}, HoldsMutex) == {};
    forall id | id in s.procs && id != g ensures id in s.noWriter.waiting {
      assert PlacedNow(s, id);
    }
    assert M.Starved(s.m.ops) == {} && M.Taking(s.m.ops) == {};
  }

  /** A writer with `try_write` on a new lock. */
  lemma WriterExists(value: int) returns (s: State)
    ensures Reachable(s) && OnlyReadersWait(s, 0) && s.procs == map[0 := Held(WriteGuard)]
  {
    var s0 := Initial(value);
    assert CanRun(s0, []) && Run(s0, []) == s0;
    var s1 := Apply(s0, Call(0, TryWrite));
    ReachableStep(s0, Call(0, TryWrite));
    ReachableStep(s1, Step(0, false, 2));
    s := Apply(s1, Step(0, false, 2));
  }

  function ReaderAt(s: State, id: Id, r: Reader): State {
    s.(procs := s.procs[id := Reading(r)])
  }

  lemma ReaderComes(s: State, g: Id, id: Id, other: Id)
    requires Inv(s) && OnlyReadersWait(s, g) && id !in s.procs && other !in s.procs && id != other
    ensures StepsTo(s, Call(id, Read), ReaderAt(s, id, RNew(1)))
    ensures StepsTo(ReaderAt(s, id, RNew(1)), Step(id, false, other), ReaderAt(s, id, RListen))
  {
    assert PlacedNow(s, id);
    assert s.word == 1;
  }

  lemma ReaderListens(s: State, g: Id, id: Id, other: Id)
    requires Inv(s) && OnlyReadersWait(s, g) && id !in s.procs && other !in s.procs && id != other
    ensures
      var t := s.(noWriter := Listen(s.noWriter, id));
      && StepsTo(ReaderAt(s, id, RListen), Step(id, false, other), ReaderAt(t, id, RLoad))
      && StepsTo(ReaderAt(t, id, RLoad), Step(id, false, other), ReaderAt(t, id, RWait))
  {
    assert s.word == 1;
  }

  /** A reader that comes while a write guard lives parks behind it. */
  lemma ReaderParks(s: State, g: Id, id: Id, other: Id) returns (t: State)
    requires Reachable(s) && OnlyReadersWait(s, g) && id !in s.procs && other !in s.procs && id != other
    ensures Reachable(t) && OnlyReadersWait(t, g) && At(t.procs, id) == Some(Reading(RWait))
  {
    ReachableInv(s);
    ReaderComes(s, g, id, other);
    ReaderListens(s, g, id, other);
    var u := s.(noWriter := Listen(s.noWriter, id));
    ReachableStep(s, Call(id, Read));
    ReachableStep(ReaderAt(s, id, RNew(1)), Step(id, false, other));
    ReachableStep(ReaderAt(s, id, RListen), Step(id, false, other));
    ReachableStep(ReaderAt(u, id, RLoad), Step(id, false, other));
    t := ReaderAt(u, id, RWait);
  }

  /** Such a state is reached: one writer with `try_write`, one reader that parks behind it. */
  lemma StrandedReaderExists(value: int) returns (s: State)
    ensures Reachable(s) && OnlyReadersWait(s, 0) && At(s.procs, 1) == Some(Reading(RWait))
  {
    s := WriterExists(value);
    s := ReaderParks(s, 0, 1, 2);
  }

  lemma {:induction false} RunReachable(s: State, acts: seq<Action>)
    requires Reachable(s) && CanRun(s, acts)
    ensures Reachable(Run(s, acts))
    decreases acts
  {
    if acts != [] {
      ReachableStep(s, acts[0]);
      RunReachable(Apply(s, acts[0]), acts[1..]);
    }
  }

  lemma StrandAfter(s: State, g: Id, id: Id) returns (t: State)
    requires Reachable(s) && OnlyReadersWait(s, g) && id != g && id in s.procs
    ensures Reachable(t) && Quiescent(t) && t.word == 0 && t.m.word == 0 && t.procs == s.procs - {g}
  {
    var other := FreshName(s.procs.Keys);
    ReachableInv(s);
    SilentDowngradeStrands(s, g, other);
    t := Run(s, DowngradeAndDrop(g, other));
    RunReachable(s, DowngradeAndDrop(g, other));
  }

  /** And so is the stranded state: the lock is free, no guard lives, nothing can move, and reader 1
      waits for ever. */
  lemma StrandedForever(value: int) returns (s: State)
    ensures Reachable(s) && Quiescent(s) && !ReadersCovered(s)
    ensures s.word == 0 && s.m.word == 0 && At(s.procs, 1) == Some(Reading(RWait))
    ensures forall id :: id in s.procs ==> !s.procs[id].Held?
  {
    var before := StrandedReaderExists(value);
    s := StrandAfter(before, 0, 1);
    ReachableInv(s);
    QuiescentIff(s);
  }
}
