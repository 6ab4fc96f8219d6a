// The invariants of the raw reader-writer lock, kept by every action.
module RwLockInvariants {
  import opened Counting
  import opened Events
  import opened RwLockModel
  import opened RwLockEffects
  import M = MutexModel

  type Procs = map<Id, Pc>

  function Sharers(p: Procs): set<Id> { Those(p, Shares) }
  function Owners(p: Procs): set<Id> { Those(p, OwnsBit) }
  function Holders(p: Procs): set<Id> { Those(p, HoldsMutex) }

  /** The word is twice the guards that share the lock plus one for the bit owner; the holders of
      the inner mutex are exactly its guards. */
  ghost predicate Accounts(word: int, guards: int, p: Procs) {
    && word == 2 * |Sharers(p)| + |Owners(p)|
    && guards == |Holders(p)|
  }

  ghost predicate Places(s: State) {
    forall id :: PlacedNow(s, id)
  }

  /** A `no_writer` notification is on its way. */
  ghost predicate ReaderInTransit(s: State) {
    s.noWriter.notified != [] || exists w :: OwesWriters(At(s.procs, w))
  }

  predicate UnwokenReader(s: State, id: Id) {
    ParkedReader(At(s.procs, id)) && id in s.noWriter.waiting
  }

  /** With the bit clear, an unwoken reader has a wake-up on its way.  This is not part of `Inv`, because
      one kind of step loses it. */
  ghost predicate ReadersCovered(s: State) {
    forall id :: s.word % 2 == 0 && UnwokenReader(s, id) ==> ReaderInTransit(s)
  }

  ghost predicate WriterWakeup(s: State) {
    || s.noReaders.notified != []
    || exists id :: OwesReaders(At(s.procs, id))
  }

  /** With all readers gone, a parked writer or upgrader has a wake-up on its way. */
  ghost predicate WriterWakes(s: State) {
    forall id :: s.word == 1 && ParkedWriter(At(s.procs, id)) && id in s.noReaders.waiting ==> WriterWakeup(s)
  }

  /** A live write guard means that nobody shares the lock. */
  ghost predicate WriterAlone(s: State) {
    forall id :: At(s.procs, id) == Some(Held(WriteGuard)) ==> s.word == 1
  }

  ghost predicate Bounded(s: State) {
    && s.word <= ISIZE_MAX + 4
    && forall id :: id in s.procs && s.procs[id].Upgrading? && s.procs[id].u.UCas? ==> s.word <= ISIZE_MAX + 2
  }

  ghost predicate Inv(s: State) {
    && M.Inv(s.m)
    && (s.m.aborted ==> s.aborted)
    && Accounts(s.word, s.m.guards, s.procs)
    && Places(s)
    && WriterWakes(s)
    && WriterAlone(s)
    && Bounded(s)
  }

  // ----- counting -----

  lemma MoveOne(p: Procs, id: Id, pc: Pc)
    ensures |Sharers(p[id := pc])| == |Sharers(p)| + One(Shares(pc)) - One(id in p && Shares(p[id]))
    ensures |Owners(p[id := pc])| == |Owners(p)| + One(OwnsBit(pc)) - One(id in p && OwnsBit(p[id]))
    ensures |Holders(p[id := pc])| == |Holders(p)| + One(HoldsMutex(pc)) - One(id in p && HoldsMutex(p[id]))
  {
    Recount(p, id, pc, Shares);
    Recount(p, id, pc, OwnsBit);
    Recount(p, id, pc, HoldsMutex);
  }

  lemma MoveKeepsAccounts(word: int, guards: int, p: Procs, id: Id, gid: Id, next: Next, word': int, guards': int)
    requires Accounts(word, guards, p) && (next.Complete? ==> id in p && gid !in p)
    requires word' - word == WordShare(Fate(At(p, id), next)) + WordShare(NewGuard(next)) - WordShare(At(p, id))
    requires guards' - guards == MutexShare(Fate(At(p, id), next)) + MutexShare(NewGuard(next)) - MutexShare(At(p, id))
    ensures Accounts(word', guards', Move(p, id, gid, next))
  {
    match next
    case Goto(pc) => MoveOne(p, id, pc);
    case Gone =>
      RecountGone(p, id, Shares);
      RecountGone(p, id, OwnsBit);
      RecountGone(p, id, HoldsMutex);
    case Complete(kind, g) =>
      MoveOne(p, id, Finished(kind));
      MoveOne(p[id := Finished(kind)], gid, Held(g));
    case Halt =>
  }

  /** At most one operation holds the inner mutex. */
  lemma OneHolder(s: State, x: Id, y: Id)
    requires M.Inv(s.m) && Accounts(s.word, s.m.guards, s.procs)
    requires MutexShare(At(s.procs, x)) == 1 && MutexShare(At(s.procs, y)) == 1
    ensures x == y
  {
    assert x in Holders(s.procs) && y in Holders(s.procs);
    AtMostOne(Holders(s.procs), x, y);
  }

  /** Whoever holds the inner mutex finds the writer bit set exactly when it owns it. */
  lemma BitIsOwners(s: State, id: Id)
    requires M.Inv(s.m) && Accounts(s.word, s.m.guards, s.procs)
    requires id in s.procs && HoldsMutex(s.procs[id])
    ensures s.word % 2 == One(OwnsBit(s.procs[id]))
  {
    forall y | y in Owners(s.procs) ensures y == id {
      OneHolder(s, id, y);
    }
    assert Owners(s.procs) == if OwnsBit(s.procs[id]) then {id} else {};
  }

  lemma Trusted(s: State, id: Id)
    requires Inv(s)
    ensures Trusts(s, id)
  {
    var pc := At(s.procs, id);
    assert PlacedNow(s, id);
    RecountGone(s.procs, id, Shares);
    RecountGone(s.procs, id, OwnsBit);
    if MutexShare(pc) == 1 {
      BitIsOwners(s, id);
    }
  }

  // ----- one lawful step -----

  ghost predicate Steps(s: State, t: State, id: Id, gid: Id, e: Effect) {
    && Lawful(s, id, e)
    && (e.lock.Some? ==> M.Enabled(s.m, e.lock.value))
    && (e.next.Complete? ==> id in s.procs && gid !in s.procs)
    && t == Perform(s, id, gid, e, LockAfter(s, e))
  }

  lemma StepPlaces(s: State, t: State, id: Id, gid: Id, e: Effect)
    requires Places(s) && Steps(s, t, id, gid, e)
    ensures Places(t)
  {
    if e.lock.Some? { M.Shape(s.m, e.lock.value); }
    forall y ensures PlacedNow(t, y) {
      assert PlacedNow(s, y);
      assert Listening(t.noReaders, y) <==>
          if y == id then ListensAfter(s.noReaders, id, e.readers) else Listening(s.noReaders, y);
      assert Listening(t.noWriter, y) <==>
          if y == id then ListensAfter(s.noWriter, id, e.writers) else Listening(s.noWriter, y);
    }
  }

  lemma StepAccounts(s: State, t: State, id: Id, gid: Id, e: Effect)
    requires Accounts(s.word, s.m.guards, s.procs) && Steps(s, t, id, gid, e)
    ensures Accounts(t.word, t.m.guards, t.procs)
  {
    if e.lock.Some? { M.Shape(s.m, e.lock.value); }
    MoveKeepsAccounts(s.word, s.m.guards, s.procs, id, gid, e.next, t.word, t.m.guards);
  }

  /** Whose entry a step changes, and how. */
  lemma Moved(s: State, t: State, id: Id, gid: Id, e: Effect, y: Id)
    requires Steps(s, t, id, gid, e)
    ensures y == id ==> At(t.procs, y) == Fate(At(s.procs, id), e.next)
    ensures y != id && At(t.procs, y) != At(s.procs, y) ==>
        e.next.Complete? && y == gid && At(t.procs, y) == NewGuard(e.next)
  {
  }

  /** A lawful step keeps readers covered, but for a silent downgrade past an unwoken reader with nothing
      on its way. */
  lemma StepReadersCovered(s: State, t: State, id: Id, gid: Id, e: Effect)
    requires ReadersCovered(s) && Steps(s, t, id, gid, e)
    requires DowngradesSilently(At(s.procs, id), e) ==> ReaderInTransit(s) || forall x :: !UnwokenReader(s, x)
    ensures ReadersCovered(t)
  {
    forall x | t.word % 2 == 0 && UnwokenReader(t, x) && t.noWriter.notified == [] ensures ReaderInTransit(t) {
      Moved(s, t, id, gid, e, x);
      Moved(s, t, id, gid, e, id);
      assert s.noWriter.notified != [] ==> s.noWriter.notified[0] in s.noWriter.notified;
      if !OwesWriters(At(t.procs, id)) {
        assert UnwokenReader(s, x);
        var w :| OwesWriters(At(s.procs, w));
        Moved(s, t, id, gid, e, w);
        assert OwesWriters(At(t.procs, w));
      }
    }
  }

  /** A waiting writer is the only holder of the inner mutex, so a step that concerns it is its own. */
  lemma OthersShareNothing(s: State, t: State, id: Id, gid: Id, e: Effect, x: Id)
    requires M.Inv(s.m) && Accounts(s.word, s.m.guards, s.procs) && Steps(s, t, id, gid, e)
    requires M.Inv(t.m) && Accounts(t.word, t.m.guards, t.procs)
    requires MutexShare(At(t.procs, x)) == 1 && x != id && At(s.procs, x) == At(t.procs, x)
    ensures MutexShare(At(s.procs, id)) == 0 && MutexShare(Fate(At(s.procs, id), e.next)) == 0
  {
    Moved(s, t, id, gid, e, id);
    if MutexShare(At(t.procs, id)) == 1 { OneHolder(t, id, x); }
    if MutexShare(At(s.procs, id)) == 1 { OneHolder(s, id, x); }
  }

  lemma StepWriterWakes(s: State, t: State, id: Id, gid: Id, e: Effect)
    requires M.Inv(s.m) && Accounts(s.word, s.m.guards, s.procs) && WriterWakes(s) && Steps(s, t, id, gid, e)
    requires M.Inv(t.m) && Accounts(t.word, t.m.guards, t.procs)
    ensures WriterWakes(t)
  {
    assert s.noReaders.notified != [] ==> s.noReaders.notified[0] in s.noReaders.notified;
    forall x | t.word == 1 && ParkedWriter(At(t.procs, x)) && x in t.noReaders.waiting && t.noReaders.notified == []
      ensures WriterWakeup(t)
    {
      Moved(s, t, id, gid, e, x);
      Moved(s, t, id, gid, e, id);
      if x != id { OthersShareNothing(s, t, id, gid, e, x); }
      if s.word != 1 {
        assert OwesReaders(At(t.procs, id));
      } else {
        var w :| OwesReaders(At(s.procs, w));
        Moved(s, t, id, gid, e, w);
        assert OwesReaders(At(t.procs, w));
      }
    }
  }

  lemma StepAlone(s: State, t: State, id: Id, gid: Id, e: Effect)
    requires M.Inv(s.m) && Accounts(s.word, s.m.guards, s.procs) && WriterAlone(s) && Steps(s, t, id, gid, e)
    ensures WriterAlone(t)
  {
    forall x | At(t.procs, x) == Some(Held(WriteGuard)) ensures t.word == 1 {
      Moved(s, t, id, gid, e, x);
      if x != id && At(s.procs, x) == Some(Held(WriteGuard)) && e.word != s.word {
        if MutexShare(At(s.procs, id)) == 1 { OneHolder(s, id, x); }
        NothingShared(s, id, x);
      }
    }
  }

  /** With the word at 1 and a bit owner elsewhere, an operation has no share in the word. */
  lemma NothingShared(s: State, id: Id, x: Id)
    requires Accounts(s.word, s.m.guards, s.procs) && s.word == 1
    requires id != x && At(s.procs, x) == Some(Held(WriteGuard))
    ensures WordShare(At(s.procs, id)) == 0
  {
    RecountGone(s.procs, id, Shares);
    RecountGone(s.procs, id, OwnsBit);
    assert x in Owners(s.procs - {id});
  }

  lemma StepBounded(s: State, t: State, id: Id, gid: Id, e: Effect)
    requires M.Inv(s.m) && Accounts(s.word, s.m.guards, s.procs) && Bounded(s) && Steps(s, t, id, gid, e)
    requires M.Inv(t.m) && Accounts(t.word, t.m.guards, t.procs)
    ensures Bounded(t)
  {
    forall x | x in t.procs && t.procs[x].Upgrading? && t.procs[x].u.UCas? ensures t.word <= ISIZE_MAX + 2 {
      Moved(s, t, id, gid, e, x);
      Moved(s, t, id, gid, e, id);
      if MutexShare(At(t.procs, id)) == 1 { OneHolder(t, id, x); }
      if MutexShare(At(s.procs, id)) == 1 && x in s.procs && s.procs[x] == t.procs[x] { OneHolder(s, id, x); }
    }
  }

  lemma ApplyKeepsInv(s: State, a: Action)
    requires Inv(s) && Enabled(s, a)
    ensures Inv(Apply(s, a))
  {
    var e, t, gid := EffectOf(s, a), Apply(s, a), if a.Step? then a.gid else a.id;
    Trusted(s, a.id);
    EffectLawful(s, a);
    LockKeepsInv(s, e);
    OnlyFuturesComplete(s, a);
    StepPlaces(s, t, a.id, gid, e);
    StepAccounts(s, t, a.id, gid, e);
    StepWriterWakes(s, t, a.id, gid, e);
    StepAlone(s, t, a.id, gid, e);
    StepBounded(s, t, a.id, gid, e);
  }

  lemma LockKeepsInv(s: State, e: Effect)
    requires M.Inv(s.m) && (e.lock.Some? ==> M.Enabled(s.m, e.lock.value))
    ensures M.Inv(LockAfter(s, e))
  {
    if e.lock.Some? { M.ApplyKeepsInv(s.m, e.lock.value); }
  }

  lemma OnlyFuturesComplete(s: State, a: Action)
    requires Allowed(s, a)
    ensures EffectOf(s, a).next.Complete? ==> a.Step? && a.id in s.procs && a.gid !in s.procs
  {
  }
}
