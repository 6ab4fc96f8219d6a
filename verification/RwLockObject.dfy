// The raw reader-writer lock in the form the program has it: an object whose word, events and inner
// mutex the methods change in place, cut into atomic operations between which the other tasks may do
// anything the machine of `RwLockModel` allows.  `trace` records the operations, so that `Valid`
// says: whatever happened to the object is a run of that machine.
module RwLockObject {
  import opened Counting
  import opened Events
  import opened RwLockModel
  import opened RwLockEffects
  import opened RwLockInvariants
  import opened RwLockTheorems
  import opened RwLockPreference
  import opened RwLockProgress
  import M = MutexModel
  import MO = MutexObject

  // ----- what others leave alone -----

  ghost predicate SameSeat(s: Event, t: Event, id: Id) {
    && (Listening(s, id) <==> Listening(t, id))
    && (id in s.notified ==> id in t.notified)
  }

  /** What other tasks cannot change about `id`. */
  ghost predicate Untouched(s: State, t: State, id: Id) {
    && At(t.procs, id) == At(s.procs, id)
    && SameSeat(s.noReaders, t.noReaders, id)
    && SameSeat(s.noWriter, t.noWriter, id)
    && MO.Untouched(s.m, t.m, id)
    && s.aborted == t.aborted
    && (id in s.procs && (Shares(s.procs[id]) || OwnsBit(s.procs[id])) ==> t.value == s.value)
  }

  /** Only a write guard writes, and then nobody else shares the lock or owns the bit. */
  lemma ValueStays(s: State, a: Action, id: Id)
    requires Inv(s) && Enabled(s, a) && a.id != id && id in s.procs
    requires Shares(s.procs[id]) || OwnsBit(s.procs[id])
    ensures Apply(s, a).value == s.value
  {
    if EffectOf(s, a).value != s.value {
      Trusted(s, a.id);
      EffectLawful(s, a);
      NothingShared(s, id, a.id);
    }
  }

  lemma EventLeavesOthers(e: Event, x: Id, op: EventOp, id: Id)
    requires x != id
    ensures SameSeat(e, OnEvent(e, x, op), id)
  {
  }

  lemma LockLeavesOthers(s: State, e: Effect, x: Id, id: Id)
    requires Inv(s) && !s.aborted && OwnLock(x, e) && x != id
    requires e.lock.Some? ==> M.Enabled(s.m, e.lock.value)
    requires !LockAfter(s, e).aborted
    ensures MO.Untouched(s.m, LockAfter(s, e), id)
  {
    if e.lock.Some? { MO.OthersLeave(s.m, e.lock.value, id); }
  }

  lemma OthersLeave(s: State, a: Action, id: Id)
    requires Inv(s) && Enabled(s, a) && a.id != id && id in s.procs && !Apply(s, a).aborted
    ensures Untouched(s, Apply(s, a), id)
  {
    var e := EffectOf(s, a);
    Trusted(s, a.id);
    EffectLawful(s, a);
    OnlyFuturesComplete(s, a);
    EventLeavesOthers(s.noReaders, a.id, e.readers, id);
    EventLeavesOthers(s.noWriter, a.id, e.writers, id);
    LockLeavesOthers(s, e, a.id, id);
    if Shares(s.procs[id]) || OwnsBit(s.procs[id]) { ValueStays(s, a, id); }
  }

  /** What one atomic operation works on: the word, the inner mutex, or one of the events. */
  datatype Op = Word(from: int, to: int) | InMutex(a: M.Action) | AtReaders(r: EventOp) | AtWriters(w: EventOp)

  /** A move of the program counter that touches nothing: a poll resumes, or looks at the word that `read`
      loaded. */
  predicate Local(s: State, a: Action) {
    a.Repoll? || (a.Step? && a.id in s.procs && s.procs[a.id].Reading? && s.procs[a.id].r.RNew?)
  }

  function OpOf(s: State, a: Action): seq<Op>
    requires Enabled(s, a)
  {
    var e := EffectOf(s, a);
    if Local(s, a) then []
    else if e.lock.Some? then [InMutex(e.lock.value)]
    else if !e.readers.Keep? then [AtReaders(e.readers)]
    else if !e.writers.Keep? then [AtWriters(e.writers)]
    else [Word(s.word, e.word)]
  }

  /** The atomic operations that `id` made in a run, in order. */
  function OpsBy(s: State, acts: seq<Action>, id: Id): seq<Op>
    requires CanRun(s, acts)
    decreases acts
  {
    if acts == [] then []
    else (if acts[0].id == id then OpOf(s, acts[0]) else []) + OpsBy(Apply(s, acts[0]), acts[1..], id)
  }

  lemma {:induction false} OpsThen(s: State, acts: seq<Action>, a: Action, id: Id)
    requires CanRun(s, acts) && Enabled(Run(s, acts), a)
    ensures CanRun(s, acts + [a])
    ensures OpsBy(s, acts + [a], id) == OpsBy(s, acts, id) + if a.id == id then OpOf(Run(s, acts), a) else []
    decreases acts
  {
    RunThen(s, acts, a);
    if acts == [] {
      assert [a][1..] == [];
    } else {
      assert (acts + [a])[1..] == acts[1..] + [a];
      OpsThen(Apply(s, acts[0]), acts[1..], a, id);
    }
  }

  class RawRwLock {
    var state: int            // the word: twice the readers plus the writer bit
    var mutex: M.State        // the inner mutex
    var noReaders: Event
    var noWriter: Event
    var procs: map<Id, Pc>    // the futures, guards and unlocks that refer to this lock
    var value: int            // the protected data
    var aborted: bool
    const initial: int
    ghost var trace: seq<Action>

    function View(): State
      reads this
    {
      State(mutex, state, noReaders, noWriter, procs, value, aborted)
    }

    ghost predicate Valid()
      reads this
    {
      && CanRun(Initial(initial), trace) && View() == Run(Initial(initial), trace)
      && (mutex.aborted ==> aborted)
    }

    constructor (value: int)
      ensures Valid() && View() == Initial(value) && trace == [] && initial == value
    {
      state, mutex, noReaders, noWriter := 0, M.INITIAL, NO_LISTENERS, NO_LISTENERS;
      procs, this.value, aborted := map[], value, false;
      initial := value;
      trace := [];
    }

    /** The operations that `id` made so far. */
    ghost function Made(id: Id): seq<Op>
      reads this
      requires CanRun(Initial(initial), trace)
    {
      OpsBy(Initial(initial), trace, id)
    }

    /** Exactly the action `a` happened, and took its operation to `next`. */
    twostate predicate Did(a: Action, next: Next)
      reads this
    {
      && Valid()
      && trace == old(trace) + [a]
      && At(procs, a.id) == Fate(At(old(procs), a.id), next)
      && (next.Complete? ==> a.Step? && At(procs, a.gid) == Some(Held(next.g)))
      && (aborted <==> next.Halt? || mutex.aborted)
      && value == old(value)
    }

    /** The fields other than the bookkeeping. */
    predicate Is(word: int, m: M.State, readers: Event, writers: Event)
      reads this
    {
      state == word && mutex == m && noReaders == readers && noWriter == writers
    }

    /** Only other operations than `id` were active, and their effect leaves `id` where it is. */
    twostate predicate OnlyOthers(id: Id)
      requires old(Valid())
      reads this
    {
      && Valid()
      && Untouched(old(View()), View(), id)
      && old(trace) <= trace
      && Made(id) == old(Made(id))
      && forall i :: |old(trace)| <= i < |trace| ==> trace[i].id != id
    }

    /** The operation `id` is at `pc`. */
    ghost predicate Here(id: Id, pc: Pc)
      reads this
    {
      Valid() && !aborted && At(procs, id) == Some(pc)
    }

    /** What a single operation may use: the invariants of the reachable state it acts in. */
    lemma Sound()
      requires Valid()
      ensures Inv(View()) && Reachable(View())
    {
      InitialInv(initial);
      RunKeepsInv(Initial(initial), trace);
    }

    /** Parked readers are covered, but for the exception. */
    lemma ReadersWake()
      requires Valid()
      ensures NeverStrands(Initial(initial), trace) ==> ReadersCovered(View())
      ensures ReadersCovered(View()) || Silent(Initial(initial), trace, false)
    {
      InitialInv(initial);
      RunCoversUnlessSilent(Initial(initial), trace, false);
      if NeverStrands(Initial(initial), trace) { RunCoversReaders(Initial(initial), trace); }
    }

    lemma AbortedOnOverflow()
      requires Valid() && aborted
      ensures Overflows(Initial(initial), trace)
    {
      AbortsOnlyOnOverflow(initial, trace);
    }

    /** The machine allows `a` here, with this effect. */
    predicate Can(a: Action, next: Next, word: int, lock: Maybe<M.Action>, readers: EventOp, writers: EventOp)
      reads this
    {
      && Enabled(View(), a) && !Local(View(), a)
      && var e := EffectOf(View(), a);
         && e.next == next && e.word == word && e.lock == lock
         && e.readers == readers && e.writers == writers && e.value == value
    }

    method Record(a: Action, before: State, ghost next: Next)
      requires CanRun(Initial(initial), trace) && before == Run(Initial(initial), trace)
      requires Enabled(before, a) && EffectOf(before, a).next == next
      requires before.procs == procs && !before.aborted
      requires
        var t := Apply(before, a);
        t.word == state && t.m == mutex && t.noReaders == noReaders && t.noWriter == noWriter
      modifies this`procs, this`value, this`aborted, this`trace
      ensures Valid() && trace == old(trace) + [a] && View() == Apply(before, a)
      ensures forall id :: Made(id) == old(Made(id)) + if id == a.id then OpOf(before, a) else []
      ensures EffectOf(before, a).value == before.value && before.value == old(value) ==> Did(a, next)
    {
      RunThen(Initial(initial), trace, a);
      OnlyFuturesComplete(before, a);
      var after := Apply(before, a);
      procs, value, aborted := after.procs, after.value, after.aborted;
      forall id { OpsThen(Initial(initial), trace, a, id); }
      trace := trace + [a];
    }

    /** A name that no operation or guard has. */
    method Fresh() returns (g: Id)
      ensures g !in procs
    {
      g := 0;
      ghost var above := procs.Keys;
      while g in procs
        invariant forall x :: x in procs && g <= x ==> x in above
        decreases above
      {
        above := above - {g};
        g := g + 1;
      }
    }

    // ----- atomic operations; `a` says which step of whom this is -----

    /** The program counter of `a.id` moves on; the lock is not touched. */
    method Note(a: Action, ghost next: Next)
      requires Valid() && Enabled(View(), a) && Local(View(), a) && EffectOf(View(), a) == Go(View(), next)
      modifies this
      ensures Did(a, next) && Is(old(state), old(mutex), old(noReaders), old(noWriter)) && Made(a.id) == old(Made(a.id))
    {
      var before := View();
      Record(a, before, next);
    }

    method Load(a: Action, ghost next: Next) returns (seen: int)
      requires Valid() && Can(a, next, state, None, Keep, Keep)
      modifies this
      ensures Did(a, next) && Is(old(state), old(mutex), old(noReaders), old(noWriter)) && seen == old(state)
      ensures Made(a.id) == old(Made(a.id)) + [Word(old(state), old(state))]
    {
      var before := View();
      seen := state;
      Record(a, before, next);
    }

    method CompareExchange(a: Action, expected: int, new_: int, ghost next: Next) returns (seen: int)
      requires Valid() && Can(a, next, if state == expected then new_ else state, None, Keep, Keep)
      modifies this
      ensures Did(a, next) && seen == old(state)
      ensures Is(if old(state) == expected then new_ else old(state), old(mutex), old(noReaders), old(noWriter))
      ensures Made(a.id) == old(Made(a.id)) + [Word(old(state), if old(state) == expected then new_ else old(state))]
    {
      var before := View();
      seen := state;
      if state == expected { state := new_; }
      Record(a, before, next);
    }

    method FetchAdd(a: Action, n: int, ghost next: Next) returns (seen: int)
      requires Valid() && Can(a, next, state + n, None, Keep, Keep)
      modifies this
      ensures Did(a, next) && Is(old(state) + n, old(mutex), old(noReaders), old(noWriter)) && seen == old(state)
      ensures Made(a.id) == old(Made(a.id)) + [Word(old(state), old(state) + n)]
    {
      var before := View();
      seen := state;
      state := state + n;
      Record(a, before, next);
    }

    /** `fetch_or(WRITER_BIT)` */
    method FetchOr(a: Action, ghost next: Next) returns (seen: int)
      requires Valid() && Can(a, next, if state % 2 == 0 then state + 1 else state, None, Keep, Keep)
      modifies this
      ensures Did(a, next) && seen == old(state)
      ensures Is(if old(state) % 2 == 0 then old(state) + 1 else old(state), old(mutex), old(noReaders), old(noWriter))
      ensures Made(a.id) == old(Made(a.id))
              + [Word(old(state), if old(state) % 2 == 0 then old(state) + 1 else old(state))]
    {
      var before := View();
      seen := state;
      if state % 2 == 0 { state := state + 1; }
      Record(a, before, next);
    }

    /** `fetch_and(!WRITER_BIT)` */
    method FetchAnd(a: Action, ghost next: Next)
      requires Valid() && Can(a, next, state - state % 2, None, Keep, Keep)
      modifies this
      ensures Did(a, next) && Is(old(state) - old(state) % 2, old(mutex), old(noReaders), old(noWriter))
      ensures Made(a.id) == old(Made(a.id)) + [Word(old(state), old(state) - old(state) % 2)]
    {
      var before := View();
      state := state - state % 2;
      Record(a, before, next);
    }

    /** One atomic operation on the inner mutex. */
    method OnMutex(a: Action, ma: M.Action, ghost next: Next)
      requires Valid() && Can(a, next, state, Some(ma), Keep, Keep)
      modifies this
      ensures M.Enabled(old(mutex), ma)
      ensures Did(a, next) && Is(old(state), M.Apply(old(mutex), ma), old(noReaders), old(noWriter))
      ensures Made(a.id) == old(Made(a.id)) + [InMutex(ma)]
    {
      var before := View();
      mutex := M.Apply(mutex, ma);
      Record(a, before, next);
    }

    method OnReaders(a: Action, op: EventOp, ghost next: Next)
      requires Valid() && !op.Keep? && Can(a, next, state, None, op, Keep)
      modifies this
      ensures Did(a, next) && Is(old(state), old(mutex), OnEvent(old(noReaders), a.id, op), old(noWriter))
      ensures Made(a.id) == old(Made(a.id)) + [AtReaders(op)]
      ensures op.DoNotify? ==> TopsUp(old(noReaders), noReaders, 1)
      ensures op.DoListen? ==> Queue(noReaders) == Queue(old(noReaders)) + [a.id]
    {
      NotifyInOrder(noReaders, 1);
      var before := View();
      noReaders := OnEvent(noReaders, a.id, op);
      Record(a, before, next);
    }

    method OnWriters(a: Action, op: EventOp, ghost next: Next)
      requires Valid() && !op.Keep? && Can(a, next, state, None, Keep, op)
      modifies this
      ensures Did(a, next) && Is(old(state), old(mutex), old(noReaders), OnEvent(old(noWriter), a.id, op))
      ensures Made(a.id) == old(Made(a.id)) + [AtWriters(op)]
      ensures op.DoNotify? ==> TopsUp(old(noWriter), noWriter, 1)
      ensures op.DoListen? ==> Queue(noWriter) == Queue(old(noWriter)) + [a.id]
    {
      NotifyInOrder(noWriter, 1);
      var before := View();
      noWriter := OnEvent(noWriter, a.id, op);
      Record(a, before, next);
    }

    /** Any number of atomic operations of other tasks; none of them ends the process, as nothing
        would follow. */
    method Others(id: Id)
      requires Valid() && id in procs
      modifies this
      ensures OnlyOthers(id)
    {
      var acts: seq<Action> := *;
      for i := 0 to |acts|
        invariant OnlyOthers(id)
      {
        if Enabled(View(), acts[i]) && acts[i].id != id && !Apply(View(), acts[i]).aborted {
          Play(acts[i], id);
        }
      }
    }

    method Play(a: Action, ghost id: Id)
      requires Valid() && Enabled(View(), a) && a.id != id && id in procs && !Apply(View(), a).aborted
      modifies this
      ensures Valid() && trace == old(trace) + [a] && Untouched(old(View()), View(), id)
      ensures Made(id) == old(Made(id))
    {
      Sound();
      OthersLeave(View(), a, id);
      var before := View();
      var after := Apply(before, a);
      state, mutex, noReaders, noWriter := after.word, after.m, after.noReaders, after.noWriter;
      Record(a, before, EffectOf(before, a).next);
    }

    /** Others run while `id` is at `pc`. */
    method Yield(id: Id, ghost pc: Pc)
      requires Here(id, pc)
      modifies this
      ensures Here(id, pc) && old(trace) <= trace
      ensures SameSeat(old(noReaders), noReaders, id) && SameSeat(old(noWriter), noWriter, id)
      ensures Shares(pc) || OwnsBit(pc) ==> value == old(value)
      ensures Made(id) == old(Made(id))
    {
      Others(id);
    }

    /** The next step of `id`. */
    method Next(id: Id) returns (a: Action)
      ensures a.Step? && a.id == id && a.gid !in procs
    {
      var g := Fresh();
      var late: bool := *;
      return Step(id, late, g);
    }

    // ----- unlocking -----

    /** A holder of the inner mutex can release it. */
    lemma HolderCanUnlock(id: Id)
      requires Valid() && !aborted && id in procs && HoldsMutex(procs[id])
      ensures M.Enabled(mutex, M.Unlock(id))
    {
      Sound();
      assert PlacedNow(View(), id);
      RecountGone(procs, id, HoldsMutex);
    }

    lemma ReleaserCanNotify(id: Id)
      requires Valid() && !aborted && id in procs && ReleasesMutex(procs[id])
      ensures M.Enabled(mutex, M.UnlockNotify(id))
    {
      Sound();
      assert PlacedNow(View(), id);
    }

    lemma GuardsDoNotListen(id: Id)
      requires Valid() && id in procs && procs[id].Held?
      ensures !Listening(noReaders, id) && !Listening(noWriter, id)
    {
      Sound();
      assert PlacedNow(View(), id);
    }

    lemma Unknown(id: Id)
      requires Valid() && id !in procs
      ensures !Listening(noReaders, id) && !Listening(noWriter, id)
      ensures id !in mutex.ops && id !in mutex.releasing
    {
      Sound();
      assert PlacedNow(View(), id);
    }

    /** Where an unlock of the inner mutex goes after `mid`. */
    function AfterUnlock(id: Id, mid: Release): Next
      reads this
    {
      match mid
      case DownUpMutexNotify => Goto(Held(ReadGuard))
      case DownMutexNotify => Goto(Releasing(DownNotify))
      case _ => if Listening(noReaders, id) then Goto(Releasing(WriteUnlockListener)) else Gone
    }

    /** `unlock_unchecked` of the inner mutex, where `a` is the step that changes the mutex word and
        `mid` where it leads. */
    method UnlockMutex(a: Action, id: Id, ghost mid: Release)
      requires Valid() && !aborted && a.id == id && Can(a, Goto(Releasing(mid)), state, Some(M.Unlock(id)), Keep, Keep)
      requires ReleasesMutex(Releasing(mid)) && (Listening(noReaders, id) ==> mid.WriteUnlockMutexNotify?)
      modifies this
      ensures Valid() && !aborted && old(trace) + [a] <= trace
      ensures At(procs, id) == Fate(Some(Releasing(mid)), old(AfterUnlock(id, mid)))
      ensures Listening(noReaders, id) <==> old(Listening(noReaders, id))
      ensures Shares(Releasing(mid)) ==> value == old(value)
      ensures Made(id) == old(Made(id)) + MutexUnlock(id)
    {
      OnMutex(a, M.Unlock(id), Goto(Releasing(mid)));
      NotifyMutex(id, mid);
    }

    method NotifyMutex(id: Id, ghost mid: Release)
      requires Here(id, Releasing(mid))
      requires ReleasesMutex(Releasing(mid)) && (Listening(noReaders, id) ==> mid.WriteUnlockMutexNotify?)
      modifies this
      ensures Valid() && !aborted && old(trace) <= trace
      ensures At(procs, id) == Fate(Some(Releasing(mid)), old(AfterUnlock(id, mid)))
      ensures Listening(noReaders, id) <==> old(Listening(noReaders, id))
      ensures Shares(Releasing(mid)) ==> value == old(value)
      ensures Made(id) == old(Made(id)) + [InMutex(M.UnlockNotify(id))]
    {
      Yield(id, Releasing(mid));
      ReleaserCanNotify(id);
      var b := Next(id);
      OnMutex(b, M.UnlockNotify(id), AfterUnlock(id, mid));
    }

    /** The operations of `unlock_unchecked` on the inner mutex. */
    function MutexUnlock(id: Id): seq<Op> {
      [InMutex(M.Unlock(id)), InMutex(M.UnlockNotify(id))]
    }

    /** The operations of `write_unlock` on a lock whose word is `word`. */
    function WriteUnlockOps(word: int, id: Id): seq<Op> {
      [Word(word, word - word % 2), AtWriters(DoNotify)] + MutexUnlock(id)
    }

    /** Drops a read guard. */
    method ReadUnlock(id: Id)
      requires Valid() && !aborted && At(procs, id) == Some(Held(ReadGuard))
      modifies this
      ensures Valid() && !aborted && id !in procs
      ensures old(trace) + [DropGuard(id)] <= trace
      ensures Made(id) == old(Made(id)) + [Word(old(state), old(state) - 2)]
              + (if old(state) == 2 || old(state) == 3 then [AtReaders(DoNotify)] else [])
    {
      var seen := FetchAdd(DropGuard(id), -2, if LastReader(state) then Goto(Releasing(ReadUnlockNotify)) else Gone);
      if LastReader(seen) {
        Others(id);
        var a := Next(id);
        OnReaders(a, DoNotify, Gone);
      }
    }

    /** Where an unlock stands when it turns to the inner mutex, and where it goes then. */
    predicate Unlocking(x: Release, mid: Release) {
      || (x.UpUnlockMutex? && mid.MutexNotify?)
      || (x.TryWriteUnlock? && mid.MutexNotify?)
      || (x.WriteUnlockMutex? && mid.WriteUnlockMutexNotify?)
      || (x.DownMutex? && mid.DownMutexNotify?)
    }

    method UnlockFrom(id: Id, ghost x: Release, ghost mid: Release)
      requires Here(id, Releasing(x)) && Unlocking(x, mid)
      requires Listening(noReaders, id) ==> x.WriteUnlockMutex?
      modifies this
      ensures Valid() && !aborted && old(trace) <= trace
      ensures At(procs, id) == Fate(Some(Releasing(mid)), old(AfterUnlock(id, mid)))
      ensures Listening(noReaders, id) <==> old(Listening(noReaders, id))
      ensures x.DownMutex? ==> value == old(value)
      ensures Made(id) == old(Made(id)) + MutexUnlock(id)
    {
      Yield(id, Releasing(x));
      HolderCanUnlock(id);
      var a := Next(id);
      UnlockMutex(a, id, mid);
    }

    /** Drops an upgradable guard. */
    method UpgradableReadUnlock(id: Id)
      requires Here(id, Held(UpgradableGuard))
      modifies this
      ensures Valid() && !aborted && id !in procs
      ensures old(trace) + [DropGuard(id)] <= trace
      ensures Made(id) == old(Made(id)) + [Word(old(state), old(state) - 2)]
              + (if old(state) == 2 || old(state) == 3 then [AtReaders(DoNotify)] else []) + MutexUnlock(id)
    {
      GuardsDoNotListen(id);
      var seen := FetchAdd(DropGuard(id), -2,
          Goto(Releasing(if LastReader(state) then UpUnlockNotify else UpUnlockMutex)));
      if LastReader(seen) { NotifyReaders(id); }
      UnlockFrom(id, UpUnlockMutex, MutexNotify);
    }

    method NotifyReaders(id: Id)
      requires Here(id, Releasing(UpUnlockNotify))
      modifies this
      ensures Here(id, Releasing(UpUnlockMutex)) && old(trace) <= trace
      ensures Listening(noReaders, id) <==> old(Listening(noReaders, id))
      ensures Made(id) == old(Made(id)) + [AtReaders(DoNotify)]
    {
      Yield(id, Releasing(UpUnlockNotify));
      var a := Next(id);
      OnReaders(a, DoNotify, Goto(Releasing(UpUnlockMutex)));
    }

    /** Clears the writer bit by the action `a`, for a write guard, a waiting writer or an upgrade. */
    method WriteUnlock(a: Action)
      requires Valid() && Can(a, Goto(Releasing(WriteUnlockNotify)), state - state % 2, None, Keep, Keep)
      modifies this
      ensures Valid() && !aborted && old(trace) + [a] <= trace
      ensures At(procs, a.id) == if old(Listening(noReaders, a.id)) then Some(Releasing(WriteUnlockListener)) else None
      ensures Listening(noReaders, a.id) <==> old(Listening(noReaders, a.id))
      ensures Made(a.id) == old(Made(a.id)) + WriteUnlockOps(old(state), a.id)
    {
      ClearBitAndNotify(a);
      UnlockAfterWrite(a.id);
    }

    method UnlockAfterWrite(id: Id)
      requires Here(id, Releasing(WriteUnlockMutex))
      modifies this
      ensures Valid() && !aborted && old(trace) <= trace
      ensures At(procs, id) == if old(Listening(noReaders, id)) then Some(Releasing(WriteUnlockListener)) else None
      ensures Listening(noReaders, id) <==> old(Listening(noReaders, id))
      ensures Made(id) == old(Made(id)) + MutexUnlock(id)
    {
      UnlockFrom(id, WriteUnlockMutex, WriteUnlockMutexNotify);
    }

    method ClearBitAndNotify(a: Action)
      requires Valid() && Can(a, Goto(Releasing(WriteUnlockNotify)), state - state % 2, None, Keep, Keep)
      modifies this
      ensures Here(a.id, Releasing(WriteUnlockMutex)) && old(trace) + [a] <= trace
      ensures Listening(noReaders, a.id) <==> old(Listening(noReaders, a.id))
      ensures Made(a.id) == old(Made(a.id)) + [Word(old(state), old(state) - old(state) % 2), AtWriters(DoNotify)]
    {
      FetchAnd(a, Goto(Releasing(WriteUnlockNotify)));
      NotifyWriters(a.id);
    }

    method NotifyWriters(id: Id)
      requires Here(id, Releasing(WriteUnlockNotify))
      modifies this
      ensures Here(id, Releasing(WriteUnlockMutex)) && old(trace) <= trace
      ensures Listening(noReaders, id) <==> old(Listening(noReaders, id))
      ensures Made(id) == old(Made(id)) + [AtWriters(DoNotify)]
    {
      Yield(id, Releasing(WriteUnlockNotify));
      var a := Next(id);
      OnWriters(a, DoNotify, Goto(Releasing(WriteUnlockMutex)));
    }

    /** Drops a write guard. */
    method DropWriteGuard(id: Id)
      requires Here(id, Held(WriteGuard))
      modifies this
      ensures Valid() && !aborted && id !in procs
      ensures old(trace) + [DropGuard(id)] <= trace
      ensures Made(id) == old(Made(id)) + WriteUnlockOps(old(state), id)
    {
      GuardsDoNotListen(id);
      WriteUnlock(DropGuard(id));
    }

    lemma WriterFindsOne(id: Id)
      requires Here(id, Held(WriteGuard))
      ensures state == 1
    {
      Sound();
    }

    lemma AloneIsTwo(id: Id)
      requires Here(id, Held(UpgradableGuard))
      ensures state == 2 <==> forall y :: y in procs && y != id ==> !Shares(procs[y])
    {
      Sound();
      assert Owners(procs) == {} by {
        forall y | y in Owners(procs) ensures y == id { OneHolder(View(), id, y); }
      }
      assert id in Sharers(procs);
      assert |Sharers(procs) - {id}| == |Sharers(procs)| - 1;
      if state == 2 {
        assert Sharers(procs) - {id} == {};
        assert forall y :: y in procs && y != id && Shares(procs[y]) ==> y in Sharers(procs) - {id};
      }
      if forall y :: y in procs && y != id ==> !Shares(procs[y]) {
        assert Sharers(procs) == {id};
      }
    }

    // ----- conversions of a guard; the data keeps its value across each -----

    method DowngradeUpgradableRead(id: Id)
      requires Here(id, Held(UpgradableGuard))
      modifies this
      ensures Here(id, Held(ReadGuard)) && value == old(value)
      ensures old(trace) + [Convert(id, DowngradeUpgradable)] <= trace
      ensures Made(id) == old(Made(id)) + MutexUnlock(id)
    {
      HolderCanUnlock(id);
      GuardsDoNotListen(id);
      UnlockMutex(Convert(id, DowngradeUpgradable), id, DownUpMutexNotify);
    }

    method DowngradeWrite(id: Id)
      requires Here(id, Held(WriteGuard))
      modifies this
      ensures Here(id, Held(ReadGuard)) && value == old(value)
      ensures old(trace) + [Convert(id, Conversion.DowngradeWrite)] <= trace
      ensures Made(id) == old(Made(id)) + [Word(1, 2)] + MutexUnlock(id) + [AtWriters(DoNotify)]
    {
      GuardsDoNotListen(id);
      WriterFindsOne(id);
      var seen := FetchAdd(Convert(id, Conversion.DowngradeWrite), 1, Goto(Releasing(DownMutex)));
      UnlockFrom(id, DownMutex, DownMutexNotify);
      NotifyNextReader(id);
    }

    method NotifyNextReader(id: Id)
      requires Here(id, Releasing(DownNotify))
      modifies this
      ensures Here(id, Held(ReadGuard)) && value == old(value) && old(trace) <= trace
      ensures Made(id) == old(Made(id)) + [AtWriters(DoNotify)]
    {
      Yield(id, Releasing(DownNotify));
      var a := Next(id);
      OnWriters(a, DoNotify, Goto(Held(ReadGuard)));
    }

    method DowngradeToUpgradable(id: Id)
      requires Here(id, Held(WriteGuard))
      modifies this
      ensures Here(id, Held(UpgradableGuard)) && value == old(value)
      ensures trace == old(trace) + [Convert(id, Conversion.DowngradeToUpgradable)]
      ensures old(state) == 1 && state == 2
    {
      WriterFindsOne(id);
      var seen := FetchAdd(Convert(id, Conversion.DowngradeToUpgradable), 1, Goto(Held(UpgradableGuard)));
    }

    /** Succeeds exactly when the upgradable guard is alone. */
    method TryUpgrade(id: Id) returns (upgraded: bool)
      requires Here(id, Held(UpgradableGuard))
      modifies this
      ensures Here(id, Held(if upgraded then WriteGuard else UpgradableGuard)) && value == old(value)
      ensures upgraded <==> old(state) == 2
      ensures upgraded <==> forall y :: y in old(procs) && y != id ==> !Shares(old(procs)[y])
    {
      AloneIsTwo(id);
      var seen := CompareExchange(Convert(id, Conversion.TryUpgrade), 2, 1,
                                  Goto(Held(if state == 2 then WriteGuard else UpgradableGuard)));
      upgraded := seen == 2;
    }

    // ----- attempts -----

    /** Fails exactly when the writer bit is seen; each lost race is tried again. */
    method TryRead(id: Id, turns: nat) returns (outcome: Attempt)
      requires Valid() && !aborted && id !in procs
      modifies this
      ensures Valid() && old(trace) + [Call(id, CallKind.TryRead)] <= trace
      ensures outcome.Acquired? ==> Here(id, Held(ReadGuard)) && state % 2 == 0
      ensures outcome.Refused? ==> id !in procs && state % 2 == 1
      ensures outcome.Halted? <==> aborted
      ensures outcome.Stopped? ==> |trace| > |old(trace)| + turns
      ensures outcome.Halted? ==> Overflows(Initial(initial), trace)
    {
      var left := turns;
      var seen := Load(Call(id, CallKind.TryRead), if state % 2 == 1 then Gone else Goto(Reading(TryReadCas(state))));
      while true
        invariant seen % 2 == 1 ==> Valid() && !aborted && id !in procs && state % 2 == 1
        invariant seen % 2 == 0 ==> Here(id, Reading(TryReadCas(seen)))
        invariant old(trace) + [Call(id, CallKind.TryRead)] <= trace
        invariant |trace| + left > |old(trace)| + turns
        decreases left
      {
        if seen % 2 == 1 { return Refused; }
        if left == 0 { return Stopped; }
        left := left - 1;
        var acquired;
        acquired, seen := TryIncrement(id, seen);
        if aborted { AbortedOnOverflow(); return Halted; }
        if acquired { return Acquired; }
      }
    }

    method TryIncrement(id: Id, last: int) returns (acquired: bool, seen: int)
      requires Here(id, Reading(TryReadCas(last))) && last % 2 == 0
      modifies this
      ensures Valid() && old(trace) < trace
      ensures acquired && !aborted ==> Here(id, Held(ReadGuard)) && state % 2 == 0
      ensures !acquired && !aborted ==>
                if seen % 2 == 1 then id !in procs && state % 2 == 1 else Here(id, Reading(TryReadCas(seen)))
      ensures !aborted ==> Made(id) == old(Made(id)) + [if acquired then Word(last, last + 2) else Word(seen, seen)]
    {
      Yield(id, Reading(TryReadCas(last)));
      var a := Next(id);
      if last > ISIZE_MAX {
        seen := Load(a, Halt);
        return false, seen;
      }
      seen := CompareExchange(a, last, last + 2,
                              if state == last then Goto(Held(ReadGuard)) else if state % 2 == 1 then Gone
                              else Goto(Reading(TryReadCas(state))));
      acquired := seen == last;
    }

    /** Takes the inner mutex or fails at once; then the reader count grows whatever the word says. */
    method TryUpgradableRead(id: Id, turns: nat) returns (outcome: Attempt)
      requires Valid() && !aborted && id !in procs
      modifies this
      ensures Valid() && old(trace) + [Call(id, CallKind.TryUpgradableRead)] <= trace
      ensures outcome.Acquired? ==> Here(id, Held(UpgradableGuard)) && state % 2 == 0
      ensures outcome.Refused? <==> old(mutex.word) != 0
      ensures outcome.Refused? ==> id !in procs
      ensures outcome.Halted? <==> aborted
      ensures outcome.Stopped? ==> |trace| > |old(trace)| + turns
      ensures outcome.Halted? ==> Overflows(Initial(initial), trace)
    {
      var free := mutex.word == 0;
      OnMutex(Call(id, CallKind.TryUpgradableRead), M.TryLock, if free then Goto(Upgrading(ULoad(false))) else Gone);
      if !free { return Refused; }
      var guard;
      outcome, guard := CountUpgradable(id, false, turns);
    }

    /** Where a counted upgradable reader is, and where its guard. */
    ghost predicate Counted(id: Id, guard: Id, keep: bool)
      reads this
    {
      && Here(guard, Held(UpgradableGuard))
      && (if keep then Here(id, Finished(UpgradableFuture)) else guard == id)
    }

    /** The word is loaded, checked for overflow once, and increased by a compare-exchange loop that
        never looks at the writer bit: whoever holds the inner mutex finds it clear. */
    method CountUpgradable(id: Id, keep: bool, turns: nat) returns (outcome: Attempt, guard: Id)
      requires Here(id, Upgrading(ULoad(keep)))
      modifies this
      ensures Valid() && old(trace) <= trace
      ensures outcome.Acquired? ==> Counted(id, guard, keep) && state % 2 == 0
      ensures !outcome.Refused?
      ensures outcome.Halted? <==> aborted
      ensures outcome.Stopped? ==> |trace| > |old(trace)| + turns
      ensures outcome.Halted? ==> Overflows(Initial(initial), trace)
    {
      var left := turns;
      Yield(id, Upgrading(ULoad(keep)));
      var a := Next(id);
      var seen := Load(a, if state > ISIZE_MAX then Halt else Goto(Upgrading(UCas(state, keep))));
      if seen > ISIZE_MAX { AbortedOnOverflow(); return Halted, id; }
      while true
        invariant Here(id, Upgrading(UCas(seen, keep))) && old(trace) <= trace
        invariant |trace| + left > |old(trace)| + turns
        decreases left
      {
        if left == 0 { return Stopped, id; }
        left := left - 1;
        var acquired;
        acquired, seen, guard := IncrementUpgradable(id, seen, keep);
        if acquired { return Acquired, guard; }
      }
    }

    method IncrementUpgradable(id: Id, last: int, keep: bool) returns (acquired: bool, seen: int, guard: Id)
      requires Here(id, Upgrading(UCas(last, keep)))
      modifies this
      ensures old(trace) < trace
      ensures acquired ==> Counted(id, guard, keep) && state % 2 == 0
      ensures !acquired ==> Here(id, Upgrading(UCas(seen, keep)))
      ensures acquired ==> Made(id) == old(Made(id)) + [Word(last, last + 2)]
      ensures !acquired ==> Made(id) == old(Made(id)) + [Word(seen, seen)]
    {
      Yield(id, Upgrading(UCas(last, keep)));
      BitIsClear(id);
      var a := Next(id);
      guard := if keep then a.gid else id;
      seen := CompareExchange(a, last, last + 2,
                              if state != last then Goto(Upgrading(UCas(state, keep)))
                              else if keep then Complete(UpgradableFuture, UpgradableGuard)
                              else Goto(Held(UpgradableGuard)));
      acquired := seen == last;
    }

    lemma BitIsClear(id: Id)
      requires Valid() && id in procs
      requires HoldsMutex(procs[id]) && !OwnsBit(procs[id])
      ensures state % 2 == 0
    {
      Sound();
      BitIsOwners(View(), id);
    }

    /** After the first `k` recorded operations the word was not zero. */
    ghost predicate WordWasBusy(k: nat)
      reads this
    {
      k <= |trace| && CanRun(Initial(initial), trace[..k]) && Run(Initial(initial), trace[..k]).word != 0
    }

    /** Succeeds exactly when both the inner mutex and, after it, the word are free; a refusal means that
        the one was taken at the call or the other was in use at some moment during it. */
    method TryWrite(id: Id) returns (outcome: Attempt)
      requires Valid() && !aborted && id !in procs
      modifies this
      ensures Valid() && !aborted && old(trace) + [Call(id, CallKind.TryWrite)] <= trace
      ensures outcome.Acquired? ==> Here(id, Held(WriteGuard)) && state == 1
      ensures outcome.Refused? ==> id !in procs
      ensures !outcome.Stopped? && !outcome.Halted?
      ensures old(mutex.word) != 0 ==> outcome.Refused?
      ensures outcome.Refused? ==> old(mutex.word) != 0 || exists k :: |old(trace)| < k && WordWasBusy(k)
    {
      var free := mutex.word == 0;
      OnMutex(Call(id, CallKind.TryWrite), M.TryLock, if free then Goto(Writing(TryWriteCas)) else Gone);
      if !free { return Refused; }
      var acquired, k := TakeWord(id);
      if acquired { return Acquired; }
      DoesNotListen(id);
      ghost var log := trace[..k];
      UnlockFrom(id, TryWriteUnlock, MutexNotify);
      assert trace[..k] == log && WordWasBusy(k);
      return Refused;
    }

    method TakeWord(id: Id) returns (acquired: bool, ghost k: nat)
      requires Here(id, Writing(TryWriteCas))
      modifies this
      ensures Here(id, if acquired then Held(WriteGuard) else Releasing(TryWriteUnlock)) && old(trace) <= trace
      ensures acquired ==> state == 1
      ensures !acquired ==> |old(trace)| <= k && WordWasBusy(k)
    {
      Yield(id, Writing(TryWriteCas));
      k := |trace|;
      ghost var log := trace;
      assert trace[..k] == log;
      var a := Next(id);
      var seen := CompareExchange(a, 0, 1, Goto(if state == 0 then Held(WriteGuard) else Releasing(TryWriteUnlock)));
      acquired := seen == 0;
      assert trace[..k] == log;
    }

    lemma DoesNotListen(id: Id)
      requires Here(id, Releasing(TryWriteUnlock))
      ensures !Listening(noReaders, id)
    {
      Sound();
      assert PlacedNow(View(), id);
    }

    // ----- steps of the futures -----

    /** A woken reader wakes the next one. */
    method PassOn(id: Id)
      requires Here(id, Reading(RNotify))
      modifies this
      ensures Here(id, Reading(RLoad)) && old(trace) <= trace
      ensures Listening(noWriter, id) <==> old(Listening(noWriter, id))
      ensures Made(id) == old(Made(id)) + [AtWriters(DoNotify)]
    {
      Yield(id, Reading(RNotify));
      var a := Next(id);
      OnWriters(a, DoNotify, Goto(Reading(RLoad)));
    }

    /** Drops the inner `Lock` future: a starved one gives its count back before its listener goes. */
    method DropLock(id: Id, ghost pc: Pc)
      requires Here(id, pc) && (pc == Upgrading(ULock) || pc == Writing(WLock) || pc == Finished(UpgradableFuture))
      requires M.CanDrop(mutex, id)
      modifies this
      ensures Valid() && !aborted && id !in procs && old(trace) + [DropFuture(id)] <= trace
    {
      var starved := id in mutex.ops && mutex.ops[id].FairWait?;
      OnMutex(DropFuture(id), M.DropFuture(id), if starved then Goto(Releasing(LockClosing)) else Gone);
      if starved { FinishDropLock(id); }
    }

    lemma Leaving(id: Id)
      requires Here(id, Releasing(LockClosing))
      ensures M.Enabled(mutex, M.Step(id, false)) && !M.Apply(mutex, M.Step(id, false)).aborted
    {
      Sound();
      assert PlacedNow(View(), id);
    }

    /** Sets the writer bit.  The word it finds is even: the early return of the source, for a word that is
        equal to the bit, is never taken. */
    method MarkWriter(id: Id) returns (ghost seen: int)
      requires Here(id, Writing(WOr))
      modifies this
      ensures Here(id, Writing(WListen)) && old(trace) < trace
      ensures Listening(noReaders, id) <==> old(Listening(noReaders, id))
      ensures seen % 2 == 0 && Made(id) == old(Made(id)) + [Word(seen, seen + 1)]
    {
      Yield(id, Writing(WOr));
      BitIsClear(id);
      var a := Next(id);
      var found := FetchOr(a, Goto(Writing(WListen)));
      assert found != 1;
      seen := found;
    }

    method CloseLockFuture(id: Id)
      requires Here(id, Writing(WClose))
      modifies this
      ensures Here(id, Writing(WCheck)) && old(trace) <= trace
      ensures Listening(noReaders, id) <==> old(Listening(noReaders, id))
      ensures Made(id) == old(Made(id)) + [InMutex(M.DropFuture(id))]
    {
      Yield(id, Writing(WClose));
      LockFutureDone(id);
      var a := Next(id);
      OnMutex(a, M.DropFuture(id), Goto(Writing(WCheck)));
    }

    method FinishDropLock(id: Id)
      requires Here(id, Releasing(LockClosing))
      modifies this
      ensures Valid() && !aborted && id !in procs && old(trace) <= trace
    {
      Yield(id, Releasing(LockClosing));
      Leaving(id);
      var a := Next(id);
      OnMutex(a, M.Step(id, false), Gone);
    }

    method FinishCancel(id: Id)
      requires Here(id, Releasing(WriteUnlockListener))
      modifies this
      ensures Valid() && !aborted && id !in procs && old(trace) <= trace
      ensures Made(id) == old(Made(id)) + [AtReaders(DoDrop)]
    {
      Yield(id, Releasing(WriteUnlockListener));
      var a := Next(id);
      OnReaders(a, DoDrop, Gone);
    }

    /** Clears the bit for a cancelled writer or upgrade, and drops its listener. */
    method Cancel(id: Id)
      requires Here(id, Writing(WWait)) || Here(id, Raising(PNew)) || Here(id, Raising(PWait))
      modifies this
      ensures Valid() && !aborted && id !in procs && old(trace) + [DropFuture(id)] <= trace
      ensures Made(id) == old(Made(id)) + WriteUnlockOps(old(state), id)
                           + (if old(Listening(noReaders, id)) then [AtReaders(DoDrop)] else [])
    {
      WriteUnlock(DropFuture(id));
      if id in procs { FinishCancel(id); }
    }

    /** Nobody but the write guard `g` holds anything. */
    ghost predicate Alone(g: Id)
      reads this
    {
      Here(g, Held(WriteGuard)) && state == 1 && forall y :: y in procs && y != g ==> !procs[y].Held?
    }

    lemma WriterIsAlone(g: Id)
      requires Here(g, Held(WriteGuard))
      ensures Alone(g)
    {
      Sound();
      Exclusion(View());
      forall y | y in procs && y != g ensures !procs[y].Held? {
        if procs[y].Held? {
          match procs[y].g case ReadGuard => case UpgradableGuard => case WriteGuard =>
        }
      }
    }

    /** A lock future that cannot step, or that completed, can be dropped. */
    lemma Suspended(id: Id)
      requires Here(id, Upgrading(ULock)) || Here(id, Writing(WLock)) || Here(id, Finished(UpgradableFuture))
      requires Here(id, Finished(UpgradableFuture)) || !M.CanStep(mutex, id)
      ensures M.CanDrop(mutex, id)
    {
      Sound();
      assert PlacedNow(View(), id);
    }

    lemma LockFutureDone(id: Id)
      requires Here(id, Writing(WClose))
      ensures M.CanDrop(mutex, id) && mutex.ops[id].Done?
    {
      Sound();
      assert PlacedNow(View(), id);
    }

    /** The last of the operations that `id` made since it had made `n` was to find readers left. */
    ghost predicate LastSawReaders(id: Id, n: nat)
      reads this
      requires CanRun(Initial(initial), trace)
    {
      var made := Made(id);
      |made| > n && made[|made| - 1].Word? && made[|made| - 1].from != 1 && made[|made| - 1].to == made[|made| - 1].from
    }

    // ----- the inner lock future -----

    /** Polls the inner `Lock` future of a pending upgradable read or write. */
    method PollLock(id: Id, pc: Pc, ghost won: Pc, turns: nat) returns (outcome: Attempt)
      requires Here(id, pc)
      requires (pc == Upgrading(ULock) && won == Upgrading(ULoad(true)))
               || (pc == Writing(WLock) && won == Writing(WOr))
      modifies this
      ensures Valid() && old(trace) <= trace
      ensures outcome.Acquired? ==> Here(id, won)
      ensures outcome.Refused? ==> Here(id, pc) && !M.CanStep(mutex, id) && (mutex.word % 2 == 0 ==> M.InTransit(mutex))
      ensures outcome.Halted? <==> aborted
      ensures Listening(noReaders, id) <==> old(Listening(noReaders, id))
      ensures outcome.Stopped? ==> |trace| >= |old(trace)| + turns
      ensures outcome.Acquired? ==> |trace| > |old(trace)|
      ensures outcome.Halted? ==> Overflows(Initial(initial), trace)
      ensures |Made(id)| >= |old(Made(id))|
    {
      var left := turns;
      while true
        invariant Here(id, pc) && old(trace) <= trace && (Listening(noReaders, id) <==> old(Listening(noReaders, id)))
        invariant |trace| + left >= |old(trace)| + turns && |Made(id)| >= |old(Made(id))|
        decreases left
      {
        if left == 0 { return Stopped; }
        left := left - 1;
        if !M.CanStep(mutex, id) { ParkedOnMutex(id); return Refused; }
        var completes := M.Completes(mutex, id);
        var a := Next(id);
        OnMutex(a, M.Step(id, a.late), Goto(if completes then won else pc));
        if aborted { AbortedOnOverflow(); return Halted; }
        if completes { return Acquired; }
        Yield(id, pc);
      }
    }

    lemma ParkedOnMutex(id: Id)
      requires Here(id, Upgrading(ULock)) || Here(id, Writing(WLock))
      requires !M.CanStep(mutex, id)
      ensures mutex.word % 2 == 0 ==> M.InTransit(mutex)
    {
      Sound();
      assert PlacedNow(View(), id);
      assert M.Unwoken(mutex, id);
    }
  }

  /** `Refused` also stands for a pending inner poll, `Stopped` for a task that never went on. */
  datatype Attempt = Acquired | Refused | Stopped | Halted

  /** `guard` names the guard that a completed future hands out. */
  datatype Poll = Ready(guard: Id) | Pending | Preempted | Aborted

  /** The future of `read`. */
  class RawRead {
    const lock: RawRwLock
    const id: Id
    var state: int        // the last observed word
    var listener: bool
    var done: bool

    ghost predicate Valid()
      reads this, lock
    {
      && lock.Valid()
      && id in lock.procs
      && (listener <==> Listening(lock.noWriter, id))
      && if done then lock.procs[id] == Finished(ReadFuture)
         else (lock.procs[id] == Reading(RNew(state)) && !listener)
              || (lock.procs[id] == Reading(RWait) && listener && state % 2 == 1)
    }

    constructor (l: RawRwLock, id: Id)
      requires l.Valid() && !l.aborted && id !in l.procs
      modifies l
      ensures Valid() && !done && lock == l && this.id == id && !l.aborted
      ensures l.trace == old(l.trace) + [Call(id, Read)] && state == old(l.state)
    {
      lock, this.id, listener, done := l, id, false, false;
      new;
      l.Unknown(id);
      state := l.Load(Call(id, Read), Goto(Reading(RNew(l.state))));
    }

    /** At the head of the loop, or where it goes for the last observed word. */
    ghost predicate Looping()
      reads this, lock
    {
      && lock.Here(id, Reading(if state % 2 == 0 then RCas(state) else if listener then RWait else RListen))
      && (listener <==> Listening(lock.noWriter, id))
      && !done
    }

    /** Sees no writer: tries to count itself in. */
    method Increment() returns (outcome: Poll)
      requires Looping() && state % 2 == 0
      modifies this, lock
      ensures lock.Valid() && old(lock.trace) < lock.trace
      ensures outcome.Ready? ==> Valid() && done && lock.Here(outcome.guard, Held(ReadGuard)) && lock.state % 2 == 0
      ensures outcome.Pending? ==> Looping()
      ensures !outcome.Preempted? && (outcome.Aborted? <==> lock.aborted)
      ensures outcome.Aborted? ==> Overflows(Initial(lock.initial), lock.trace)
      ensures outcome.Ready? ==> lock.Made(id) == old(lock.Made(id)) + [Word(old(state), old(state) + 2)]
      ensures outcome.Pending? ==> lock.Made(id) == old(lock.Made(id)) + [Word(state, state)]
    {
      lock.Yield(id, Reading(RCas(state)));
      var a := lock.Next(id);
      if state > ISIZE_MAX {
        var same := lock.Load(a, Halt);
        lock.AbortedOnOverflow();
        return Aborted;
      }
      var seen := lock.CompareExchange(a, state, state + 2,
                                       if lock.state == state then Complete(ReadFuture, ReadGuard)
                                       else ReadLoop(lock.View(), id, lock.state));
      if seen == state { done := true; return Ready(a.gid); }
      state := seen;
      return Pending;
    }

    method Listen()
      requires Looping() && state % 2 == 1 && !listener
      modifies this, lock
      ensures lock.Here(id, Reading(RLoad)) && listener && Listening(lock.noWriter, id) && !done
      ensures old(lock.trace) < lock.trace
      ensures lock.Made(id) == old(lock.Made(id)) + [AtWriters(DoListen)]
    {
      lock.Yield(id, Reading(RListen));
      var a := lock.Next(id);
      lock.OnWriters(a, DoListen, Goto(Reading(RLoad)));
      listener := true;
    }

    /** Polls the listener; once woken, wakes the next reader in line. */
    method Wait() returns (ready: bool)
      requires Looping() && state % 2 == 1 && listener
      modifies this, lock
      ensures old(lock.trace) <= lock.trace
      ensures ready ==> lock.Here(id, Reading(RLoad)) && !listener && !Listening(lock.noWriter, id) && !done
      ensures !ready ==> Valid() && Looping() && state % 2 == 1 && listener
      ensures !ready ==> id in lock.noWriter.waiting && id !in lock.noWriter.notified
      ensures ready ==> lock.Made(id) == old(lock.Made(id)) + [AtWriters(DoConsume), AtWriters(DoNotify)]
    {
      lock.Yield(id, Reading(RWait));
      if id !in lock.noWriter.notified { return false; }
      var a := lock.Next(id);
      lock.OnWriters(a, DoConsume, Goto(Reading(RNotify)));
      listener := false;
      lock.PassOn(id);
      return true;
    }

    method Reload()
      requires lock.Here(id, Reading(RLoad)) && (listener <==> Listening(lock.noWriter, id)) && !done
      modifies this, lock
      ensures Looping() && old(lock.trace) < lock.trace
      ensures lock.Made(id) == old(lock.Made(id)) + [Word(state, state)]
    {
      lock.Yield(id, Reading(RLoad));
      var a := lock.Next(id);
      state := lock.Load(a, ReadLoop(lock.View(), id, lock.state));
    }

    /** The first poll starts from the word that `read` loaded. */
    method Enter()
      requires Valid() && !done && !lock.aborted
      modifies this, lock
      ensures Looping() && old(lock.trace) <= lock.trace
    {
      if lock.procs[id] == Reading(RNew(state)) {
        var a := lock.Next(id);
        lock.Note(a, ReadLoop(lock.View(), id, state));
      }
    }

    method Poll(turns: nat) returns (outcome: Poll)
      requires Valid() && !done && !lock.aborted
      modifies this, lock
      ensures lock.Valid() && old(lock.trace) <= lock.trace
      ensures outcome.Ready? ==> Valid() && done && lock.Here(outcome.guard, Held(ReadGuard)) && lock.state % 2 == 0
      ensures outcome.Pending? ==> Valid() && !done && id in lock.noWriter.waiting && id !in lock.noWriter.notified
      ensures outcome.Pending? && lock.state % 2 == 0 && NeverStrands(Initial(lock.initial), lock.trace) ==>
                ReaderInTransit(lock.View())
      ensures outcome.Pending? && lock.state % 2 == 0 ==>
                ReaderInTransit(lock.View()) || Silent(Initial(lock.initial), lock.trace, false)
      ensures outcome.Preempted? ==> |lock.trace| >= |old(lock.trace)| + turns
      ensures outcome.Aborted? <==> lock.aborted
      ensures outcome.Aborted? ==> Overflows(Initial(lock.initial), lock.trace)
    {
      var left := turns;
      Enter();
      while true
        invariant Looping() && old(lock.trace) <= lock.trace
        invariant |lock.trace| + left >= |old(lock.trace)| + turns
        decreases left
      {
        if left == 0 { return Preempted; }
        left := left - 1;
        if state % 2 == 0 {
          outcome := Increment();
          if !outcome.Pending? { return; }
        } else {
          if !listener {
            Listen();
          } else {
            var ready := Wait();
            if !ready { lock.ReadersWake(); assert UnwokenReader(lock.View(), id); return Pending; }
          }
          Reload();
        }
      }
    }

    /** Drops the future, pending or completed: an unused notification goes to the next reader. */
    method Drop()
      requires Valid() && !lock.aborted
      modifies this, lock
      ensures lock.Valid() && !lock.aborted && id !in lock.procs && !Listening(lock.noWriter, id)
      ensures lock.trace == old(lock.trace) + [DropFuture(id)]
      ensures old(id in lock.noWriter.notified) && lock.noWriter.notified == [] ==> lock.noWriter.waiting == []
    {
      lock.OnWriters(DropFuture(id), DoDrop, Gone);
      listener := false;
    }
  }

  /** The future of `upgradable_read`. */
  class RawUpgradableRead {
    const lock: RawRwLock
    const id: Id
    var done: bool

    ghost predicate Valid()
      reads this, lock
    {
      && lock.Valid()
      && id in lock.procs
      && lock.procs[id] == (if done then Finished(UpgradableFuture) else Upgrading(ULock))
      && (!lock.aborted ==> M.CanDrop(lock.mutex, id))
    }

    constructor (l: RawRwLock, id: Id)
      requires l.Valid() && !l.aborted && id !in l.procs
      modifies l
      ensures Valid() && !done && lock == l && this.id == id && !l.aborted
      ensures l.trace == old(l.trace) + [Call(id, UpgradableRead)]
    {
      lock, this.id, done := l, id, false;
      new;
      l.Unknown(id);
      l.OnMutex(Call(id, UpgradableRead), M.Spawn(id), Goto(Upgrading(ULock)));
    }

    method Poll(turns: nat) returns (outcome: Poll)
      requires Valid() && !done && !lock.aborted
      modifies this, lock
      ensures lock.Valid() && old(lock.trace) <= lock.trace
      ensures outcome.Ready? ==> Valid() && done && lock.state % 2 == 0
      ensures outcome.Ready? ==> lock.Here(outcome.guard, Held(UpgradableGuard))
      ensures outcome.Pending? ==> Valid() && !done && !M.CanStep(lock.mutex, id)
      ensures outcome.Pending? && lock.mutex.word % 2 == 0 ==> M.InTransit(lock.mutex)
      ensures outcome.Preempted? ==> |lock.trace| >= |old(lock.trace)| + turns
      ensures outcome.Aborted? <==> lock.aborted
      ensures outcome.Aborted? ==> Overflows(Initial(lock.initial), lock.trace)
    {
      var step := lock.PollLock(id, Upgrading(ULock), Upgrading(ULoad(true)), turns);
      match step {
        case Refused => lock.Suspended(id); return Pending;
        case Stopped => return Preempted;
        case Halted => return Aborted;
        case Acquired =>
          var guard;
          step, guard := lock.CountUpgradable(id, true, turns);
          if step.Acquired? { done := true; lock.Suspended(id); return Ready(guard); }
          return if step.Halted? then Aborted else Preempted;
      }
    }

    method Drop()
      requires Valid() && !lock.aborted
      modifies this, lock
      ensures lock.Valid() && !lock.aborted && id !in lock.procs && old(lock.trace) + [DropFuture(id)] <= lock.trace
    {
      lock.DropLock(id, if done then Finished(UpgradableFuture) else Upgrading(ULock));
    }
  }

  datatype WriteState = Acquiring | WaitingReaders | Finish

  /** The future of `write`. */
  class RawWrite {
    const lock: RawRwLock
    const id: Id
    var noReaders: bool      // holds a `no_readers` listener
    var state: WriteState    // `Finish` is the source's `Acquired`

    ghost predicate Valid()
      reads this, lock
    {
      && lock.Valid()
      && id in lock.procs
      && (noReaders <==> Listening(lock.noReaders, id))
      && match state
         case Acquiring => lock.procs[id] == Writing(WLock) && (!lock.aborted ==> M.CanDrop(lock.mutex, id))
         case WaitingReaders => lock.procs[id] == Writing(WWait)
         case Finish => lock.procs[id] == Finished(WriteFuture)
    }

    constructor (l: RawRwLock, id: Id)
      requires l.Valid() && !l.aborted && id !in l.procs
      modifies l
      ensures Valid() && state == Acquiring && lock == l && this.id == id && !l.aborted
      ensures l.trace == old(l.trace) + [Call(id, Write)]
    {
      lock, this.id, noReaders, state := l, id, false, Acquiring;
      new;
      l.Unknown(id);
      l.OnMutex(Call(id, Write), M.Spawn(id), Goto(Writing(WLock)));
    }

    /** At the head of the loop. */
    ghost predicate Looping()
      reads this, lock
    {
      && lock.Here(id, Writing(if state.Acquiring? then WLock else WCheck))
      && (noReaders <==> Listening(lock.noReaders, id))
      && !state.Finish?
    }

    /** Holding the inner mutex: sets the writer bit, registers, and lets go of the lock future. */
    method SetBit() returns (ghost seen: int)
      requires lock.Here(id, Writing(WOr)) && (noReaders <==> Listening(lock.noReaders, id)) && state.Acquiring?
      modifies this, lock
      ensures Looping() && state.WaitingReaders? && noReaders && old(lock.trace) < lock.trace
      ensures seen % 2 == 0
      ensures lock.Made(id) == old(lock.Made(id))
              + [Word(seen, seen + 1), AtReaders(DoListen), InMutex(M.DropFuture(id))]
    {
      seen := lock.MarkWriter(id);
      Register(WListen);
      lock.CloseLockFuture(id);
      state := WaitingReaders;
    }

    method Register(ghost w: Writer)
      requires lock.Here(id, Writing(w)) && (w.WListen? || w.WRelisten?)
      modifies this, lock
      ensures lock.Here(id, Writing(if w.WListen? then WClose else WCheck)) && old(lock.trace) < lock.trace
      ensures noReaders && Listening(lock.noReaders, id) && state == old(state)
      ensures lock.Made(id) == old(lock.Made(id)) + [AtReaders(DoListen)]
    {
      lock.Yield(id, Writing(w));
      var a := lock.Next(id);
      lock.OnReaders(a, DoListen, Goto(Writing(if w.WListen? then WClose else WCheck)));
      noReaders := true;
    }

    /** Looks at the word: done when the bit is all that is left of it. */
    method Check() returns (outcome: Poll, ghost found: int)
      requires Looping() && state.WaitingReaders?
      modifies this, lock
      ensures lock.Valid() && !lock.aborted && old(lock.trace) < lock.trace
              && (noReaders <==> Listening(lock.noReaders, id))
      ensures outcome.Ready? ==> Valid() && state.Finish? && lock.Alone(outcome.guard)
      ensures !outcome.Ready? ==>
                outcome.Pending? && state.WaitingReaders?
                    && lock.Here(id, Writing(if noReaders then WWait else WRelisten))
      ensures (outcome.Ready? <==> found == 1) && lock.Made(id) == old(lock.Made(id)) + [Word(found, found)]
    {
      lock.Yield(id, Writing(WCheck));
      var a := lock.Next(id);
      var seen := lock.Load(a, if lock.state == 1 then Complete(WriteFuture, WriteGuard)
                               else Goto(Writing(if Listening(lock.noReaders, id) then WWait else WRelisten)));
      found := seen;
      if seen == 1 {
        state := Finish;
        lock.WriterIsAlone(a.gid);
        outcome := Ready(a.gid);
      } else {
        outcome := Pending;
      }
    }

    method Wait() returns (ready: bool)
      requires lock.Here(id, Writing(WWait)) && noReaders && Listening(lock.noReaders, id) && state.WaitingReaders?
      modifies this, lock
      ensures old(lock.trace) <= lock.trace && state == old(state)
      ensures ready ==> Looping()
      ensures !ready ==> Valid() && !lock.aborted && id in lock.noReaders.waiting && id !in lock.noReaders.notified
      ensures lock.Made(id) == old(lock.Made(id)) + (if ready then [AtReaders(DoConsume)] else [])
    {
      lock.Yield(id, Writing(WWait));
      if id !in lock.noReaders.notified { return false; }
      var a := lock.Next(id);
      lock.OnReaders(a, DoConsume, Goto(Writing(WCheck)));
      noReaders := false;
      return true;
    }

    /** What a pending future waits for, and that its wake-up is on its way if it is due. */
    ghost predicate Parked()
      reads this, lock
    {
      && Valid() && !lock.aborted
      && match state
         case Acquiring => !M.CanStep(lock.mutex, id) && (lock.mutex.word % 2 == 0 ==> M.InTransit(lock.mutex))
         case WaitingReaders =>
           id in lock.noReaders.waiting && id !in lock.noReaders.notified
               && (lock.state == 1 ==> WriterWakeup(lock.View()))
         case Finish => false
    }

    /** Polls the inner lock future, and sets the bit once it is ready. */
    method Acquire(turns: nat) returns (step: Attempt)
      requires Looping() && state.Acquiring?
      modifies this, lock
      ensures lock.Valid() && old(lock.trace) <= lock.trace
      ensures step.Acquired? ==> Looping()
      ensures step.Refused? ==> Parked()
      ensures step.Halted? <==> lock.aborted
      ensures step.Stopped? ==> |lock.trace| >= |old(lock.trace)| + turns
      ensures step.Acquired? ==> |lock.trace| > |old(lock.trace)|
      ensures step.Halted? ==> Overflows(Initial(lock.initial), lock.trace)
      ensures |lock.Made(id)| >= |old(lock.Made(id))|
      ensures step.Refused? ==> state.Acquiring?
    {
      step := lock.PollLock(id, Writing(WLock), Writing(WOr), turns);
      match step {
        case Refused => lock.Suspended(id);
        case Acquired => ghost var seen := SetBit();
        case _ =>
      }
    }

    /** One turn of the wait for the readers. */
    method WaitReaders() returns (outcome: Poll, again: bool)
      requires Looping() && state.WaitingReaders?
      modifies this, lock
      ensures lock.Valid() && !lock.aborted && old(lock.trace) < lock.trace
      ensures if again then Looping()
              else if outcome.Ready? then Valid() && state.Finish? && lock.Alone(outcome.guard)
              else outcome.Pending? && Parked()
      ensures |lock.Made(id)| >= |old(lock.Made(id))|
      ensures !again && outcome.Pending? ==> lock.LastSawReaders(id, |old(lock.Made(id))|)
      ensures state.WaitingReaders? || state.Finish?
    {
      ghost var found;
      outcome, found := Check();
      if outcome.Ready? { return outcome, false; }
      if noReaders {
        again := Wait();
        lock.Sound();
      } else {
        Register(WRelisten);
        again := true;
      }
    }

    method Poll(turns: nat) returns (outcome: Poll)
      requires Valid() && !state.Finish? && !lock.aborted
      modifies this, lock
      ensures lock.Valid() && old(lock.trace) <= lock.trace
      ensures outcome.Ready? ==> Valid() && state.Finish? && lock.Alone(outcome.guard)
      ensures outcome.Pending? ==> Parked()
      ensures outcome.Preempted? ==> |lock.trace| >= |old(lock.trace)| + turns
      ensures outcome.Aborted? <==> lock.aborted
      ensures outcome.Aborted? ==> Overflows(Initial(lock.initial), lock.trace)
      ensures outcome.Pending? && state.WaitingReaders? ==> lock.LastSawReaders(id, |old(lock.Made(id))|)
    {
      var left := turns;
      if state.WaitingReaders? {
        lock.Note(Repoll(id), Goto(Writing(WCheck)));
      }
      while true
        invariant Looping() && old(lock.trace) <= lock.trace && |lock.Made(id)| >= |old(lock.Made(id))|
        invariant |lock.trace| + left >= |old(lock.trace)| + turns
        decreases left
      {
        if left == 0 { return Preempted; }
        if state.Acquiring? {
          var step := Acquire(left);
          if step.Refused? { return Pending; }
          if !step.Acquired? { return if step.Halted? then Aborted else Preempted; }
        } else {
          var again;
          outcome, again := WaitReaders();
          if !again { return; }
        }
        left := left - 1;
      }
    }

    /** Drops the future: a waiting writer gives the bit and the inner mutex back. */
    method Drop()
      requires Valid() && !lock.aborted
      modifies this, lock
      ensures lock.Valid() && !lock.aborted && id !in lock.procs && old(lock.trace) + [DropFuture(id)] <= lock.trace
      ensures old(state).WaitingReaders? ==>
                lock.Made(id) == old(lock.Made(id)) + lock.WriteUnlockOps(old(lock.state), id)
                                + (if old(noReaders) then [AtReaders(DoDrop)] else [])
      ensures old(state).Finish? ==> lock.Made(id) == old(lock.Made(id)) + [AtReaders(DoDrop)]
    {
      match state {
        case Acquiring => lock.DropLock(id, Writing(WLock));
        case WaitingReaders => lock.Cancel(id);
        case Finish => lock.OnReaders(DropFuture(id), DoDrop, Gone);
      }
      noReaders := false;
    }
  }

  /** The future of `upgrade`, made from an upgradable guard. */
  class RawUpgrade {
    const lock: RawRwLock
    const id: Id
    var listener: bool
    var done: bool       // the source's `lock` is `None`

    ghost predicate Valid()
      reads this, lock
    {
      && lock.Valid()
      && id in lock.procs
      && (listener <==> Listening(lock.noReaders, id))
      && (if done then lock.procs[id] == Finished(UpgradeFuture)
          else lock.procs[id] == Raising(if listener then PWait else PNew))
    }

    /** Trades the reader's share of the word for the writer bit. */
    constructor (l: RawRwLock, id: Id)
      requires l.Here(id, Held(UpgradableGuard))
      modifies l
      ensures Valid() && !done && lock == l && this.id == id && !l.aborted && l.value == old(l.value)
      ensures l.trace == old(l.trace) + [Convert(id, Upgrade)]
      ensures old(l.state) % 2 == 0 && l.state % 2 == 1 && l.state == old(l.state) - 1
    {
      lock, this.id, listener, done := l, id, false, false;
      new;
      l.GuardsDoNotListen(id);
      l.BitIsClear(id);
      var seen := l.FetchAdd(Convert(id, Upgrade), -1, Goto(Raising(PNew)));
    }

    ghost predicate Looping()
      reads this, lock
    {
      && (lock.Here(id, Raising(PNew)) || lock.Here(id, Raising(PCheck)))
      && (listener <==> Listening(lock.noReaders, id))
      && !done
    }

    method Check() returns (outcome: Poll, ghost found: int)
      requires Looping()
      modifies this, lock
      ensures lock.Valid() && !lock.aborted && old(lock.trace) < lock.trace
              && (listener <==> Listening(lock.noReaders, id))
      ensures lock.value == old(lock.value)
      ensures outcome.Ready? ==> Valid() && done && lock.Alone(outcome.guard)
      ensures !outcome.Ready? ==> outcome.Pending? && !done
      ensures !outcome.Ready? ==> lock.Here(id, Raising(if listener then PWait else PListen))
      ensures (outcome.Ready? <==> found == 1) && lock.Made(id) == old(lock.Made(id)) + [Word(found, found)]
    {
      lock.Yield(id, lock.procs[id]);
      var a := lock.Next(id);
      var seen := lock.Load(a, if lock.state == 1 then Complete(UpgradeFuture, WriteGuard)
                               else Goto(Raising(if Listening(lock.noReaders, id) then PWait else PListen)));
      found := seen;
      if seen == 1 {
        done := true;
        lock.WriterIsAlone(a.gid);
        outcome := Ready(a.gid);
      } else {
        outcome := Pending;
      }
    }

    /** Registers, or polls the listener that is there. */
    method Wait() returns (again: bool)
      requires lock.Here(id, Raising(if listener then PWait else PListen))
      requires (listener <==> Listening(lock.noReaders, id)) && !done
      modifies this, lock
      ensures old(lock.trace) <= lock.trace && lock.value == old(lock.value) && !done
      ensures again ==> Looping()
      ensures !again ==> Valid() && !lock.aborted && id in lock.noReaders.waiting && id !in lock.noReaders.notified
                         && lock.procs[id] == Raising(PWait)
      ensures again ==> lock.Made(id) == old(lock.Made(id)) + [AtReaders(if old(listener) then DoConsume else DoListen)]
      ensures !again ==> lock.Made(id) == old(lock.Made(id))
    {
      lock.Yield(id, Raising(if listener then PWait else PListen));
      if listener && id !in lock.noReaders.notified { return false; }
      var a := lock.Next(id);
      lock.OnReaders(a, if listener then DoConsume else DoListen, Goto(Raising(PCheck)));
      listener := !listener;
      return true;
    }

    /** The data keeps its value from the upgradable guard to the write guard. */
    method Poll(turns: nat) returns (outcome: Poll)
      requires Valid() && !done && !lock.aborted
      modifies this, lock
      ensures lock.Valid() && !lock.aborted && old(lock.trace) <= lock.trace
      ensures lock.value == old(lock.value)
      ensures outcome.Ready? ==> Valid() && done && lock.Alone(outcome.guard)
      ensures outcome.Pending? ==> Valid() && !done && id in lock.noReaders.waiting && id !in lock.noReaders.notified
      ensures outcome.Pending? && lock.state == 1 ==> WriterWakeup(lock.View())
      ensures outcome.Preempted? ==> |lock.trace| >= |old(lock.trace)| + turns
      ensures !outcome.Aborted?
      ensures outcome.Pending? ==> lock.LastSawReaders(id, |old(lock.Made(id))|)
    {
      var left := turns;
      if listener {
        lock.Note(Repoll(id), Goto(Raising(PCheck)));
      }
      while true
        invariant Looping() && old(lock.trace) <= lock.trace && lock.value == old(lock.value)
        invariant |lock.Made(id)| >= |old(lock.Made(id))|
        invariant |lock.trace| + left >= |old(lock.trace)| + turns
        decreases left
      {
        if left == 0 { return Preempted; }
        left := left - 1;
        ghost var found;
        outcome, found := Check();
        if outcome.Ready? { return; }
        var again := Wait();
        if !again { lock.Sound(); return; }
      }
    }

    /** Drops the future: a pending upgrade gives the bit and the inner mutex back. */
    method Drop()
      requires Valid() && !lock.aborted
      modifies this, lock
      ensures lock.Valid() && !lock.aborted && id !in lock.procs && old(lock.trace) + [DropFuture(id)] <= lock.trace
      ensures !old(done) ==>
                lock.Made(id) == old(lock.Made(id)) + lock.WriteUnlockOps(old(lock.state), id)
                                + (if old(listener) then [AtReaders(DoDrop)] else [])
      ensures old(done) ==> lock.Made(id) == old(lock.Made(id)) + [AtReaders(DoDrop)]
    {
      if done {
        lock.OnReaders(DropFuture(id), DoDrop, Gone);
      } else {
        lock.Cancel(id);
      }
      listener := false;
    }
  }
}
