// The mutex in the form the program has it: an object whose word and event the methods change in
// place, and lock futures whose polls are loops over those changes.
//
// Each method below is cut into its atomic operations.  Between two of them the other tasks may do
// anything the machine of `MutexModel` allows (`Others`).  The ghost field `trace` records every
// atomic operation, so that `Valid` says: whatever the methods did is a run of that machine, and
// everything proved about runs holds of the object.
module MutexObject {
  import opened Counting
  import opened Events
  import opened MutexModel

  /** Whether `a` is taken by the operation `id`. */
  predicate By(a: Action, id: Id) {
    !a.TryLock? && (if a.Unlock? || a.UnlockNotify? then a.who == id else a.id == id)
  }

  /** What other tasks cannot change about `id`; a notification that it received stays. */
  ghost predicate Untouched(s: State, t: State, id: Id) {
    && (id in s.ops <==> id in t.ops)
    && (id in s.ops ==> t.ops[id] == s.ops[id])
    && (Listening(s.ev, id) <==> Listening(t.ev, id))
    && (id in s.ev.notified ==> id in t.ev.notified)
    && (id in s.releasing <==> id in t.releasing)
    && s.aborted == t.aborted
  }

  lemma OthersLeave(s: State, a: Action, id: Id)
    requires Enabled(s, a) && !By(a, id) && !Apply(s, a).aborted
    ensures Untouched(s, Apply(s, a), id)
  {
    match a
    case Step(x, late) =>
      if HotPc(s.ops[x]) { OthersLeaveHot(s, x, late, id); } else { OthersLeaveFair(s, x, id); }
    case _ =>
  }

  lemma OthersLeaveHot(s: State, x: Id, late: bool, id: Id)
    requires CanStep(s, x) && HotPc(s.ops[x]) && x != id && !HotStep(s, x, late).aborted
    ensures Untouched(s, HotStep(s, x, late), id)
  {
  }

  lemma OthersLeaveFair(s: State, x: Id, id: Id)
    requires CanStep(s, x) && !HotPc(s.ops[x]) && x != id
    ensures Untouched(s, FairStep(s, x), id)
  {
  }

  lemma {:induction false} RunThen(s: State, acts: seq<Action>, a: Action)
    requires CanRun(s, acts) && Enabled(Run(s, acts), a)
    ensures CanRun(s, acts + [a]) && Run(s, acts + [a]) == Apply(Run(s, acts), a)
    decreases acts
  {
    if acts == [] {
      assert [a][1..] == [];
    } else {
      assert (acts + [a])[1..] == acts[1..] + [a];
      RunThen(Apply(s, acts[0]), acts[1..], a);
    }
  }

  /** What one atomic operation works on: the word, or the event. */
  datatype Op = Word(from: int, to: int) | Listens | Consumes | Notifies | DropsListener

  function OpOf(s: State, a: Action): Op
    requires Enabled(s, a)
  {
    match a
    case UnlockNotify(_) => Notifies
    case DropFuture(id) => if s.ops[id].FairWait? then Word(s.word, s.word - 2) else DropsListener
    case Step(id, _) =>
      (match s.ops[id]
       case HotListen => Listens
       case FairListen => Listens
       case HotWait => Consumes
       case FairWait => Consumes
       case HotRenotify => Notifies
       case FairRenotify => Notifies
       case Closing => DropsListener
       case _ => Word(s.word, Apply(s, a).word))
    case _ => Word(s.word, Apply(s, a).word)
  }

  /** The atomic operations that `id` made in a run, in order. */
  function OpsBy(s: State, acts: seq<Action>, id: Id): seq<Op>
    requires CanRun(s, acts)
    decreases acts
  {
    if acts == [] then []
    else (if By(acts[0], id) then [OpOf(s, acts[0])] else []) + OpsBy(Apply(s, acts[0]), acts[1..], id)
  }

  lemma {:induction false} OpsThen(s: State, acts: seq<Action>, a: Action, id: Id)
    requires CanRun(s, acts) && Enabled(Run(s, acts), a)
    ensures CanRun(s, acts + [a])
    ensures OpsBy(s, acts + [a], id) == OpsBy(s, acts, id) + if By(a, id) then [OpOf(Run(s, acts), a)] else []
    decreases acts
  {
    RunThen(s, acts, a);
    if acts == [] {
      assert [a][1..] == [];
    } else {
      assert (acts + [a])[1..] == acts[1..] + [a];
      OpsThen(Apply(s, acts[0]), acts[1..], a, id);
    }
  }

  class Mutex {
    var state: int         // the word: twice the starved operations plus the locked bit
    var lockOps: Event     // the event `lock_ops`
    var ops: map<Id, Pc>   // the lock futures that refer to this mutex
    var guards: nat        // live guards
    var releasing: set<Id> // unlocks between their two atomic operations
    var aborted: bool      // the process ended
    ghost var trace: seq<Action>

    function View(): State
      reads this
    {
      State(state, lockOps, ops, guards, releasing, aborted)
    }

    ghost predicate Valid()
      reads this
    {
      CanRun(INITIAL, trace) && View() == Run(INITIAL, trace)
    }

    constructor ()
      ensures Valid() && View() == INITIAL && trace == []
    {
      state, lockOps, ops, guards, releasing, aborted := 0, NO_LISTENERS, map[], 0, {}, false;
      trace := [];
    }

    /** The operations that `id` made so far. */
    ghost function Made(id: Id): seq<Op>
      reads this
      requires CanRun(INITIAL, trace)
    {
      OpsBy(INITIAL, trace, id)
    }

    /** The object took exactly the action `a`. */
    twostate predicate Did(a: Action)
      requires old(Valid())
      reads this
    {
      && Valid()
      && Enabled(old(View()), a)
      && (forall id :: Made(id) == old(Made(id)) + if By(a, id) then [OpOf(old(View()), a)] else [])
      && View() == Apply(old(View()), a)
      && trace == old(trace) + [a]
    }

    /** Only other operations than `id` were active, and their effect leaves `id` where it is. */
    twostate predicate OnlyOthers(id: Id)
      requires old(Valid())
      reads this
    {
      && Valid()
      && Made(id) == old(Made(id))
      && Untouched(old(View()), View(), id)
      && old(trace) <= trace
      && forall i :: |old(trace)| <= i < |trace| ==> !By(trace[i], id)
    }

    lemma WordIsCounted()
      requires Valid()
      ensures Inv(View())
    {
      RunKeepsInv(INITIAL, trace);
    }

    /** Notes that the change just made to the word or the event was the action `a`. */
    method Record(a: Action, before: State)
      requires CanRun(INITIAL, trace) && before == Run(INITIAL, trace) && Enabled(before, a)
      requires Apply(before, a).word == state && Apply(before, a).ev == lockOps
      modifies this`ops, this`guards, this`releasing, this`aborted, this`trace
      ensures Valid() && View() == Apply(before, a) && trace == old(trace) + [a]
      ensures forall id :: Made(id) == old(Made(id)) + if By(a, id) then [OpOf(before, a)] else []
    {
      RunThen(INITIAL, trace, a);
      var after := Apply(before, a);
      ops, guards, releasing, aborted := after.ops, after.guards, after.releasing, after.aborted;
      forall id { OpsThen(INITIAL, trace, a, id); }
      trace := trace + [a];
    }

    // ----- atomic operations; `a` says which step of whom this is -----

    method CompareExchange(a: Action, expected: int, new_: int) returns (seen: int)
      requires Valid() && Enabled(View(), a)
      requires Apply(View(), a).word == (if state == expected then new_ else state) && Apply(View(), a).ev == lockOps
      modifies this
      ensures Did(a) && seen == old(state)
    {
      var before := View();
      seen := state;
      if state == expected { state := new_; }
      Record(a, before);
    }

    method FetchSub(a: Action, n: int)
      requires Valid() && Enabled(View(), a)
      requires Apply(View(), a).word == state - n && Apply(View(), a).ev == lockOps
      modifies this
      ensures Did(a)
    {
      var before := View();
      state := state - n;
      Record(a, before);
    }

    /** Sets the locked bit. */
    method FetchOr(a: Action) returns (seen: int)
      requires Valid() && Enabled(View(), a)
      requires Apply(View(), a).word == (if state % 2 == 0 then state + 1 else state) && Apply(View(), a).ev == lockOps
      modifies this
      ensures Did(a) && seen == old(state)
    {
      var before := View();
      seen := state;
      if state % 2 == 0 { state := state + 1; }
      Record(a, before);
    }

    /** `fetch_add(2)`; a word over `HALF_MAX` ends the process instead. */
    method FetchAddOrAbort(a: Action)
      requires Valid() && Enabled(View(), a)
      requires Apply(View(), a).word == (if state > HALF_MAX then state else state + 2)
               && Apply(View(), a).ev == lockOps
      modifies this
      ensures Did(a)
    {
      var before := View();
      if state <= HALF_MAX { state := state + 2; }
      Record(a, before);
    }

    method ListenOn(a: Action, id: Id)
      requires Valid() && Enabled(View(), a)
      requires Apply(View(), a).word == state && Apply(View(), a).ev == Listen(lockOps, id)
      modifies this
      ensures Did(a)
    {
      var before := View();
      lockOps := Listen(lockOps, id);
      Record(a, before);
    }

    method NotifyOne(a: Action)
      requires Valid() && Enabled(View(), a)
      requires Apply(View(), a).word == state && Apply(View(), a).ev == Notify(lockOps, 1)
      modifies this
      ensures Did(a)
      ensures TopsUp(old(lockOps), lockOps, 1)
    {
      NotifyInOrder(lockOps, 1);
      var before := View();
      lockOps := Notify(lockOps, 1);
      Record(a, before);
    }

    /** Polls the listener of `id`: consumes its notification, or is not ready and changes nothing. */
    method PollListener(a: Action, id: Id) returns (ready: bool)
      requires Valid()
      requires id in lockOps.notified ==>
                 Enabled(View(), a) && Apply(View(), a).word == state && Apply(View(), a).ev == Consume(lockOps, id)
      modifies this
      ensures ready == (id in old(lockOps).notified)
      ensures if ready then Did(a) else Valid() && View() == old(View()) && trace == old(trace)
    {
      ready := id in lockOps.notified;
      if ready {
        var before := View();
        lockOps := Consume(lockOps, id);
        Record(a, before);
      }
    }

    method Unlisten(a: Action, id: Id)
      requires Valid() && Enabled(View(), a)
      requires Apply(View(), a).word == state && Apply(View(), a).ev == DropListener(lockOps, id)
      modifies this
      ensures Did(a)
    {
      var before := View();
      lockOps := DropListener(lockOps, id);
      Record(a, before);
    }

    /** Any number of atomic operations of other tasks; none of them ends the process, as nothing
        would follow. */
    method Others(id: Id)
      requires Valid()
      modifies this
      ensures OnlyOthers(id)
    {
      var acts: seq<Action> := *;
      for i := 0 to |acts|
        invariant OnlyOthers(id)
      {
        if Enabled(View(), acts[i]) && !By(acts[i], id) && !Apply(View(), acts[i]).aborted {
          OthersLeave(View(), acts[i], id);
          var before := View();
          state, lockOps := Apply(before, acts[i]).word, Apply(before, acts[i]).ev;
          Record(acts[i], before);
        }
      }
    }

    // ----- operations -----

    /** Succeeds exactly when the mutex is unlocked and nobody is starved; then the caller holds the
        only guard. */
    method TryLock() returns (locked: bool)
      requires Valid() && !aborted
      modifies this
      ensures Did(Action.TryLock)
      ensures locked <==> old(state) == 0
      ensures locked ==> guards == 1 && state == 1
      ensures !locked ==> View() == old(View())
    {
      var seen := CompareExchange(Action.TryLock, 0, 1);
      WordIsCounted();
      return seen == 0;
    }

    /** The last recorded operation topped the notified listeners up to `n`: the first in line, and nobody
        when as many were notified already. */
    ghost predicate LastStepTopsUp(n: nat)
      reads this
    {
      && |trace| > 0 && CanRun(INITIAL, trace[..|trace| - 1])
      && TopsUp(Run(INITIAL, trace[..|trace| - 1]).ev, lockOps, n)
    }

    /** The guard dropped by `who` unlocks the word, then wakes one lock operation. */
    method UnlockUnchecked(who: Id)
      requires Valid() && !aborted && guards > 0 && who !in releasing
      modifies this
      ensures Valid() && !aborted && who !in releasing
      ensures old(trace) + [Unlock(who)] <= trace && trace[|trace| - 1] == UnlockNotify(who)
      ensures lockOps.notified == [] ==> lockOps.waiting == []
      ensures LastStepTopsUp(1)
      ensures Made(who) == old(Made(who)) + [Word(old(state), old(state) - 1), Notifies]
    {
      FetchSub(Unlock(who), 1);
      Others(who);
      ghost var log := trace;
      NotifyOne(UnlockNotify(who));
      assert trace[..|trace| - 1] == log;
    }
  }

  datatype Poll = Ready | Pending | Preempted | Aborted

  /** The future returned by `Mutex::lock`, with the state of its slow path. */
  class LockFuture {
    const mutex: Mutex
    const id: Id
    var slow: bool      // the fast path failed
    var listener: bool  // holds a listener
    var starved: bool   // counted in the word
    var done: bool      // gave the mutex reference away

    /** At a suspension point. */
    ghost predicate Valid()
      reads this, mutex
    {
      && mutex.Valid()
      && id in mutex.ops
      && (listener <==> Listening(mutex.lockOps, id))
      && match mutex.ops[id]
         case Start => !slow && !listener && !starved && !done
         case HotWait => slow && listener && !starved && !done
         case FairWait => slow && listener && starved && !done
         case Done => done
         case _ => false
    }

    constructor (m: Mutex, id: Id)
      requires m.Valid() && !m.aborted && id !in m.ops && !Listening(m.lockOps, id)
      modifies m
      ensures Valid() && mutex == m && this.id == id && m.Did(Spawn(id))
    {
      mutex, this.id := m, id;
      slow, listener, starved, done := false, false, false, false;
      new;
      var before := m.View();
      m.Record(Spawn(id), before);
    }

    /** Between suspension points, at `pc`. */
    ghost predicate Here(pc: Pc)
      reads this, mutex
    {
      && mutex.Valid() && !mutex.aborted
      && id in mutex.ops && mutex.ops[id] == pc
      && (listener <==> Listening(mutex.lockOps, id))
      && (starved <==> Counted(pc))
      && (pc.HotWait? || pc.FairWait? || pc.FairRenotify? ==> listener)
      && (pc.HotListen? || pc.HotRetry? || pc.HotRenotify? || pc.FairListen? || pc.FairOr? ==> !listener)
      && !done
    }

    /** Only this future's own steps, and other operations', since the log `from`. */
    ghost predicate OnlySteps(from: seq<Action>)
      reads this, mutex
    {
      && from <= mutex.trace
      && forall i :: |from| <= i < |mutex.trace| && By(mutex.trace[i], id) ==> mutex.trace[i].Step?
    }

    /** At `pc`, with nothing but this future's steps taken since the log `from`. */
    ghost predicate Reached(pc: Pc, from: seq<Action>)
      reads this, mutex
    {
      Here(pc) && slow && OnlySteps(from)
    }

    /** Just acquired, and not starved. */
    ghost predicate Won(from: seq<Action>)
      reads this, mutex
    {
      && mutex.Valid() && !mutex.aborted && id in mutex.ops && mutex.ops[id].Done? && mutex.guards > 0
      && (listener <==> Listening(mutex.lockOps, id))
      && slow && !starved && OnlySteps(from)
    }

    /** `take_mutex` on completion: a starved future gives its count back. */
    method TakeMutex(ghost from: seq<Action>)
      requires if starved then Reached(Take, from) else Won(from)
      modifies this, mutex
      ensures |mutex.trace| >= |old(mutex.trace)|
      ensures Valid() && done && OnlySteps(from) && !mutex.aborted && starved == old(starved)
      ensures mutex.guards == 1 && mutex.state % 2 == 1
      ensures mutex.state == old(mutex.state) - (if old(starved) then 2 else 0) && mutex.lockOps == old(mutex.lockOps)
    {
      if starved { mutex.FetchSub(Step(id, false), 2); }
      done := true;
      mutex.WordIsCounted();
    }

    /** Other operations run; this one stays where it is. */
    method Yield(ghost pc: Pc, ghost from: seq<Action>)
      requires Reached(pc, from)
      modifies mutex
      ensures Reached(pc, from) && |mutex.trace| >= |old(mutex.trace)|
      ensures mutex.Made(id) == old(mutex.Made(id))
    {
      mutex.Others(id);
    }

    method Register(ghost from: seq<Action>)
      requires Reached(if starved then FairListen else HotListen, from)
      modifies this, mutex
      ensures |mutex.trace| > |old(mutex.trace)| && starved == old(starved) && listener
      ensures Reached(if starved then FairCas else HotCas, from)
      ensures mutex.Made(id) == old(mutex.Made(id)) + [Listens]
    {
      mutex.ListenOn(Step(id, false), id);
      listener := true;
    }

    /** Hot loop without a listener. */
    method HotRegister(ghost from: seq<Action>) returns (seen: int)
      requires Reached(HotListen, from)
      modifies this, mutex
      ensures |mutex.trace| > |old(mutex.trace)|
      ensures if seen == 0 then Won(from) else Reached(if seen == 1 then HotWait else Starving, from)
      ensures mutex.Made(id) == old(mutex.Made(id)) + [Listens, Word(seen, if seen == 0 then 1 else seen)]
      ensures listener
    {
      Register(from);
      Yield(HotCas, from);
      seen := HotTry(from);
    }

    method HotTry(ghost from: seq<Action>) returns (seen: int)
      requires Reached(HotCas, from) && listener
      modifies this, mutex
      ensures |mutex.trace| > |old(mutex.trace)| && listener == old(listener)
      ensures if seen == 0 then Won(from) else Reached(if seen == 1 then HotWait else Starving, from)
      ensures mutex.Made(id) == old(mutex.Made(id)) + [Word(seen, if seen == 0 then 1 else seen)]
    {
      seen := mutex.CompareExchange(Step(id, false), 0, 1);
    }

    /** Hot loop after a notification was consumed. */
    method HotRetries(ghost from: seq<Action>) returns (seen: int, late: bool)
      requires Reached(HotRetry, from)
      modifies this, mutex
      ensures |mutex.trace| > |old(mutex.trace)|
      ensures
        if seen == 0 then Won(from)
        else Reached(if seen != 1 then HotRenotify else if late then Starving else HotListen, from)
      ensures mutex.Made(id) == old(mutex.Made(id)) + [Word(seen, if seen == 0 then 1 else seen)]
      ensures !listener
    {
      mutex.Others(id);
      late := *;
      seen := mutex.CompareExchange(Step(id, late), 0, 1);
    }

    /** Fair loop without a listener. */
    method FairRegister(ghost from: seq<Action>) returns (seen: int)
      requires Reached(FairListen, from)
      modifies this, mutex
      ensures |mutex.trace| > |old(mutex.trace)|
      ensures Reached(if seen == 2 then Take else if seen % 2 == 1 then FairWait else FairRenotify, from)
      ensures mutex.Made(id) == old(mutex.Made(id)) + [Listens, Word(seen, if seen == 2 then 3 else seen)]
    {
      Register(from);
      Yield(FairCas, from);
      seen := mutex.CompareExchange(Step(id, false), 2, 3);
    }

    method PollListener(ghost from: seq<Action>) returns (ready: bool)
      requires Reached(if starved then FairWait else HotWait, from)
      modifies this, mutex
      ensures |mutex.trace| >= |old(mutex.trace)| + One(ready)
      ensures starved == old(starved)
      ensures
        if ready then Reached(if starved then FairOr else HotRetry, from)
        else Reached(if starved then FairWait else HotWait, from) && id !in mutex.lockOps.notified
      ensures mutex.Made(id) == old(mutex.Made(id)) + if ready then [Consumes] else []
    {
      ready := mutex.PollListener(Step(id, false), id);
      listener := !ready;
    }

    method Notify(ghost from: seq<Action>)
      requires Reached(if starved then FairRenotify else HotRenotify, from)
      modifies this, mutex
      ensures |mutex.trace| > |old(mutex.trace)|
      ensures starved == old(starved)
      ensures Reached(if starved then FairWait else Starving, from)
      ensures mutex.Made(id) == old(mutex.Made(id)) + [Notifies]
      ensures listener == old(listener)
    {
      mutex.Others(id);
      mutex.NotifyOne(Step(id, false));
    }

    predicate SawStarved(op: Op) {
      op.Word? && op.to == op.from && op.from != 0 && op.from != 1
    }

    /** How the hot loop may be left: after a registration that saw somebody starved, after waiting too
        long, or having notified the first in line for a notification meant for a starved operation. */
    ghost predicate LeftHotLoop(ops: seq<Op>)
      reads this
    {
      var n := |ops|;
      if listener then n >= 2 && ops[n - 2] == Listens && SawStarved(ops[n - 1])
      else || (n >= 2 && ops[n - 2] == Consumes && ops[n - 1] == Word(1, 1))
           || (n >= 3 && ops[n - 3] == Consumes && SawStarved(ops[n - 2]) && ops[n - 1] == Notifies)
    }

    /** Hot loop after a notification was consumed: acquires, leaves for the fair loop, or goes on. */
    method HotWoken(ghost from: seq<Action>) returns (won: bool, out: bool)
      requires Reached(HotRetry, from) && |mutex.Made(id)| > 0 && mutex.Made(id)[|mutex.Made(id)| - 1] == Consumes
      modifies this, mutex
      ensures |mutex.trace| > |old(mutex.trace)|
      ensures won ==> Won(from)
      ensures !won ==> Reached(if out then Starving else HotListen, from)
      ensures !won && out ==> LeftHotLoop(mutex.Made(id))
      ensures !won ==> !listener
    {
      var seen, late := HotRetries(from);
      if seen == 0 { return true, false; }
      if seen != 1 { Notify(from); return false, true; }
      return false, late;
    }

    /** The loop that newer operations may overtake; `Pending` also when it was left for the fair one. */
    method PollHot(ghost from: seq<Action>, turns: nat) returns (outcome: Poll, leave: bool)
      requires Reached(HotListen, from) || Reached(HotWait, from)
      modifies this, mutex
      ensures outcome.Ready? ==> Won(from)
      ensures outcome.Pending? && leave ==> Reached(Starving, from)
      ensures outcome.Pending? && !leave ==> Reached(HotWait, from) && id !in mutex.lockOps.notified
      ensures outcome.Preempted? ==> mutex.Valid() && OnlySteps(from) && !mutex.aborted
      ensures outcome.Preempted? ==> |mutex.trace| >= |old(mutex.trace)| + turns
      ensures |mutex.trace| >= |old(mutex.trace)|
      ensures !outcome.Aborted? && (leave ==> outcome.Pending?)
      ensures leave ==> LeftHotLoop(mutex.Made(id))
    {
      var left := turns;
      var seen: int;
      while true
        invariant Reached(if listener then HotWait else HotListen, from)
        invariant |mutex.trace| + left >= |old(mutex.trace)| + turns && |mutex.trace| >= |old(mutex.trace)|
        decreases left
      {
        if left == 0 { return Preempted, false; }
        left := left - 1;
        if !listener {
          seen := HotRegister(from);
          if seen == 0 { return Ready, false; }
          if seen != 1 { break; }
        } else {
          var ready := PollListener(from);
          if !ready { return Pending, false; }
          var won, out := HotWoken(from);
          if won { return Ready, false; }
          if out { break; }
        }
        Yield(if listener then HotWait else HotListen, from);
      }
      return Pending, true;
    }

    /** The fairer loop. */
    method PollFair(ghost from: seq<Action>, turns: nat) returns (outcome: Poll)
      requires Reached(FairListen, from) || Reached(FairWait, from)
      modifies this, mutex
      ensures starved
      ensures outcome.Ready? ==> Reached(Take, from)
      ensures outcome.Pending? ==> Reached(FairWait, from) && id !in mutex.lockOps.notified
      ensures outcome.Preempted? ==> mutex.Valid() && OnlySteps(from) && !mutex.aborted
      ensures outcome.Preempted? ==> |mutex.trace| >= |old(mutex.trace)| + turns
      ensures |mutex.trace| >= |old(mutex.trace)|
      ensures !outcome.Aborted?
    {
      var left := turns;
      var seen: int;
      while true
        invariant Reached(if listener then FairWait else FairListen, from)
        invariant |mutex.trace| + left >= |old(mutex.trace)| + turns && |mutex.trace| >= |old(mutex.trace)|
        decreases left
      {
        if left == 0 { return Preempted; }
        left := left - 1;
        if !listener {
          seen := FairRegister(from);
          if seen == 2 { return Ready; }
          if seen % 2 == 0 { Notify(from); }
        } else {
          var ready := PollListener(from);
          if !ready { return Pending; }
          seen := FairRetries(from);
          if seen % 2 == 0 { return Ready; }
        }
        Yield(if listener then FairWait else FairListen, from);
      }
    }

    /** Fair loop after a notification was consumed. */
    method FairRetries(ghost from: seq<Action>) returns (seen: int)
      requires Reached(FairOr, from)
      modifies this, mutex
      ensures |mutex.trace| > |old(mutex.trace)|
      ensures Reached(if seen % 2 == 0 then Take else FairListen, from)
      ensures mutex.Made(id) == old(mutex.Made(id)) + [Word(seen, if seen % 2 == 0 then seen + 1 else seen)]
    {
      mutex.Others(id);
      seen := mutex.FetchOr(Step(id, false));
    }

    /** Leaves the hot loop: counted from here on, unless the counter is full. */
    method Starve(ghost from: seq<Action>) returns (ok: bool, ghost seen: int)
      requires Reached(Starving, from)
      modifies this, mutex
      ensures |mutex.trace| >= |old(mutex.trace)|
      ensures if ok then Reached(if listener then FairWait else FairListen, from)
              else mutex.Valid() && mutex.aborted && OnlySteps(from)
      ensures ok <==> seen <= 0x7FFF_FFFF_FFFF_FFFF
      ensures mutex.Made(id) == old(mutex.Made(id)) + [Word(seen, if ok then seen + 2 else seen)]
    {
      Yield(Starving, from);
      seen := mutex.state;
      mutex.FetchAddOrAbort(Step(id, false));
      ok := !mutex.aborted;
      starved := ok;
    }

    method FastPath(ghost from: seq<Action>) returns (seen: int)
      requires Valid() && !mutex.aborted && !slow && !done && from == mutex.trace
      modifies this, mutex
      ensures |mutex.trace| >= |old(mutex.trace)|
      ensures if seen == 0 then Won(from) else Reached(HotListen, from)
      ensures seen == old(mutex.state)
      ensures mutex.Made(id) == old(mutex.Made(id)) + [Word(seen, if seen == 0 then 1 else seen)]
    {
      slow := true;
      seen := mutex.CompareExchange(Step(id, false), 0, 1);
    }

    lemma ParkedIsWoken(from: seq<Action>)
      requires Reached(if starved then FairWait else HotWait, from) && id !in mutex.lockOps.notified
      ensures mutex.state % 2 == 0 ==> InTransit(mutex.View())
    {
      mutex.WordIsCounted();
      assert Unwoken(mutex.View(), id);
    }

    /** The hot loop and, unless that acquires or parks, the step into the fair one. */
    method HotPart(ghost from: seq<Action>, turns: nat) returns (outcome: Poll, fair: bool)
      requires Reached(HotListen, from) || Reached(HotWait, from)
      modifies this, mutex
      ensures |mutex.trace| >= |old(mutex.trace)| && mutex.Valid() && OnlySteps(from)
      ensures fair ==> Reached(FairListen, from) || Reached(FairWait, from)
      ensures !fair && outcome.Ready? ==> Valid() && done && mutex.guards == 1 && mutex.state % 2 == 1
      ensures !fair && outcome.Pending? ==> Reached(HotWait, from) && id !in mutex.lockOps.notified
      ensures !fair && outcome.Pending? && mutex.state % 2 == 0 ==> InTransit(mutex.View())
      ensures !fair && outcome.Preempted? ==> |mutex.trace| >= |old(mutex.trace)| + turns
      ensures outcome.Aborted? <==> mutex.aborted
    {
      outcome, fair := PollHot(from, turns);
      if outcome.Ready? { TakeMutex(from); }
      if outcome.Pending? && !fair { ParkedIsWoken(from); }
      if fair {
        var ok, seen := Starve(from);
        if !ok { return Aborted, false; }
        Yield(if listener then FairWait else FairListen, from);
      }
    }

    /** One poll.  `Preempted`: stopped for good in the middle of it, after `turns` turns of its loops. */
    method Poll(turns: nat) returns (outcome: Poll)
      requires Valid() && !mutex.aborted && !done
      modifies this, mutex
      ensures mutex.Valid() && OnlySteps(old(mutex.trace))
      ensures outcome.Ready? ==> Valid() && done && mutex.guards == 1 && mutex.state % 2 == 1
      ensures outcome.Pending? ==> Valid() && !done && slow
      ensures outcome.Pending? ==> id in mutex.lockOps.waiting && id !in mutex.lockOps.notified
      ensures outcome.Pending? && mutex.state % 2 == 0 ==> InTransit(mutex.View())
      ensures outcome.Preempted? ==> |mutex.trace| >= |old(mutex.trace)| + turns
      ensures outcome.Aborted? <==> mutex.aborted
      ensures old(starved) ==> starved
      ensures !old(slow) && old(mutex.state) == 0 ==> outcome.Ready?
      ensures outcome.Aborted? ==> Overflows(INITIAL, mutex.trace)
    {
      ghost var from := mutex.trace;
      if !slow {
        var seen := FastPath(from);
        if seen == 0 { TakeMutex(from); return Ready; }
        Yield(HotListen, from);
      }
      if !starved {
        var leave;
        outcome, leave := HotPart(from, turns);
        if !leave {
          if outcome.Aborted? { AbortsOnlyOnOverflow(INITIAL, mutex.trace); }
          return;
        }
      }
      outcome := PollFair(from, turns);
      if outcome.Ready? { Yield(Take, from); TakeMutex(from); }
      if outcome.Pending? { ParkedIsWoken(from); }
    }

    /** The future is dropped, at a suspension point or after it completed: a starved one that did not
        complete gives its count back, and a notification that it received goes to the next in line. */
    method Drop()
      requires Valid() && !mutex.aborted
      modifies this, mutex
      ensures mutex.Valid() && !mutex.aborted && id !in mutex.ops && !Listening(mutex.lockOps, id)
      ensures old(mutex.trace) + [DropFuture(id)] <= mutex.trace
      ensures old(starved && !done) ==>
                mutex.Made(id) == old(mutex.Made(id)) + [Word(old(mutex.state), old(mutex.state) - 2), DropsListener]
      ensures !old(starved && !done) ==> mutex.Made(id) == old(mutex.Made(id)) + [DropsListener]
    {
      if starved && !done {
        mutex.FetchSub(DropFuture(id), 2);
        DropLast();
      } else {
        mutex.Unlisten(DropFuture(id), id);
      }
      listener := false;
    }

    /** The count is given back: the listener goes. */
    method DropLast()
      requires mutex.Valid() && !mutex.aborted && id in mutex.ops && mutex.ops[id].Closing?
      modifies mutex
      ensures mutex.Valid() && !mutex.aborted && id !in mutex.ops && !Listening(mutex.lockOps, id)
      ensures old(mutex.trace) <= mutex.trace && mutex.Made(id) == old(mutex.Made(id)) + [DropsListener]
    {
      mutex.Others(id);
      mutex.Unlisten(Step(id, false), id);
    }
  }
}
