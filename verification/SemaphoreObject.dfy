// The semaphore in the form the program has it: an object whose count and event the methods change
// in place, cut into atomic operations between which the other tasks may do anything the machine of
// `SemaphoreModel` allows.  `trace` records the operations.
module SemaphoreObject {
  import opened Counting
  import opened Events
  import opened SemaphoreModel

  /** What other tasks cannot change about `id`. */
  ghost predicate Untouched(s: State, t: State, id: Id) {
    && id in s.procs && id in t.procs && t.procs[id] == s.procs[id]
    && (Listening(s.ev, id) <==> Listening(t.ev, id))
    && (id in s.ev.notified ==> id in t.ev.notified)
  }

  lemma OthersLeave(s: State, a: Action, id: Id)
    requires Enabled(s, a) && a.id != id && id in s.procs
    ensures Untouched(s, Apply(s, a), id)
  {
  }

  lemma {:induction false} RunThen(s: State, acts: seq<Action>, a: Action)
    requires CanRun(s, acts) && Enabled(Run(s, acts), a)
    ensures CanRun(s, acts + [a]) && Run(s, acts + [a]) == Apply(Run(s, acts), a)
    decreases acts
  {
    if acts == [] {
      assert [a][1..] == [];
    } else {
      assert (acts + [a])[1..] == acts[1..] + [a];
      RunThen(Apply(s, acts[0]), acts[1..], a);
    }
  }

  datatype Attempt = Acquired(guard: Id) | Refused | Stopped

  class Semaphore {
    var count: int
    var event: Event
    var procs: map<Id, Pc>   // the futures, guards and unfinished calls that refer to this semaphore
    const initial: nat
    ghost var trace: seq<Action>

    function View(): State
      reads this
    {
      State(count, event, procs)
    }

    ghost predicate Valid()
      reads this
    {
      CanRun(Initial(initial), trace) && View() == Run(Initial(initial), trace)
    }

    constructor (n: nat)
      ensures Valid() && View() == Initial(n) && trace == [] && initial == n
    {
      count, event, procs := n, NO_LISTENERS, map[];
      initial := n;
      trace := [];
    }

    lemma Sound()
      requires Valid()
      ensures Inv(View())
    {
      RunKeepsInv(Initial(initial), trace);
    }

    lemma StaysAwake()
      requires Valid()
      ensures NeverStrands(Initial(initial), trace) ==> Progress(View())
    {
      if NeverStrands(Initial(initial), trace) { RunKeepsProgress(Initial(initial), trace); }
    }

    twostate predicate Did(a: Action)
      reads this
    {
      Valid() && Enabled(old(View()), a) && View() == Apply(old(View()), a) && trace == old(trace) + [a]
    }

    ghost predicate Here(id: Id, pc: Pc)
      reads this
    {
      Valid() && id in procs && procs[id] == pc
    }

    method Record(a: Action, before: State)
      requires CanRun(Initial(initial), trace) && before == Run(Initial(initial), trace) && Enabled(before, a)
      requires Apply(before, a).count == count && Apply(before, a).ev == event
      modifies this`procs, this`trace
      ensures Valid() && View() == Apply(before, a) && trace == old(trace) + [a]
    {
      RunThen(Initial(initial), trace, a);
      procs := Apply(before, a).procs;
      trace := trace + [a];
    }

    /** A name that no operation or guard has. */
    method Fresh() returns (g: Id)
      ensures g !in procs
    {
      g := 0;
      ghost var above := procs.Keys;
      while g in procs
        invariant forall x :: x in procs && g <= x ==> x in above
        decreases above
      {
        above := above - {g};
        g := g + 1;
      }
    }

    /** The next step of `id`. */
    method Next(id: Id) returns (a: Action)
      ensures a.Step? && a.id == id && a.gid !in procs
    {
      var g := Fresh();
      var spurious: bool := *;
      return Step(id, spurious, g);
    }

    // ----- atomic operations -----

    /** The program counter of a caller moves on; the semaphore is not touched. */
    method Note(a: Action)
      requires Valid() && Enabled(View(), a) && Apply(View(), a).count == count && Apply(View(), a).ev == event
      modifies this
      ensures Did(a)
    {
      var before := View();
      Record(a, before);
    }

    method LoadCount(a: Action) returns (seen: int)
      requires Valid() && Enabled(View(), a) && Apply(View(), a).count == count && Apply(View(), a).ev == event
      modifies this
      ensures Did(a) && seen == old(count)
    {
      var before := View();
      seen := count;
      Record(a, before);
    }

    /** May fail although the count is the expected one. */
    method CompareExchangeWeak(a: Action, expected: int, new_: int) returns (ok: bool, seen: int)
      requires Valid() && a.Step? && Enabled(View(), a)
      requires Apply(View(), a).count == (if count == expected && !a.spurious then new_ else count)
      requires Apply(View(), a).ev == event
      modifies this
      ensures Did(a) && seen == old(count) && (ok <==> old(count) == expected && !a.spurious)
    {
      var before := View();
      seen := count;
      ok := count == expected && !a.spurious;
      if ok { count := new_; }
      Record(a, before);
    }

    method FetchAdd(a: Action, n: int)
      requires Valid() && Enabled(View(), a) && Apply(View(), a).count == count + n && Apply(View(), a).ev == event
      modifies this
      ensures Did(a)
    {
      var before := View();
      count := count + n;
      Record(a, before);
    }

    /** `event` becomes `e`, by a `listen`, a `notify`, or the end of a listener. */
    method OnEvent(a: Action, e: Event)
      requires Valid() && Enabled(View(), a) && Apply(View(), a).count == count && Apply(View(), a).ev == e
      modifies this
      ensures Did(a)
    {
      var before := View();
      event := e;
      Record(a, before);
    }

    /** Any number of atomic operations of other tasks. */
    method Yield(id: Id, ghost pc: Pc)
      requires Here(id, pc)
      modifies this
      ensures Here(id, pc) && old(trace) <= trace
      ensures Untouched(old(View()), View(), id)
    {
      var acts: seq<Action> := *;
      for i := 0 to |acts|
        invariant Here(id, pc) && old(trace) <= trace && Untouched(old(View()), View(), id)
      {
        if Enabled(View(), acts[i]) && acts[i].id != id {
          OthersLeave(View(), acts[i], id);
          var before := View();
          count, event := Apply(before, acts[i]).count, Apply(before, acts[i]).ev;
          Record(acts[i], before);
        }
      }
    }

    // ----- operations -----

    /** Fails exactly when the count is seen to be zero; a lost or spuriously failed race is tried again. */
    method TryAcquire(id: Id, turns: nat) returns (outcome: Attempt)
      requires Valid() && id !in procs
      modifies this
      ensures Valid() && old(trace) + [Action.TryAcquire(id)] <= trace
      ensures outcome.Acquired? ==> outcome.guard == id && Here(id, Permit) && count >= 0
      ensures outcome.Refused? ==> id !in procs && count == 0
      ensures outcome.Stopped? ==> |trace| > |old(trace)| + turns
    {
      Note(Action.TryAcquire(id));
      outcome := TakePermit(id, Load(false), turns);
    }

    /** Where a caller is after the count was seen to be zero, or a permit was taken. */
    ghost predicate After(id: Id, future: bool, outcome: Attempt)
      reads this
    {
      match outcome
      case Acquired(g) => Here(g, Permit) && (if future then Here(id, Done) else g == id)
      case Refused => if future then Here(id, if Listening(event, id) then Wait else MustListen) else id !in procs
      case Stopped => true
    }

    /** The body of `try_acquire`, also called by the poll of an `acquire` future. */
    method TakePermit(id: Id, pc: Pc, turns: nat) returns (outcome: Attempt)
      requires Here(id, pc) && (pc.Load? || pc.New?)
      modifies this
      ensures Valid() && old(trace) < trace
      ensures After(id, pc.New? || pc.future, outcome)
      ensures outcome.Stopped? ==> |trace| >= |old(trace)| + turns
      ensures outcome.Acquired? ==> count >= 0
      ensures outcome.Refused? ==> count == 0
      ensures Listening(event, id) <==> old(Listening(event, id))
    {
      var left := turns;
      ghost var future := pc.New? || pc.future;
      Yield(id, pc);
      Sound();
      var a := Next(id);
      var seen := LoadCount(a);
      while true
        invariant |trace| + left >= |old(trace)| + turns
        invariant seen >= 0 && Valid() && old(trace) < trace && (Listening(event, id) <==> old(Listening(event, id)))
        invariant if seen == 0 then After(id, future, Refused) && count == 0 else Here(id, Cas(seen, future))
        decreases left
      {
        if seen == 0 { return Refused; }
        if left == 0 { return Stopped; }
        left := left - 1;
        var ok, g;
        ok, seen, g := Race(id, seen, future);
        if ok { return Acquired(g); }
      }
    }

    method Race(id: Id, last: nat, ghost future: bool) returns (ok: bool, seen: int, guard: Id)
      requires Here(id, Cas(last, future)) && last > 0
      modifies this
      ensures Valid() && old(trace) < trace && (Listening(event, id) <==> old(Listening(event, id)))
      ensures ok ==> After(id, future, Acquired(guard)) && count >= 0
      ensures !ok && seen == 0 ==> After(id, future, Refused) && count == 0
      ensures !ok && seen != 0 ==> seen > 0 && Here(id, Cas(seen, future))
    {
      Yield(id, Cas(last, future));
      Sound();
      var a := Next(id);
      guard := if procs[id].future then a.gid else id;
      ok, seen := CompareExchangeWeak(a, last, last - 1);
    }

    /** After the first `k` recorded operations no permit was free. */
    ghost predicate EmptyAfter(k: nat)
      reads this
    {
      k <= |trace| && CanRun(Initial(initial), trace[..k]) && Run(Initial(initial), trace[..k]).count == 0
    }

    /** The last recorded operation topped the notified listeners up to `n`: the first in line, and nobody
        when as many were notified already. */
    ghost predicate LastStepTopsUp(n: nat)
      reads this
    {
      && |trace| > 0 && CanRun(Initial(initial), trace[..|trace| - 1])
      && TopsUp(Run(Initial(initial), trace[..|trace| - 1]).ev, event, n)
    }

    method AddPermits(id: Id, n: nat)
      requires Valid() && id !in procs
      modifies this
      ensures Valid() && id !in procs && old(trace) + [Action.AddPermits(id, n)] <= trace
      ensures |event.notified| >= n || event.waiting == []
      ensures LastStepTopsUp(n)
    {
      FetchAdd(Action.AddPermits(id, n), n);
      Yield(id, AddNotify(n));
      var a := Next(id);
      NotifyInOrder(event, n);
      ghost var woken, log := Notify(event, n), trace;
      assert |woken.notified + woken.waiting| == |event.notified + event.waiting|;
      OnEvent(a, Notify(event, n));
      assert trace[..|trace| - 1] == log;
    }

    /** Drops a guard: the permit is available again before a waiter is woken. */
    method Release(id: Id)
      requires Here(id, Permit)
      modifies this
      ensures Valid() && id !in procs && old(trace) + [DropGuard(id)] <= trace
      ensures event.notified != [] || event.waiting == []
      ensures LastStepTopsUp(1)
    {
      FetchAdd(DropGuard(id), 1);
      Yield(id, ReleaseNotify);
      var a := Next(id);
      NotifyInOrder(event, 1);
      ghost var log := trace;
      OnEvent(a, Notify(event, 1));
      assert trace[..|trace| - 1] == log;
    }

    /** `forget` on a guard: the permit is gone, and nobody is told. */
    method ForgetGuard(id: Id)
      requires Here(id, Permit)
      modifies this
      ensures Did(Action.Forget(id)) && count == old(count) && id !in procs
    {
      Note(Action.Forget(id));
    }
  }

  datatype Poll = Ready(guard: Id) | Pending | Preempted

  /** The future of `acquire`. */
  class AcquireFuture {
    const semaphore: Semaphore
    const id: Id
    var listener: bool
    var done: bool

    ghost predicate Valid()
      reads this, semaphore
    {
      && semaphore.Here(id, if done then Done else if listener then Pc.Wait else New)
      && (listener <==> Listening(semaphore.event, id))
    }

    constructor (s: Semaphore, id: Id)
      requires s.Valid() && id !in s.procs
      modifies s
      ensures Valid() && !done && semaphore == s && this.id == id && s.trace == old(s.trace) + [Acquire(id)]
    {
      semaphore, this.id, listener, done := s, id, false, false;
      new;
      s.Sound();
      s.Note(Acquire(id));
    }

    /** Refused: registers, or polls the listener that is there. */
    method Wait() returns (again: bool)
      requires semaphore.Here(id, if listener then Pc.Wait else MustListen)
               && (listener <==> Listening(semaphore.event, id)) && !done
      modifies this, semaphore
      ensures old(semaphore.trace) <= semaphore.trace && (listener <==> Listening(semaphore.event, id)) && !done
      ensures again ==> semaphore.Here(id, Load(true))
      ensures !again ==> Valid() && id in semaphore.event.waiting && id !in semaphore.event.notified
    {
      semaphore.Yield(id, if listener then Pc.Wait else MustListen);
      if listener && id !in semaphore.event.notified { return false; }
      var a := semaphore.Next(id);
      semaphore.OnEvent(a, if listener then Consume(semaphore.event, id) else Listen(semaphore.event, id));
      listener := !listener;
      return true;
    }

    /** Every poll tries the count before it waits.  A pending one leaves an unwoken listener; as long as no
        `forget` stranded anybody, a permit that is free by then has a wake-up on its way or a live guard
        behind it. */
    method Poll(turns: nat) returns (outcome: Poll)
      requires Valid() && !done
      modifies this, semaphore
      ensures semaphore.Valid() && old(semaphore.trace) <= semaphore.trace
      ensures outcome.Ready? ==> Valid() && done && semaphore.Here(outcome.guard, Permit)
      ensures outcome.Pending? ==> Valid() && !done && id in semaphore.event.waiting && id !in semaphore.event.notified
      ensures outcome.Preempted? ==> |semaphore.trace| >= |old(semaphore.trace)| + turns
      ensures outcome.Pending? && semaphore.count > 0 ==>
                NeverStrands(Initial(semaphore.initial), semaphore.trace) ==> Covered(semaphore.View())
      ensures outcome.Pending? ==> exists k :: |old(semaphore.trace)| < k && semaphore.EmptyAfter(k)
    {
      var left := turns;
      var first := !listener;
      if listener {
        semaphore.Note(Repoll(id));
      }
      while true
        invariant semaphore.Here(id, if first then New else Load(true)) && old(semaphore.trace) <= semaphore.trace
        invariant (listener <==> Listening(semaphore.event, id)) && !done
        invariant |semaphore.trace| + left >= |old(semaphore.trace)| + turns
        decreases left
      {
        if left == 0 { return Preempted; }
        var attempt := semaphore.TakePermit(id, if first then New else Load(true), left);
        left := left - 1;
        if attempt.Acquired? { done := true; return Ready(attempt.guard); }
        if attempt.Stopped? { return Preempted; }
        first := false;
        ghost var log := semaphore.trace;
        assert log[..|log|] == log && semaphore.EmptyAfter(|log|);
        var again := Wait();
        assert semaphore.trace[..|log|] == log;
        if !again {
          assert semaphore.EmptyAfter(|log|) && Unwoken(semaphore.View(), id);
          semaphore.StaysAwake();
          return Pending;
        }
      }
    }

    /** Drops the future, pending or completed: an unused notification goes to the next in line. */
    method Drop()
      requires Valid()
      modifies this, semaphore
      ensures semaphore.Valid() && id !in semaphore.procs && semaphore.trace == old(semaphore.trace) + [DropFuture(id)]
      ensures old(id in semaphore.event.notified) && semaphore.event.notified == [] ==> semaphore.event.waiting == []
    {
      semaphore.OnEvent(DropFuture(id), DropListener(semaphore.event, id));
      listener := false;
    }
  }
}
