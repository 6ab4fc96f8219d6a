// The barrier in the form the program has it: an object whose count, generation and event the methods
// change in place under the state mutex, cut into atomic operations between which the other tasks may
// do anything the machine of `BarrierModel` allows.  `trace` records the operations.
module BarrierObject {
  import opened Counting
  import opened Events
  import opened BarrierModel
  import opened BarrierInvariants
  import opened BarrierTheorems
  import opened BarrierProgress
  import M = MutexModel
  import MO = MutexObject

  /** What other tasks cannot change about `id`. */
  ghost predicate Untouched(s: State, t: State, id: Id) {
    && id in s.procs && At(t.procs, id) == At(s.procs, id)
    && (Listening(s.ev, id) <==> Listening(t.ev, id))
    && (id in s.ev.notified ==> id in t.ev.notified)
    && MO.Untouched(s.m, t.m, id)
    && s.aborted == t.aborted
  }

  lemma EventLeavesOthers(e: Event, x: Id, op: EventOp, id: Id)
    requires x != id
    ensures Listening(e, id) <==> Listening(OnEvent(e, x, op), id)
    ensures id in e.notified ==> id in OnEvent(e, x, op).notified
  {
  }

  lemma OthersLeave(s: State, a: Action, id: Id)
    requires Inv(s) && Enabled(s, a) && a.id != id && id in s.procs && !Apply(s, a).aborted
    ensures Untouched(s, Apply(s, a), id)
  {
    var e := EffectOf(s, a);
    assert PlacedNow(s, a.id);
    EffectLawful(s, a);
    EventLeavesOthers(s.ev, a.id, e.op, id);
    if e.lock.Some? { MO.OthersLeave(s.m, e.lock.value, id); }
  }

  lemma {:induction false} RunThen(s: State, acts: seq<Action>, a: Action)
    requires CanRun(s, acts) && Enabled(Run(s, acts), a)
    ensures CanRun(s, acts + [a]) && Run(s, acts + [a]) == Apply(Run(s, acts), a)
    decreases acts
  {
    if acts == [] {
      assert [a][1..] == [];
    } else {
      assert (acts + [a])[1..] == acts[1..] + [a];
      RunThen(Apply(s, acts[0]), acts[1..], a);
    }
  }

  lemma {:induction false} ArrivalsThen(s: State, acts: seq<Action>, a: Action)
    requires CanRun(s, acts) && Enabled(Run(s, acts), a)
    ensures CanRun(s, acts + [a])
    ensures Arrivals(s, acts + [a]) == Arrivals(s, acts) + One(IsArrival(Run(s, acts), a))
    decreases acts
  {
    RunThen(s, acts, a);
    if acts == [] {
      assert [a][1..] == [];
    } else {
      assert (acts + [a])[1..] == acts[1..] + [a];
      ArrivalsThen(Apply(s, acts[0]), acts[1..], a);
    }
  }

  class Barrier {
    const n: nat
    var mutex: M.State         // the mutex around `count` and `generationId`
    var count: nat
    var generationId: nat      // a u64: the number of finished generations, wrapped around
    var event: Event
    var procs: map<Id, Pc>     // the `wait` futures that refer to this barrier
    var gens: nat              // the same number, not wrapped
    var aborted: bool
    ghost var trace: seq<Action>

    function View(): State
      reads this
    {
      State(n, mutex, event, procs, count, gens, aborted)
    }

    ghost predicate Valid()
      reads this
    {
      && CanRun(Initial(n), trace) && View() == Run(Initial(n), trace)
      && generationId == gens % 0x1_0000_0000_0000_0000
      && (mutex.aborted ==> aborted)
    }

    constructor (n: nat)
      ensures Valid() && View() == Initial(n) && trace == [] && this.n == n
    {
      this.n := n;
      mutex, event, procs, aborted := M.INITIAL, NO_LISTENERS, map[], false;
      count, generationId, gens := 0, 0, 0;
      trace := [];
    }

    lemma Sound()
      requires Valid()
      ensures Inv(View())
    {
      InitialInv(n);
      RunKeepsInv(Initial(n), trace);
    }

    lemma AbortedOnOverflow()
      requires Valid() && aborted
      ensures Overflows(Initial(n), trace)
    {
      AbortsOnlyOnOverflow(n, trace);
    }

    /** The arrivals so far. */
    ghost function Arrived(): nat
      reads this
      requires CanRun(Initial(n), trace)
    {
      Arrivals(Initial(n), trace)
    }

    ghost predicate Here(id: Id, pc: Pc)
      reads this
    {
      Valid() && !aborted && At(procs, id) == Some(pc)
    }

    /** The machine allows `a` here, with this effect. */
    predicate Can(a: Action, e: Effect)
      reads this
    {
      Enabled(View(), a) && EffectOf(View(), a) == e
    }

    twostate predicate Did(a: Action, to: Maybe<Pc>)
      reads this
    {
      && Valid()
      && trace == old(trace) + [a]
      && At(procs, a.id) == to
      && (aborted <==> mutex.aborted)
    }

    method Record(a: Action, before: State)
      requires CanRun(Initial(n), trace) && before == Run(Initial(n), trace) && before.n == n && Enabled(before, a)
      requires
        var t := Apply(before, a);
        && t.m == mutex && t.ev == event && t.count == count
        && generationId == t.gens % GENERATIONS
      modifies this`procs, this`gens, this`aborted, this`trace
      ensures Valid() && trace == old(trace) + [a] && View() == Apply(before, a)
      ensures Arrived() == old(Arrived()) + One(IsArrival(before, a))
    {
      RunThen(Initial(n), trace, a);
      ArrivalsThen(Initial(n), trace, a);
      var t := Apply(before, a);
      procs, gens, aborted := t.procs, t.gens, t.aborted;
      trace := trace + [a];
    }

    // ----- atomic operations -----

    method OnMutex(a: Action, ma: M.Action, ghost to: Maybe<Pc>)
      requires Valid() && Can(a, OnLock(View(), to, ma))
      modifies this
      ensures M.Enabled(old(mutex), ma) && mutex == M.Apply(old(mutex), ma)
      ensures Did(a, to) && event == old(event) && count == old(count) && gens == old(gens)
    {
      var before := View();
      mutex := M.Apply(mutex, ma);
      Record(a, before);
    }

    method OnEvent(a: Action, op: EventOp, ghost to: Maybe<Pc>)
      requires Valid() && Can(a, OnEvents(View(), to, op))
      modifies this
      ensures Did(a, to) && event == BarrierModel.OnEvent(old(event), a.id, op)
      ensures mutex == old(mutex) && count == old(count) && gens == old(gens)
      ensures At(old(procs), a.id) != Some(Entering(Arrive)) ==> Arrived() == old(Arrived())
      ensures op.DoNotifyAll? ==> TopsUp(old(event), event, |Queue(old(event))|)
      ensures op.DoListen? ==> Queue(event) == Queue(old(event)) + [a.id]
    {
      NotifyInOrder(event, |Queue(event)|);
      var before := View();
      event := BarrierModel.OnEvent(event, a.id, op);
      Record(a, before);
    }

    /** A woken task leaves the event and makes a new lock future. */
    method WakeUp(a: Action, ghost to: Maybe<Pc>)
      requires Valid() && Can(a, Effect(to, Some(M.Spawn(a.id)), DoConsume, Now(View())))
      modifies this
      ensures Did(a, to) && event == Forget(old(event), a.id) && mutex == old(mutex).Goto(a.id, M.Start)
    {
      var before := View();
      event := Forget(event, a.id);
      mutex := M.Apply(mutex, M.Spawn(a.id));
      Record(a, before);
    }

    /** Any number of atomic operations of other tasks; none of them ends the process. */
    method Yield(id: Id, ghost pc: Pc)
      requires Here(id, pc)
      modifies this
      ensures Here(id, pc) && old(trace) <= trace && Untouched(old(View()), View(), id)
    {
      var acts: seq<Action> := *;
      for i := 0 to |acts|
        invariant Here(id, pc) && old(trace) <= trace && Untouched(old(View()), View(), id)
      {
        if Enabled(View(), acts[i]) && acts[i].id != id && !Apply(View(), acts[i]).aborted { Play(acts[i], id); }
      }
    }

    method Play(a: Action, ghost id: Id)
      requires Valid() && Enabled(View(), a) && a.id != id && id in procs && !Apply(View(), a).aborted
      modifies this
      ensures Valid() && trace == old(trace) + [a] && Untouched(old(View()), View(), id)
    {
      Sound();
      OthersLeave(View(), a, id);
      var before := View();
      var after := Apply(before, a);
      mutex, event, count, generationId := after.m, after.ev, after.count, after.gens % GENERATIONS;
      Record(a, before);
    }

    lemma Unknown(id: Id)
      requires Valid() && id !in procs
      ensures !Listening(event, id) && id !in mutex.ops && id !in mutex.releasing
    {
      Sound();
      assert PlacedNow(View(), id);
    }

    lemma HolderCanUnlock(id: Id)
      requires Valid() && !aborted && id in procs && HoldsMutex(procs[id])
      ensures M.Enabled(mutex, M.Unlock(id))
    {
      Sound();
      assert PlacedNow(View(), id);
      RecountGone(procs, id, HoldsMutex);
    }

    lemma ReleaserCanNotify(id: Id)
      requires Valid() && !aborted && id in procs && Releases(Some(procs[id]))
      ensures M.Enabled(mutex, M.UnlockNotify(id))
    {
      Sound();
      assert PlacedNow(View(), id);
    }

    /** A lock future that cannot step, or that completed, can be dropped. */
    lemma Suspended(id: Id, pc: Pc)
      requires Here(id, pc)
      requires (WaitsForLock(pc) && !M.CanStep(mutex, id)) || pc == Entering(Close) || (pc.Staying? && pc.w.Reclose?)
      ensures M.CanDrop(mutex, id)
    {
      Sound();
      assert PlacedNow(View(), id);
    }

    /** The two steps of dropping the mutex guard. */
    predicate Unlocks(pc: Pc, mid: Pc) {
      match pc
      case Staying(w, gen) => mid.Staying? && mid.gen == gen
                              && ((w.Unlock? && mid.w.UnlockNotify?) || (w.Leave? && mid.w.LeaveNotify?))
      case Leading(l, gen) => l.LastUnlock? && mid == Leading(LastUnlockNotify, gen)
      case _ => false
    }

    predicate Notifies(mid: Pc, to: Pc) {
      match mid
      case Staying(w, gen) => (w.UnlockNotify? && to == Staying(Stay.Wait, gen))
                              || (w.LeaveNotify? && to == Done(false, gen))
      case Leading(l, gen) => l.LastUnlockNotify? && to == Done(true, gen)
      case _ => false
    }

    method ReleaseMutex(id: Id, ghost pc: Pc, ghost mid: Pc)
      requires Here(id, pc) && Unlocks(pc, mid)
      modifies this
      ensures Here(id, mid) && old(trace) <= trace
      ensures Listening(event, id) <==> old(Listening(event, id))
    {
      Yield(id, pc);
      HolderCanUnlock(id);
      OnMutex(Step(id, false), M.Unlock(id), Some(mid));
    }

    method NotifyMutex(id: Id, ghost mid: Pc, ghost to: Pc)
      requires Here(id, mid) && Notifies(mid, to)
      modifies this
      ensures Here(id, to) && old(trace) <= trace
      ensures Listening(event, id) <==> old(Listening(event, id))
    {
      Yield(id, mid);
      ReleaserCanNotify(id);
      OnMutex(Step(id, false), M.UnlockNotify(id), Some(to));
    }

    method UnlockMutex(id: Id, ghost pc: Pc, ghost mid: Pc, ghost to: Pc)
      requires Here(id, pc) && Unlocks(pc, mid) && Notifies(mid, to)
      modifies this
      ensures Here(id, to) && old(trace) <= trace
      ensures Listening(event, id) <==> old(Listening(event, id))
    {
      ReleaseMutex(id, pc, mid);
      NotifyMutex(id, mid, to);
    }

    // ----- the inner lock future -----

    /** Where a task goes once it holds the mutex. */
    function Locked(pc: Pc): Pc {
      if pc.Entering? then Entering(Close) else if pc.Staying? then Staying(Reclose, pc.gen) else pc
    }

    /** Polls the lock future. */
    method PollLock(id: Id, ghost pc: Pc, turns: nat) returns (step: Attempt)
      requires Here(id, pc) && WaitsForLock(pc)
      modifies this
      ensures Valid() && old(trace) <= trace
      ensures Listening(event, id) <==> old(Listening(event, id))
      ensures step.Acquired? ==> Here(id, Locked(pc))
      ensures step.Refused? ==> Here(id, pc) && !M.CanStep(mutex, id) && (mutex.word % 2 == 0 ==> M.InTransit(mutex))
      ensures step.Halted? <==> aborted
      ensures step.Stopped? ==> |trace| >= |old(trace)| + turns
      ensures step.Acquired? ==> |trace| > |old(trace)|
      ensures step.Halted? ==> Overflows(Initial(n), trace)
    {
      var left := turns;
      while true
        invariant Here(id, pc) && old(trace) <= trace && (Listening(event, id) <==> old(Listening(event, id)))
        invariant |trace| + left >= |old(trace)| + turns
        decreases left
      {
        if left == 0 { return Stopped; }
        left := left - 1;
        if !M.CanStep(mutex, id) { ParkedOnMutex(id, pc); return Refused; }
        var completes := M.Completes(mutex, id);
        var late: bool := *;
        OnMutex(Step(id, late), M.Step(id, late), Some(if completes then Locked(pc) else pc));
        if aborted { AbortedOnOverflow(); return Halted; }
        if completes { return Acquired; }
        Yield(id, pc);
      }
    }

    lemma ParkedOnMutex(id: Id, pc: Pc)
      requires Here(id, pc) && WaitsForLock(pc) && !M.CanStep(mutex, id)
      ensures mutex.word % 2 == 0 ==> M.InTransit(mutex)
    {
      Sound();
      assert PlacedNow(View(), id);
      assert M.Unwoken(mutex, id);
    }

    /** Drops the completed lock future. */
    method CloseLock(id: Id, ghost pc: Pc)
      requires Here(id, pc) && (pc == Entering(Close) || (pc.Staying? && pc.w.Reclose?))
      modifies this
      ensures Here(id, if pc.Entering? then Entering(Arrive) else Staying(Check, pc.gen)) && old(trace) <= trace
      ensures Listening(event, id) <==> old(Listening(event, id))
    {
      Yield(id, pc);
      Suspended(id, pc);
      OnMutex(Step(id, false), M.DropFuture(id),
          Some(if pc.Entering? then Entering(Arrive) else Staying(Check, pc.gen)));
    }

    /** Drops a lock future that is still pending. */
    method DropLock(id: Id, ghost pc: Pc)
      requires Here(id, pc) && WaitsForLock(pc) && M.CanDrop(mutex, id)
      modifies this
      ensures Valid() && !aborted && id !in procs && old(trace) + [DropFuture(id)] <= trace
    {
      var starved := id in mutex.ops && mutex.ops[id].FairWait?;
      OnMutex(DropFuture(id), M.DropFuture(id), if starved then Some(Closing) else None);
      if starved { FinishDropLock(id); }
    }

    method FinishDropLock(id: Id)
      requires Here(id, Closing)
      modifies this
      ensures Valid() && !aborted && id !in procs && old(trace) <= trace
    {
      Yield(id, Closing);
      Leaving(id);
      OnMutex(Step(id, false), M.Step(id, false), None);
    }

    lemma Leaving(id: Id)
      requires Here(id, Closing)
      ensures M.Enabled(mutex, M.Step(id, false)) && !M.Apply(mutex, M.Step(id, false)).aborted
    {
      Sound();
      assert PlacedNow(View(), id);
    }

    // ----- inside the mutex -----

    /** Counts the arrival; the last one opens the next generation. */
    method Arrives(id: Id) returns (localGen: nat, last: bool, ghost gen: nat)
      requires Here(id, Entering(Arrive))
      modifies this
      ensures old(trace) <= trace
      ensures Here(id, if last then Leading(WakeAll, gen) else Staying(Register, gen)) && localGen == gen % GENERATIONS
      ensures Listening(event, id) <==> old(Listening(event, id))
      ensures if last then count == 0 && gens == gen + 1 else 1 <= count < n && gens == gen
    {
      Yield(id, Entering(Arrive));
      localGen, last, gen := Counts(id);
    }

    /** The critical section: one arrival more, and the count back at zero with the next generation open
        if it was the last. */
    method Counts(id: Id) returns (localGen: nat, last: bool, ghost gen: nat)
      requires Here(id, Entering(Arrive))
      modifies this
      ensures old(trace) <= trace && event == old(event)
      ensures Here(id, if last then Leading(WakeAll, gen) else Staying(Register, gen)) && localGen == gen % GENERATIONS
      ensures gen == old(gens) && Arrived() == old(Arrived()) + 1
      ensures last <==> old(count) + 1 >= n
      ensures if last then count == 0 && gens == gen + 1 else count == old(count) + 1 && count < n && gens == gen
    {
      var before := View();
      gen := gens;
      localGen := generationId;
      count := count + 1;
      last := count >= n;
      if last {
        count := 0;
        generationId := (generationId + 1) % GENERATIONS;
      }
      Record(Step(id, false), before);
    }

    /** Whether a woken task has to wait on: no generation has passed since it arrived. */
    method Compares(id: Id, localGen: nat, ghost gen: nat) returns (again: bool)
      requires Here(id, Staying(Check, gen)) && localGen == gen % GENERATIONS
      modifies this
      ensures Here(id, Staying(if again then Register else Leave, gen)) && old(trace) <= trace
      ensures Listening(event, id) <==> old(Listening(event, id))
      ensures gens < 0x1_0000_0000_0000_0000 ==> (again <==> gen == gens)
    {
      Yield(id, Staying(Check, gen));
      CountIsOpen(id, gen);
      var before := View();
      again := localGen == generationId && count < n;
      Record(Step(id, false), before);
    }

    lemma CountIsOpen(id: Id, gen: nat)
      requires Here(id, Staying(Check, gen))
      ensures gen <= gens && count < n
    {
      Sound();
      assert GenOk(At(View().procs, id), gens, count, n);
    }

    method Registers(id: Id, ghost gen: nat)
      requires Here(id, Staying(Register, gen))
      modifies this
      ensures Here(id, Staying(Unlock, gen)) && Listening(event, id) && old(trace) <= trace
    {
      Yield(id, Staying(Register, gen));
      OnEvent(Step(id, false), DoListen, Some(Staying(Unlock, gen)));
    }

    method WakesEverybody(id: Id, ghost gen: nat)
      requires Here(id, Leading(WakeAll, gen))
      modifies this
      ensures Here(id, Leading(LastUnlock, gen)) && event.waiting == [] && old(trace) <= trace
      ensures Listening(event, id) <==> old(Listening(event, id))
    {
      Yield(id, Leading(WakeAll, gen));
      OnEvent(Step(id, false), DoNotifyAll, Some(Leading(LastUnlock, gen)));
    }
  }

  datatype Attempt = Acquired | Refused | Stopped | Halted

  datatype Poll = Ready(isLeader: bool) | Pending | Preempted | Aborted

  datatype WaitState = Initially | Waiting(localGen: nat) | Reacquiring(localGen: nat)

  /** The future of `wait`. */
  class BarrierWait {
    const barrier: Barrier
    const id: Id
    var evl: bool            // holds a listener
    var state: WaitState
    var done: bool
    ghost var gen: nat       // the generation of its arrival, not wrapped

    /** The program point that the state stands for while the future is suspended. */
    ghost function Place(): Pc
      reads this
    {
      match state
      case Initially => Entering(Lock)
      case Waiting(_) => Staying(Stay.Wait, gen)
      case Reacquiring(_) => Staying(Relock, gen)
    }

    ghost predicate Knows()
      reads this
    {
      && (!state.Initially? ==> state.localGen == gen % GENERATIONS)
      && (evl <==> state.Waiting?)
    }

    ghost predicate Looping()
      reads this, barrier
    {
      barrier.Here(id, Place()) && Knows() && (evl <==> Listening(barrier.event, id)) && !done
    }

    ghost predicate Valid()
      reads this, barrier
    {
      && barrier.Valid() && !barrier.aborted
      && if done then barrier.procs.Keys >= {id} && barrier.procs[id].Done?
         else Looping() && (!state.Waiting? ==> M.CanDrop(barrier.mutex, id))
    }

    constructor (b: Barrier, id: Id)
      requires b.Valid() && !b.aborted && id !in b.procs
      modifies b
      ensures Valid() && !done && barrier == b && this.id == id && b.trace == old(b.trace) + [Call(id)]
    {
      barrier, this.id, evl, state, done := b, id, false, Initially, false;
      gen := 0;
      new;
      b.Unknown(id);
      b.OnMutex(Call(id), M.Spawn(id), Some(Entering(Lock)));
    }

    /** Registers for the end of the generation and lets go of the mutex. */
    method StayOn(localGen: nat)
      requires barrier.Here(id, Staying(Register, gen)) && localGen == gen % GENERATIONS && !done
      modifies this, barrier
      ensures Looping() && state == Waiting(localGen) && old(barrier.trace) <= barrier.trace
    {
      barrier.Registers(id, gen);
      barrier.UnlockMutex(id, Staying(Unlock, gen), Staying(UnlockNotify, gen), Staying(Stay.Wait, gen));
      evl, state := true, Waiting(localGen);
    }

    /** Done: the leader after its generation was closed, a follower only when its generation is over,
        that is, after all its arrivals. */
    ghost predicate Released(isLeader: bool)
      reads this, barrier
    {
      && Valid() && done && barrier.procs[id].Done? && barrier.procs[id].leader == isLeader
      && ArrivalsFor(barrier.n, barrier.procs[id].gen + 1) <= barrier.Arrived()
    }

    method Return(isLeader: bool)
      requires barrier.Here(id, if isLeader then Leading(LastUnlock, gen) else Staying(Leave, gen))
      modifies this, barrier
      ensures Released(isLeader) && old(barrier.trace) <= barrier.trace
    {
      barrier.UnlockMutex(id, if isLeader then Leading(LastUnlock, gen) else Staying(Leave, gen),
                          if isLeader then Leading(LastUnlockNotify, gen) else Staying(LeaveNotify, gen),
                          Done(isLeader, gen));
      done := true;
      ReturnedAfterAll(barrier.n, barrier.trace, id);
    }

    method ArriveNow() returns (last: bool)
      requires barrier.Here(id, Entering(Close)) && Knows() && state.Initially? && !Listening(barrier.event, id)
               && !done
      modifies this, barrier
      ensures old(barrier.trace) <= barrier.trace
      ensures if last then Released(true) else Looping() && state.Waiting?
    {
      var localGen;
      barrier.CloseLock(id, Entering(Close));
      localGen, last, gen := barrier.Arrives(id);
      if last {
        barrier.WakesEverybody(id, gen);
        Return(true);
      } else {
        StayOn(localGen);
      }
    }

    method CheckAgain() returns (again: bool)
      requires barrier.Here(id, Staying(Reclose, gen)) && Knows() && state.Reacquiring?
               && !Listening(barrier.event, id) && !done
      modifies this, barrier
      ensures old(barrier.trace) <= barrier.trace
      ensures if again then Looping() && state.Waiting? else Released(false)
    {
      var localGen := state.localGen;
      barrier.CloseLock(id, Staying(Reclose, gen));
      again := barrier.Compares(id, localGen, gen);
      if again { StayOn(localGen); } else { Return(false); }
    }

    /** Polls the listener; woken, makes a new lock future. */
    method Wait() returns (ready: bool)
      requires Looping() && state.Waiting?
      modifies this, barrier
      ensures |barrier.trace| >= |old(barrier.trace)| + One(ready) && old(barrier.trace) <= barrier.trace
      ensures ready ==> Looping() && state.Reacquiring?
      ensures !ready ==> Valid() && !done && Parked()
    {
      barrier.Yield(id, Staying(Stay.Wait, gen));
      if id !in barrier.event.notified { barrier.Sound(); return false; }
      barrier.Sound();
      assert PlacedNow(barrier.View(), id);
      barrier.WakeUp(Step(id, false), Some(Staying(Relock, gen)));
      evl, state := false, Reacquiring(state.localGen);
      return true;
    }

    /** What a pending future waits for: the mutex, whose wake-up is on its way if it is free, or the
        end of its own generation. */
    ghost predicate Parked()
      reads this, barrier
    {
      if state.Waiting?
      then && id in barrier.event.waiting && id !in barrier.event.notified
           && (barrier.gens < 0x1_0000_0000_0000_0000 ==> gen == barrier.gens || LastAtWork(barrier.View()))
      else !M.CanStep(barrier.mutex, id) && (barrier.mutex.word % 2 == 0 ==> M.InTransit(barrier.mutex))
    }

    method Poll(turns: nat) returns (outcome: Poll)
      requires Valid() && !done
      modifies this, barrier
      ensures barrier.Valid() && old(barrier.trace) <= barrier.trace
      ensures outcome.Ready? ==> Released(outcome.isLeader)
      ensures outcome.Pending? ==> Valid() && !done && Parked()
      ensures outcome.Preempted? ==> |barrier.trace| >= |old(barrier.trace)| + turns
      ensures outcome.Aborted? <==> barrier.aborted
      ensures outcome.Aborted? ==> Overflows(Initial(barrier.n), barrier.trace)
    {
      var left := turns;
      while true
        invariant Looping() && old(barrier.trace) <= barrier.trace
        invariant |barrier.trace| + left >= |old(barrier.trace)| + turns
        decreases left
      {
        if left == 0 { return Preempted; }
        if state.Waiting? {
          var ready := Wait();
          if !ready { return Pending; }
        } else {
          var step, released := Acquire(left);
          if step.Refused? { return Pending; }
          if step.Halted? { return Aborted; }
          if step.Stopped? { return Preempted; }
          if released.Some? { return Ready(released.value); }
        }
        left := left - 1;
      }
    }

    /** Takes the mutex, and looks at the count or at the generation under it. */
    method Acquire(turns: nat) returns (step: Attempt, released: Maybe<bool>)
      requires Looping() && !state.Waiting?
      modifies this, barrier
      ensures barrier.Valid() && old(barrier.trace) <= barrier.trace
      ensures step.Refused? ==> Valid() && !done && Parked()
      ensures step.Stopped? ==> |barrier.trace| >= |old(barrier.trace)| + turns
      ensures step.Acquired? ==> |barrier.trace| > |old(barrier.trace)|
      ensures step.Acquired? ==> if released.Some? then Released(released.value) else Looping()
      ensures step.Halted? <==> barrier.aborted
      ensures step.Halted? ==> Overflows(Initial(barrier.n), barrier.trace)
    {
      released := None;
      ghost var place := Place();
      step := barrier.PollLock(id, place, turns);
      if step.Refused? { barrier.Suspended(id, place); }
      if step.Acquired? {
        if state.Initially? {
          var last := ArriveNow();
          if last { released := Some(true); }
        } else {
          var again := CheckAgain();
          if !again { released := Some(false); }
        }
      }
    }

    /** Drops the future.  The count keeps an arrival that was made; a notification that was received
        goes to the next task in line. */
    method Drop()
      requires Valid()
      modifies this, barrier
      ensures barrier.Valid() && !barrier.aborted && id !in barrier.procs
      ensures old(barrier.trace) + [DropFuture(id)] <= barrier.trace
      ensures old(id in barrier.event.notified) && barrier.event.notified == [] ==> barrier.event.waiting == []
      ensures !old(done) && old(state).Waiting? ==>
                barrier.count == old(barrier.count) && barrier.Arrived() == old(barrier.Arrived())
    {
      if done {
        barrier.OnEvent(DropFuture(id), Keep, None);
      } else if state.Waiting? {
        barrier.OnEvent(DropFuture(id), DoDrop, None);
      } else {
        barrier.DropLock(id, Place());
      }
      evl := false;
    }
  }
}
