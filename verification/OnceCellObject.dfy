// The once cell in the form the program has it: an object whose state, value and events the methods
// change in place, cut into atomic operations between which the other tasks may do anything the
// machine of `OnceCellModel` allows.  `trace` records the operations.
module OnceCellObject {
  import opened Counting
  import opened Events
  import opened OnceCellModel
  import opened OnceCellInvariants
  import opened OnceCellTheorems

  ghost predicate SameSeat(s: Event, t: Event, id: Id) {
    && (Listening(s, id) <==> Listening(t, id))
    && (id in s.notified ==> id in t.notified)
  }

  /** What other tasks cannot change while `id` is at work: its place, an initialized cell, and a cell
      that it is initializing. */
  ghost predicate Untouched(s: State, t: State, id: Id) {
    && id in s.procs && At(t.procs, id) == At(s.procs, id)
    && SameSeat(s.active, t.active, id)
    && SameSeat(s.passive, t.passive, id)
    && (s.cell.Initialized? || s.procs[id].Holding? ==> t.cell == s.cell && t.slot == s.slot)
  }

  lemma EventLeavesOthers(e: Event, x: Id, op: EventOp, id: Id)
    requires x != id
    ensures SameSeat(e, OnEvent(e, x, op), id)
  {
  }

  lemma OthersLeave(s: State, a: Action, id: Id)
    requires Inv(s) && Enabled(s, a) && id in s.procs && (a.TakeValue? || a.id != id)
    ensures !a.TakeValue? && Untouched(s, Apply(s, a), id)
  {
    var e := EffectOf(s, a);
    assert Placed(s, a.id) && Placed(s, id);
    EffectLawful(s, a);
    EventLeavesOthers(s.active, a.id, e.active, id);
    EventLeavesOthers(s.passive, a.id, e.passive, id);
    if s.procs[id].Holding? && Share(At(s.procs, a.id)) == 1 { OneActive(s, id, a.id); }
  }

  lemma {:induction false} RunThen(s: State, acts: seq<Action>, a: Action)
    requires CanRun(s, acts) && Enabled(Run(s, acts), a)
    ensures CanRun(s, acts + [a]) && Run(s, acts + [a]) == Apply(Run(s, acts), a)
    decreases acts
  {
    if acts == [] {
      assert [a][1..] == [];
    } else {
      assert (acts + [a])[1..] == acts[1..] + [a];
      RunThen(Apply(s, acts[0]), acts[1..], a);
    }
  }

  /** A change of the cell or of one of its events. */
  datatype Op = SetState(to: Cell) | SetValue(v: Maybe<int>) | AtActive(a: EventOp) | AtPassive(p: EventOp)

  /** What the action `a` changes, for other actions than `take`. */
  function OpOf(s: State, a: Action): seq<Op>
    requires Enabled(s, a) && !a.TakeValue?
  {
    var e := EffectOf(s, a);
    (if e.slot != s.slot then [SetValue(e.slot)] else []) + (if e.cell != s.cell then [SetState(e.cell)] else [])
    + (if e.active.Keep? then [] else [AtActive(e.active)]) + (if e.passive.Keep? then [] else [AtPassive(e.passive)])
  }

  predicate By(a: Action, id: Id) {
    !a.TakeValue? && a.id == id
  }

  /** The changes that `id` made in a run, in order. */
  function OpsBy(s: State, acts: seq<Action>, id: Id): seq<Op>
    requires CanRun(s, acts)
    decreases acts
  {
    if acts == [] then []
    else (if By(acts[0], id) then OpOf(s, acts[0]) else []) + OpsBy(Apply(s, acts[0]), acts[1..], id)
  }

  lemma {:induction false} OpsThen(s: State, acts: seq<Action>, a: Action, id: Id)
    requires CanRun(s, acts) && Enabled(Run(s, acts), a)
    ensures CanRun(s, acts + [a])
    ensures OpsBy(s, acts + [a], id) == OpsBy(s, acts, id) + if By(a, id) then OpOf(Run(s, acts), a) else []
    decreases acts
  {
    RunThen(s, acts, a);
    if acts == [] {
      assert [a][1..] == [];
    } else {
      assert (acts + [a])[1..] == acts[1..] + [a];
      OpsThen(Apply(s, acts[0]), acts[1..], a, id);
    }
  }

  /** The changes made by a successful initialization, and by one that fails or is cancelled. */
  function FinishOps(v: int, listening: bool): seq<Op> {
    [SetValue(Some(v)), SetState(Initialized), AtActive(DoNotifyAll), AtPassive(DoNotifyAll)]
    + (if listening then [AtActive(DoDrop)] else [])
  }

  function AbandonOps(listening: bool): seq<Op> {
    [SetState(Uninitialized), AtActive(DoNotify)] + (if listening then [AtActive(DoDrop)] else [])
  }

  datatype Poll = Ready(out: Outcome) | Pending | Preempted

  class OnceCell {
    var state: Cell
    var value: Maybe<int>
    var active: Event        // `active_initializers`
    var passive: Event       // `passive_waiters`
    var procs: map<Id, Pc>   // the calls that borrow this cell
    ghost var trace: seq<Action>

    function View(): State
      reads this
    {
      State(state, value, active, passive, procs)
    }

    ghost predicate Valid()
      reads this
    {
      CanRun(INITIAL, trace) && View() == Run(INITIAL, trace)
    }

    constructor ()
      ensures Valid() && View() == INITIAL && trace == []
    {
      state, value, active, passive, procs := Uninitialized, None, NO_LISTENERS, NO_LISTENERS, map[];
      trace := [];
    }

    lemma Sound()
      requires Valid()
      ensures Inv(View())
    {
      InitialInv();
      RunKeepsInv(INITIAL, trace);
    }

    lemma Knowing(id: Id)
      requires Valid()
      ensures Placed(View(), id)
    {
      Sound();
    }

    /** The changes that `id` made so far. */
    ghost function Made(id: Id): seq<Op>
      reads this
      requires CanRun(INITIAL, trace)
    {
      OpsBy(INITIAL, trace, id)
    }

    ghost predicate Here(id: Id, pc: Pc)
      reads this
    {
      Valid() && id in procs && procs[id] == pc
    }

    /** The machine allows `a` here, with this effect. */
    predicate Can(a: Action, to: Maybe<Pc>, cell: Cell, slot: Maybe<int>, onActive: EventOp, onPassive: EventOp)
      reads this
    {
      !a.TakeValue? && Enabled(View(), a) && EffectOf(View(), a) == Effect(to, cell, slot, onActive, onPassive)
    }

    twostate predicate Did(a: Action, to: Maybe<Pc>)
      reads this
      requires !a.TakeValue?
    {
      Valid() && trace == old(trace) + [a] && At(procs, a.id) == to
    }

    predicate Is(cell: Cell, slot: Maybe<int>, a: Event, p: Event)
      reads this
    {
      state == cell && value == slot && active == a && passive == p
    }

    method Record(a: Action, before: State)
      requires CanRun(INITIAL, trace) && before == Run(INITIAL, trace) && Enabled(before, a)
      requires
        var t := Apply(before, a);
        t.cell == state && t.slot == value && t.active == active && t.passive == passive
      modifies this`procs, this`trace
      ensures Valid() && trace == old(trace) + [a] && View() == Apply(before, a)
      ensures forall id :: Made(id) == old(Made(id)) + if By(a, id) then OpOf(before, a) else []
    {
      RunThen(INITIAL, trace, a);
      forall id { OpsThen(INITIAL, trace, a, id); }
      procs := Apply(before, a).procs;
      trace := trace + [a];
    }

    // ----- atomic operations -----

    /** The program counter of `a.id` moves on; the cell is not touched. */
    method Note(a: Action, ghost to: Maybe<Pc>)
      requires Valid() && Can(a, to, state, value, Keep, Keep)
      modifies this
      ensures Did(a, to) && Is(old(state), old(value), old(active), old(passive)) && Made(a.id) == old(Made(a.id))
    {
      var before := View();
      Record(a, before);
    }

    method Load(a: Action, ghost to: Maybe<Pc>) returns (seen: Cell)
      requires Valid() && Can(a, to, state, value, Keep, Keep)
      modifies this
      ensures Did(a, to) && Is(old(state), old(value), old(active), old(passive)) && seen == old(state)
      ensures Made(a.id) == old(Made(a.id))
    {
      var before := View();
      seen := state;
      Record(a, before);
    }

    /** Compare-exchange from uninitialized to initializing. */
    method Claim(a: Action, ghost to: Maybe<Pc>) returns (ok: bool)
      requires Valid() && Can(a, to, if state.Uninitialized? then Initializing else state, value, Keep, Keep)
      modifies this
      ensures Did(a, to) && (ok <==> old(state).Uninitialized?)
      ensures Is(if ok then Initializing else old(state), old(value), old(active), old(passive))
      ensures Made(a.id) == old(Made(a.id)) + (if ok then [SetState(Initializing)] else [])
    {
      var before := View();
      ok := state.Uninitialized?;
      if ok { state := Initializing; }
      Record(a, before);
    }

    method StoreState(a: Action, cell: Cell, ghost to: Maybe<Pc>)
      requires Valid() && Can(a, to, cell, value, Keep, Keep)
      modifies this
      ensures Did(a, to) && Is(cell, old(value), old(active), old(passive))
      ensures cell != old(state) ==> Made(a.id) == old(Made(a.id)) + [SetState(cell)]
    {
      var before := View();
      state := cell;
      Record(a, before);
    }

    method StoreValue(a: Action, v: int, ghost to: Maybe<Pc>)
      requires Valid() && Can(a, to, state, Some(v), Keep, Keep)
      modifies this
      ensures Did(a, to) && Is(old(state), Some(v), old(active), old(passive))
      ensures old(value) != Some(v) ==> Made(a.id) == old(Made(a.id)) + [SetValue(Some(v))]
    {
      var before := View();
      value := Some(v);
      Record(a, before);
    }

    method OnActive(a: Action, op: EventOp, ghost to: Maybe<Pc>)
      requires Valid() && !op.Keep? && Can(a, to, state, value, op, Keep)
      modifies this
      ensures Did(a, to) && Is(old(state), old(value), OnEvent(old(active), a.id, op), old(passive))
      ensures Made(a.id) == old(Made(a.id)) + [AtActive(op)]
      ensures op.DoNotify? ==> TopsUp(old(active), active, 1)
      ensures op.DoNotifyAll? ==> active.waiting == [] && Queue(active) == Queue(old(active))
      ensures op.DoListen? ==> Queue(active) == Queue(old(active)) + [a.id]
      ensures op.DoNotifyAll? ==> forall y :: y in old(active).waiting ==> y in active.additional
    {
      NotifyInOrder(active, 1);
      AdditionalInOrder(active, |active.waiting|);
      assert active.waiting[..Min(|active.waiting|, |active.waiting|)] == active.waiting;
      var before := View();
      active := OnEvent(active, a.id, op);
      Record(a, before);
    }

    method OnPassive(a: Action, op: EventOp, ghost to: Maybe<Pc>)
      requires Valid() && !op.Keep? && Can(a, to, state, value, Keep, op)
      modifies this
      ensures Did(a, to) && Is(old(state), old(value), old(active), OnEvent(old(passive), a.id, op))
      ensures Made(a.id) == old(Made(a.id)) + [AtPassive(op)]
      ensures op.DoNotify? ==> TopsUp(old(passive), passive, 1)
      ensures op.DoNotifyAll? ==> passive.waiting == [] && Queue(passive) == Queue(old(passive))
      ensures op.DoListen? ==> Queue(passive) == Queue(old(passive)) + [a.id]
      ensures op.DoNotifyAll? ==> forall y :: y in old(passive).waiting ==> y in passive.additional
    {
      NotifyInOrder(passive, 1);
      AdditionalInOrder(passive, |passive.waiting|);
      assert passive.waiting[..Min(|passive.waiting|, |passive.waiting|)] == passive.waiting;
      var before := View();
      passive := OnEvent(passive, a.id, op);
      Record(a, before);
    }

    /** Any number of atomic operations of other tasks. */
    method Yield(id: Id, ghost pc: Pc)
      requires Here(id, pc)
      modifies this
      ensures Here(id, pc) && old(trace) <= trace && Untouched(old(View()), View(), id)
      ensures Made(id) == old(Made(id))
    {
      var acts: seq<Action> := *;
      for i := 0 to |acts|
        invariant Here(id, pc) && old(trace) <= trace && Untouched(old(View()), View(), id)
        invariant Made(id) == old(Made(id))
      {
        if Enabled(View(), acts[i]) && (acts[i].TakeValue? || acts[i].id != id) {
          Sound();
          OthersLeave(View(), acts[i], id);
          var before := View();
          var after := Apply(before, acts[i]);
          state, value, active, passive := after.cell, after.slot, after.active, after.passive;
          Record(acts[i], before);
        }
      }
    }

    // ----- operations -----

    /** The value, if the cell is initialized; reading it unchecked is sound then. */
    method Get() returns (x: Maybe<int>)
      requires Valid()
      ensures x.Some? <==> state.Initialized?
      ensures x.Some? ==> x == value
    {
      Sound();
      return if state.Initialized? then value else None;
    }

    /** Exclusive access: takes the value out. */
    method Take() returns (x: Maybe<int>)
      requires Valid() && procs == map[]
      modifies this
      ensures Valid() && procs == map[] && !state.Initialized? && trace == old(trace) + [TakeValue]
      ensures if old(state).Initialized? then x == old(value) && x.Some? && value == None && state.Uninitialized?
              else x == None && state == old(state) && value == old(value)
    {
      Sound();
      var before := View();
      x := None;
      if state.Initialized? {
        x := value;
        value := None;
        state := Uninitialized;
      }
      Record(TakeValue, before);
    }

    /** The active initializer has its value: writes it, publishes it and tells everybody. */
    method Finish(id: Id, j: Job)
      requires Here(id, Holding(WriteSlot, j))
      modifies this
      ensures Valid() && old(trace) <= trace && state.Initialized? && value == Some(j.v)
      ensures Here(id, Over(Stored, j)) && !Listening(active, id)
      ensures Made(id) == old(Made(id)) + FinishOps(j.v, old(Listening(active, id)))
    {
      Publishing(id, j);
      Telling(id, j);
      if Listening(active, id) { Close(id, Stored, j); }
    }

    method Publishing(id: Id, j: Job)
      requires Here(id, Holding(WriteSlot, j))
      modifies this
      ensures Here(id, Pc.Telling(TellActive, Stored, j)) && old(trace) <= trace && state.Initialized?
              && value == Some(j.v)
      ensures Made(id) == old(Made(id)) + [SetValue(Some(j.v)), SetState(Initialized)]
      ensures Listening(active, id) <==> old(Listening(active, id))
    {
      Yield(id, Holding(WriteSlot, j));
      Knowing(id);
      StoreValue(Step(id, false), j.v, Some(Holding(Publish, j)));
      Yield(id, Holding(Publish, j));
      Knowing(id);
      StoreState(Step(id, false), Initialized, Some(Pc.Telling(TellActive, Stored, j)));
    }

    method Telling(id: Id, j: Job)
      requires Here(id, Pc.Telling(TellActive, Stored, j)) && state.Initialized?
      modifies this
      ensures old(trace) <= trace && state == old(state) && value == old(value)
      ensures Here(id, if Listening(active, id) then Pc.Telling(Tell.Close, Stored, j) else Over(Stored, j))
      ensures Made(id) == old(Made(id)) + [AtActive(DoNotifyAll), AtPassive(DoNotifyAll)]
      ensures Listening(active, id) <==> old(Listening(active, id))
    {
      Yield(id, Pc.Telling(TellActive, Stored, j));
      OnActive(Step(id, false), DoNotifyAll, Some(Pc.Telling(TellPassive, Stored, j)));
      Yield(id, Pc.Telling(TellPassive, Stored, j));
      OnPassive(Step(id, false), DoNotifyAll, Some(Return(View(), id, Stored, j)));
    }

    /** Returns: drops the listener that is still there. */
    method Close(id: Id, out: Outcome, j: Job)
      requires Here(id, Pc.Telling(Tell.Close, out, j))
      modifies this
      ensures Here(id, Over(out, j)) && old(trace) <= trace && !Listening(active, id)
      ensures old(state).Initialized? ==> state.Initialized? && value == old(value)
      ensures Made(id) == old(Made(id)) + [AtActive(DoDrop)]
    {
      Yield(id, Pc.Telling(Tell.Close, out, j));
      OnActive(Step(id, false), DoDrop, Some(Over(out, j)));
    }

    /** Drop of the initialization guard: the cell is open again, and the next initializer is told. */
    method Abandon(id: Id, j: Job)
      requires Here(id, Holding(Reset, j))
      modifies this
      ensures Here(id, Over(Failed, j)) && old(trace) <= trace && !Listening(active, id)
      ensures Made(id) == old(Made(id)) + AbandonOps(old(Listening(active, id)))
    {
      Yield(id, Holding(Reset, j));
      Knowing(id);
      StoreState(Step(id, false), Uninitialized, Some(Pc.Telling(TellNext, Failed, j)));
      Yield(id, Pc.Telling(TellNext, Failed, j));
      OnActive(Step(id, false), DoNotify, Some(Return(View(), id, Failed, j)));
      if Listening(active, id) { Close(id, Failed, j); }
    }

    /** Stores the value if nobody has claimed the cell, and hands it back otherwise. */
    method TrySet(id: Id, v: int) returns (rejected: Maybe<int>)
      requires Valid() && id !in procs
      modifies this
      ensures Valid() && old(trace) + [Action.TrySet(id, Job(v, false))] <= trace
      ensures rejected == None || rejected == Some(v)
      ensures rejected == None ==> state.Initialized? && value == Some(v) && Here(id, Over(Stored, Job(v, false)))
      ensures rejected.Some? ==> !state.Uninitialized? && Here(id, Over(Refused, Job(v, false)))
    {
      var j := Job(v, false);
      Note(Action.TrySet(id, j), Some(Seeking(TryCas, j)));
      Yield(id, Seeking(TryCas, j));
      var ok := Claim(Step(id, false), Some(if state.Uninitialized? then Holding(WriteSlot, j) else Over(Refused, j)));
      if !ok { return Some(v); }
      Finish(id, j);
      return None;
    }
  }

  datatype Closure = Runs | Returns | Fails

  /** The future of `get_or_try_init`, `get_or_init` and `set`. */
  class InitFuture {
    const cell: OnceCell
    const id: Id
    const job: Job
    var listener: bool
    var running: bool    // inside the closure: this future is the active initializer
    var done: bool

    ghost predicate Valid()
      reads this, cell
    {
      && cell.Valid()
      && id in cell.procs
      && (listener <==> Listening(cell.active, id))
      && if done then cell.procs[id].Over? && cell.procs[id].j == job && !listener
         else
           cell.procs[id] == if running then Holding(Running, job) else Seeking(if listener then Park else Get, job)
    }

    constructor (c: OnceCell, id: Id, job: Job)
      requires c.Valid() && id !in c.procs
      modifies c
      ensures Valid() && !done && cell == c && this.id == id && this.job == job
              && c.trace == old(c.trace) + [Init(id, job)]
    {
      cell, this.id, this.job, listener, running, done := c, id, job, false, false, false;
      new;
      c.Knowing(id);
      c.Note(Init(id, job), Some(Seeking(Get, job)));
    }

    ghost predicate At(f: Seek)
      reads this, cell
    {
      && cell.Here(id, Seeking(f, job))
      && (listener <==> Listening(cell.active, id))
      && !running && !done
    }

    ghost predicate Finished(out: Outcome)
      reads this, cell
    {
      && Valid() && done && cell.procs[id] == Over(out, job)
      && (out.Stored? ==> cell.state.Initialized? && cell.value == Some(job.v))
      && (out.Unused? ==> cell.state.Initialized? && cell.value.Some?)
      && (out.Failed? ==> job.fallible)
    }

    /** Suspended: inside its closure, or on a listener that was not notified; and then, if the cell is
        open or initialized, whoever will notify is at work. */
    ghost predicate Suspended()
      reads this, cell
    {
      && Valid() && !done
      && (!running ==>
            && id in cell.active.waiting && id !in cell.active.notified
            && (cell.state.Uninitialized? ==>
                  cell.active.notified != [] || exists w :: TriesAgain(Counting.At(cell.procs, w)))
            && (cell.state.Initialized? ==> exists w :: WillTellActive(Counting.At(cell.procs, w))))
    }

    /** Returns `out` without having touched the cell. */
    method ReturnUnused()
      requires cell.Here(id, Return(cell.View(), id, Unused, job)) && cell.state.Initialized?
      requires (listener <==> Listening(cell.active, id)) && !running && !done
      modifies this, cell
      ensures Finished(Unused) && old(cell.trace) <= cell.trace
    {
      if listener { cell.Close(id, Unused, job); }
      listener, done := false, true;
      cell.Sound();
    }

    /** `get`, the fast path. */
    method FastPath() returns (found: bool)
      requires At(Get) && !listener
      modifies this, cell
      ensures old(cell.trace) <= cell.trace
      ensures if found then Finished(Unused) else At(Seek.Load)
      ensures old(cell.state).Initialized? ==> found
    {
      cell.Yield(id, Seeking(Get, job));
      cell.Sound();
      var seen := cell.Load(Step(id, false),
          Some(if cell.state.Initialized? then Over(Unused, job) else Seeking(Seek.Load, job)));
      found := seen.Initialized?;
      done := found;
    }

    /** Loads the state: where the loop goes next. */
    method LoadState() returns (seen: Cell)
      requires At(Seek.Load)
      modifies this, cell
      ensures old(cell.trace) < cell.trace && listener == old(listener) && (listener <==> Listening(cell.active, id))
              && !running && !done
      ensures match seen
              case Initialized => cell.state.Initialized? && cell.Here(id, Return(cell.View(), id, Unused, job))
              case Initializing => At(if listener then Park else Register)
              case Uninitialized => At(Cas)
      ensures cell.Made(id) == old(cell.Made(id))
    {
      cell.Yield(id, Seeking(Seek.Load, job));
      seen := cell.Load(Step(id, false),
                        Some(match cell.state
                             case Initialized => Return(cell.View(), id, Unused, job)
                             case Initializing => Seeking(if Listening(cell.active, id) then Park else Register, job)
                             case Uninitialized => Seeking(Cas, job)));
    }

    /** Somebody else is initializing: registers, or waits for the notification. */
    method Wait() returns (again: bool)
      requires At(if listener then Park else Register)
      modifies this, cell
      ensures old(cell.trace) <= cell.trace
      ensures if again then At(Seek.Load) else Suspended()
      ensures again ==> cell.Made(id) == old(cell.Made(id)) + [AtActive(if old(listener) then DoConsume else DoListen)]
    {
      cell.Yield(id, Seeking(if listener then Park else Register, job));
      if listener && id !in cell.active.notified { cell.Sound(); return false; }
      cell.OnActive(Step(id, false), if listener then DoConsume else DoListen, Some(Seeking(Seek.Load, job)));
      listener := !listener;
      return true;
    }

    method Claim() returns (ok: bool)
      requires At(Cas)
      modifies this, cell
      ensures old(cell.trace) <= cell.trace
      ensures if ok then Valid() && running && !done else At(Seek.Load)
      ensures cell.Made(id) == old(cell.Made(id)) + (if ok then [SetState(Initializing)] else [])
    {
      cell.Yield(id, Seeking(Cas, job));
      ok := cell.Claim(Step(id, false),
          Some(if cell.state.Uninitialized? then Holding(Running, job) else Seeking(Seek.Load, job)));
      running := ok;
    }

    /** Polls the closure's future, which answers with `closure`: a value is stored, an error reopens the
        cell. */
    method RunClosure(closure: Closure) returns (outcome: Poll)
      requires Valid() && running && !done && (closure.Fails? ==> job.fallible)
      modifies this, cell
      ensures old(cell.trace) <= cell.trace
      ensures
        match closure
        case Runs => outcome == Pending && running && Suspended()
        case Returns => outcome == Ready(Stored) && Finished(Stored)
        case Fails => outcome == Ready(Failed) && Finished(Failed)
      ensures
        match closure
        case Runs => cell.Made(id) == old(cell.Made(id))
        case Returns => cell.Made(id) == old(cell.Made(id)) + FinishOps(job.v, old(listener))
        case Fails => cell.Made(id) == old(cell.Made(id)) + AbandonOps(old(listener))
    {
      cell.Yield(id, Holding(Running, job));
      if closure.Runs? { return Pending; }
      cell.Note(Step(id, closure.Fails?), Some(Holding(if closure.Fails? then Reset else WriteSlot, job)));
      if closure.Fails? { cell.Abandon(id, job); } else { cell.Finish(id, job); }
      listener, running, done := false, false, true;
      return Ready(if closure.Fails? then Failed else Stored);
    }

    /** The changes that this future made last. */
    ghost predicate MadeLast(ops: seq<Op>)
      reads this, cell
      requires cell.Valid()
    {
      var made := cell.Made(id);
      |made| >= |ops| && made[|made| - |ops|..] == ops
    }

    /** What a ready poll reports: somebody else's value is there if the closure was never run; its value is
        stored exactly if it returned one; the cell is reopened exactly if it failed. */
    ghost predicate Reports(out: Outcome, ran: bool, closure: Closure)
      reads this, cell
      requires cell.Valid()
    {
      && Finished(out)
      && out == (if !ran then Unused else if closure.Fails? then Failed else Stored)
      && (out.Stored? ==> closure.Returns? && (MadeLast(FinishOps(job.v, true)) || MadeLast(FinishOps(job.v, false))))
      && (out.Failed? ==> closure.Fails? && (MadeLast(AbandonOps(true)) || MadeLast(AbandonOps(false))))
    }

    /** What a poll ends in. */
    ghost predicate Ends(outcome: Poll, ran: bool, closure: Closure)
      reads this, cell
    {
      && cell.Valid()
      && (outcome.Ready? ==> Reports(outcome.out, ran, closure))
      && (outcome.Pending? ==> Suspended())
      && (ran ==> if closure.Runs? then outcome.Pending? && running else outcome.Ready?)
    }

    method RunNow(closure: Closure) returns (outcome: Poll)
      requires Valid() && running && !done && (closure.Fails? ==> job.fallible)
      modifies this, cell
      ensures old(cell.trace) <= cell.trace && Ends(outcome, true, closure) && !outcome.Preempted?
    {
      ghost var listening := listener;
      outcome := RunClosure(closure);
      assert closure.Returns? ==> MadeLast(FinishOps(job.v, listening));
      assert closure.Fails? ==> MadeLast(AbandonOps(listening));
    }

    /** The loop of `initialize_or_wait`. */
    method Initialize(turns: nat, closure: Closure) returns (outcome: Poll, ran: bool)
      requires At(Seek.Load) && (closure.Fails? ==> job.fallible)
      modifies this, cell
      ensures old(cell.trace) <= cell.trace && Ends(outcome, ran, closure)
      ensures outcome.Preempted? ==> |cell.trace| >= |old(cell.trace)| + turns
    {
      var left := turns;
      while true
        invariant At(Seek.Load) && old(cell.trace) <= cell.trace
        invariant |cell.trace| + left >= |old(cell.trace)| + turns
        decreases left
      {
        if left == 0 { return Preempted, false; }
        left := left - 1;
        var seen := LoadState();
        match seen {
          case Initialized => ReturnUnused(); return Ready(Unused), false;
          case Initializing =>
            var again := Wait();
            if !again { return Pending, false; }
          case Uninitialized =>
            var ok := Claim();
            if ok { outcome := RunNow(closure); return outcome, true; }
        }
      }
    }

    /** One poll, in which the closure's future answers with `closure` if it is polled (`ran`). */
    method Poll(turns: nat, closure: Closure) returns (outcome: Poll, ran: bool)
      requires Valid() && !done && (closure.Fails? ==> job.fallible)
      modifies this, cell
      ensures old(cell.trace) <= cell.trace && Ends(outcome, ran, closure)
      ensures old(running) ==> ran
      ensures !old(running) && !old(listener) && old(cell.state).Initialized? ==> outcome == Ready(Unused)
      ensures outcome.Preempted? ==> |cell.trace| >= |old(cell.trace)| + turns
    {
      if running { outcome := RunNow(closure); return outcome, true; }
      if listener {
        var again := Wait();
        if !again { return Pending, false; }
      } else {
        var found := FastPath();
        if found { return Ready(Unused), false; }
      }
      outcome, ran := Initialize(turns, closure);
    }

    /** Drops the future: a running initializer opens the cell again and tells the next one, then drops
        its own listener; a parked one passes its notification on. */
    method Drop()
      requires Valid() && !done
      modifies this, cell
      ensures cell.Valid() && old(cell.trace) + [DropFuture(id)] <= cell.trace && !Listening(cell.active, id)
      ensures id in cell.procs <==> old(running)
      ensures id in cell.procs ==> cell.procs[id] == Over(Failed, job)
      ensures old(running) ==> cell.Made(id) == old(cell.Made(id)) + AbandonOps(old(listener))
      ensures !old(running) && old(id in cell.active.notified) && cell.active.notified == [] ==>
          cell.active.waiting == []
    {
      if running {
        cell.Note(DropFuture(id), Some(Holding(Reset, job)));
        cell.Abandon(id, job);
      } else {
        cell.OnActive(DropFuture(id), DoDrop, None);
      }
      listener, running, done := false, false, true;
    }
  }

  datatype Waited = Value(x: int) | Waiting

  /** The future of `wait`. */
  class WaitFuture {
    const cell: OnceCell
    const id: Id
    var listener: bool
    var done: bool

    ghost predicate Valid()
      reads this, cell
    {
      && cell.Valid()
      && id in cell.procs
      && (listener <==> Listening(cell.passive, id))
      && if done then cell.procs[id].Returned? && !listener
         else cell.procs[id] == Awaiting(if listener then Sleep else Get1)
    }

    constructor (c: OnceCell, id: Id)
      requires c.Valid() && id !in c.procs
      modifies c
      ensures Valid() && !done && cell == c && this.id == id && c.trace == old(c.trace) + [Action.Wait(id)]
    {
      cell, this.id, listener, done := c, id, false, false;
      new;
      c.Knowing(id);
      c.Note(Action.Wait(id), Some(Awaiting(Get1)));
    }

    ghost predicate At(p: Passive)
      reads this, cell
    {
      cell.Here(id, Awaiting(p)) && (listener <==> Listening(cell.passive, id)) && !done
    }

    /** Completed, with the value that is in the cell. */
    ghost predicate Read(x: int)
      reads this, cell
    {
      Valid() && done && cell.state.Initialized? && cell.value == Some(x)
    }

    method FastPath() returns (r: Waited)
      requires At(Get1) && !listener
      modifies this, cell
      ensures old(cell.trace) <= cell.trace
      ensures if r.Value? then Read(r.x) else At(Subscribe) && !listener
      ensures old(cell.state).Initialized? ==> r.Value?
    {
      cell.Yield(id, Awaiting(Get1));
      cell.Sound();
      var seen := cell.Load(Step(id, false),
          Some(if cell.state.Initialized? then Returned(cell.value) else Awaiting(Subscribe)));
      if !seen.Initialized? { return Waiting; }
      done := true;
      return Value(cell.value.value);
    }

    /** Registers and looks again. */
    method Register() returns (r: Waited)
      requires At(Subscribe) && !listener
      modifies this, cell
      ensures old(cell.trace) <= cell.trace
      ensures if r.Value? then Read(r.x) else At(Sleep) && listener
    {
      cell.Yield(id, Awaiting(Subscribe));
      cell.OnPassive(Step(id, false), DoListen, Some(Awaiting(Get2)));
      listener := true;
      cell.Yield(id, Awaiting(Get2));
      var seen := cell.Load(Step(id, false), Some(Awaiting(if cell.state.Initialized? then Unsubscribe else Sleep)));
      if !seen.Initialized? { return Waiting; }
      r := Leave();
    }

    method Leave() returns (r: Waited)
      requires At(Unsubscribe) && listener && cell.state.Initialized?
      modifies this, cell
      ensures old(cell.trace) <= cell.trace && r.Value? && Read(r.x)
    {
      cell.Yield(id, Awaiting(Unsubscribe));
      cell.Sound();
      cell.OnPassive(Step(id, false), DoDrop, Some(Returned(cell.value)));
      listener, done := false, true;
      return Value(cell.value.value);
    }

    /** Awaits the listener; once it is notified the value is read without looking at the state. */
    method Await() returns (r: Waited)
      requires At(Sleep) && listener
      modifies this, cell
      ensures old(cell.trace) <= cell.trace
      ensures if r.Value? then Read(r.x) else At(Sleep) && id in cell.passive.waiting && id !in cell.passive.notified
    {
      cell.Yield(id, Awaiting(Sleep));
      if id !in cell.passive.notified { return Waiting; }
      cell.OnPassive(Step(id, false), DoConsume, Some(Awaiting(ReadSlot)));
      listener := false;
      r := ReadValue();
    }

    method ReadValue() returns (r: Waited)
      requires At(ReadSlot) && !listener
      modifies this, cell
      ensures old(cell.trace) <= cell.trace && r.Value? && Read(r.x)
    {
      cell.Yield(id, Awaiting(ReadSlot));
      cell.Sound();
      cell.Knowing(id);
      cell.Note(Step(id, false), Some(Returned(cell.value)));
      done := true;
      return Value(cell.value.value);
    }

    method Poll() returns (r: Waited)
      requires Valid() && !done
      modifies this, cell
      ensures cell.Valid() && old(cell.trace) <= cell.trace
      ensures r.Value? ==> Read(r.x)
      ensures r.Waiting? ==> Valid() && !done && id in cell.passive.waiting && id !in cell.passive.notified
      ensures r.Waiting? && cell.state.Initialized? ==> exists w :: WillTellPassive(Counting.At(cell.procs, w))
      ensures !old(listener) && old(cell.state).Initialized? ==> r.Value?
    {
      if !listener {
        r := FastPath();
        if r.Value? { return; }
        r := Register();
        if r.Value? { return; }
      }
      r := Await();
      cell.Sound();
    }

    method Drop()
      requires Valid() && !done
      modifies this, cell
      ensures cell.Valid() && cell.trace == old(cell.trace) + [DropFuture(id)]
      ensures id !in cell.procs && !Listening(cell.passive, id)
    {
      cell.OnPassive(DropFuture(id), DoDrop, None);
      listener, done := false, true;
    }
  }
}
