// The once cell as a machine of atomic steps.
module OnceCellModel {
  import opened Counting
  import opened Events

  datatype Cell = Uninitialized | Initializing | Initialized

  /** The value a caller would store; `fallible`: its closure may fail (`get_or_try_init`). */
  datatype Job = Job(v: int, fallible: bool)

  /** `get_or_try_init`, `set` and `try_set` before they own the cell. */
  datatype Seek =
    | Get          // the fast path: loads the state
    | Load         // loop of `initialize_or_wait`: loads the state
    | Register     // saw a running initializer, no listener: `active_initializers.listen`
    | Park         // polls its listener
    | Cas          // saw an uninitialized cell: compare-exchange to initializing
    | TryCas       // `try_set`: the same compare-exchange, once

  /** The one active initializer. */
  datatype Hold =
    | Running      // its closure runs; a cancellation or a failure drops the guard
    | WriteSlot    // writes the value
    | Publish      // stores the state `Initialized`
    | Reset        // guard drop: stores the state `Uninitialized`

  datatype Tell =
    | TellActive   // `active_initializers.notify_additional(usize::MAX)`
    | TellPassive  // `passive_waiters.notify_additional(usize::MAX)`
    | TellNext     // guard drop: `active_initializers.notify(1)`
    | Close        // returns: drops its own listener

  /** `wait`. */
  datatype Passive =
    | Get1         // the fast path: loads the state
    | Subscribe    // `passive_waiters.listen`
    | Get2         // loads the state again
    | Sleep        // awaits its listener
    | Unsubscribe  // the second load succeeded: drops the listener
    | ReadSlot     // woken: reads the value unchecked

  /** `Unused`: somebody else's value is there; `Refused`: `try_set` gave the value back. */
  datatype Outcome = Stored | Unused | Failed | Refused

  datatype Pc =
    | Seeking(f: Seek, j: Job)
    | Holding(h: Hold, j: Job)
    | Telling(t: Tell, out: Outcome, j: Job)
    | Awaiting(p: Passive)
    | Over(out: Outcome, j: Job)    // returned: stored its value, handed it back unused, or failed
    | Returned(x: Maybe<int>)       // `wait` returned what it read

  datatype State = State(cell: Cell, slot: Maybe<int>, active: Event, passive: Event, procs: map<Id, Pc>)

  const INITIAL := State(Uninitialized, None, NO_LISTENERS, NO_LISTENERS, map[])

  datatype Action =
    | Init(id: Id, j: Job)         // `get_or_try_init`, `get_or_init`, `set`
    | TrySet(id: Id, j: Job)
    | Wait(id: Id)
    | Step(id: Id, fails: bool)    // `fails`: a running fallible closure returns an error
    | DropFuture(id: Id)
    | Collect(id: Id)              // the caller is done with a returned result
    | TakeValue                    // `take(&mut self)`: nobody else borrows the cell

  datatype EventOp = Keep | DoListen | DoConsume | DoNotify | DoNotifyAll | DoDrop

  datatype Effect = Effect(to: Maybe<Pc>, cell: Cell, slot: Maybe<int>, active: EventOp, passive: EventOp)

  function Go(s: State, to: Pc): Effect {
    Effect(Some(to), s.cell, s.slot, Keep, Keep)
  }

  function OnActive(s: State, to: Pc, op: EventOp): Effect {
    Effect(Some(to), s.cell, s.slot, op, Keep)
  }

  function OnPassive(s: State, to: Pc, op: EventOp): Effect {
    Effect(Some(to), s.cell, s.slot, Keep, op)
  }

  /** A return drops the listener that is still registered, if any. */
  function Return(s: State, id: Id, out: Outcome, j: Job): Pc {
    if Listening(s.active, id) then Telling(Close, out, j) else Over(out, j)
  }

  function SeekEffect(s: State, id: Id, f: Seek, j: Job): Effect {
    match f
    case Get => Go(s, if s.cell.Initialized? then Over(Unused, j) else Seeking(Load, j))
    case Load =>
      Go(s, match s.cell
            case Initialized => Return(s, id, Unused, j)
            case Initializing => Seeking(if Listening(s.active, id) then Park else Register, j)
            case Uninitialized => Seeking(Cas, j))
    case Register => OnActive(s, Seeking(Load, j), DoListen)
    case Park => OnActive(s, Seeking(Load, j), DoConsume)
    case Cas =>
      if s.cell.Uninitialized? then Effect(Some(Holding(Running, j)), Initializing, s.slot, Keep, Keep)
      else Go(s, Seeking(Load, j))
    case TryCas =>
      if s.cell.Uninitialized? then Effect(Some(Holding(WriteSlot, j)), Initializing, s.slot, Keep, Keep)
      else Go(s, Over(Refused, j))
  }

  function HoldEffect(s: State, h: Hold, j: Job, fails: bool): Effect {
    match h
    case Running => Go(s, Holding(if fails && j.fallible then Reset else WriteSlot, j))
    case WriteSlot => Effect(Some(Holding(Publish, j)), s.cell, Some(j.v), Keep, Keep)
    case Publish => Effect(Some(Telling(TellActive, Stored, j)), Initialized, s.slot, Keep, Keep)
    case Reset => Effect(Some(Telling(TellNext, Failed, j)), Uninitialized, s.slot, Keep, Keep)
  }

  function TellEffect(s: State, id: Id, t: Tell, out: Outcome, j: Job): Effect {
    match t
    case TellActive => OnActive(s, Telling(TellPassive, out, j), DoNotifyAll)
    case TellPassive => OnPassive(s, Return(s, id, out, j), DoNotifyAll)
    case TellNext => OnActive(s, Return(s, id, out, j), DoNotify)
    case Close => OnActive(s, Over(out, j), DoDrop)
  }

  function AwaitEffect(s: State, p: Passive): Effect {
    match p
    case Get1 => Go(s, if s.cell.Initialized? then Returned(s.slot) else Awaiting(Subscribe))
    case Subscribe => OnPassive(s, Awaiting(Get2), DoListen)
    case Get2 => Go(s, Awaiting(if s.cell.Initialized? then Unsubscribe else Sleep))
    case Sleep => OnPassive(s, Awaiting(ReadSlot), DoConsume)
    case Unsubscribe => OnPassive(s, Returned(s.slot), DoDrop)
    case ReadSlot => Go(s, Returned(s.slot))
  }

  predicate Runnable(s: State, id: Id) {
    && id in s.procs
    && match s.procs[id]
       case Seeking(f, _) => f.Park? ==> id in s.active.notified
       case Awaiting(p) => p.Sleep? ==> id in s.passive.notified
       case Over(_, _) => false
       case Returned(_) => false
       case _ => true
  }

  /** Suspension points: unpolled, parked, or inside the closure. */
  predicate Droppable(pc: Pc) {
    match pc
    case Seeking(f, _) => f.Get? || f.Park?
    case Holding(h, _) => h.Running?
    case Awaiting(p) => p.Get1? || p.Sleep?
    case _ => false
  }

  /** Dropping the future of a running initializer drops its guard first, like a failure does. */
  function DropEffect(s: State, pc: Pc): Effect
    requires Droppable(pc)
  {
    match pc
    case Seeking(_, _) => Effect(None, s.cell, s.slot, DoDrop, Keep)
    case Holding(_, j) => Go(s, Holding(Reset, j))
    case Awaiting(_) => Effect(None, s.cell, s.slot, Keep, DoDrop)
  }

  predicate Enabled(s: State, a: Action) {
    match a
    case Init(id, _) => id !in s.procs
    case TrySet(id, _) => id !in s.procs
    case Wait(id) => id !in s.procs
    case Step(id, _) => Runnable(s, id)
    case DropFuture(id) => id in s.procs && Droppable(s.procs[id])
    case Collect(id) => id in s.procs && (s.procs[id].Over? || s.procs[id].Returned?)
    case TakeValue => s.procs == map[]
  }

  function StepEffect(s: State, id: Id, pc: Pc, fails: bool): Effect
    requires !pc.Over? && !pc.Returned?
  {
    match pc
    case Seeking(f, j) => SeekEffect(s, id, f, j)
    case Holding(h, j) => HoldEffect(s, h, j, fails)
    case Telling(t, out, j) => TellEffect(s, id, t, out, j)
    case Awaiting(p) => AwaitEffect(s, p)
  }

  function EffectOf(s: State, a: Action): Effect
    requires Enabled(s, a) && !a.TakeValue?
  {
    match a
    case Init(_, j) => Go(s, Seeking(Get, j))
    case TrySet(_, j) => Go(s, Seeking(TryCas, j))
    case Wait(_) => Go(s, Awaiting(Get1))
    case Step(id, fails) => StepEffect(s, id, s.procs[id], fails)
    case DropFuture(id) => DropEffect(s, s.procs[id])
    case Collect(_) => Effect(None, s.cell, s.slot, Keep, Keep)
  }

  function OnEvent(e: Event, id: Id, op: EventOp): Event {
    match op
    case Keep => e
    case DoListen => Listen(e, id)
    case DoConsume => Forget(e, id)
    case DoNotify => Notify(e, 1)
    case DoNotifyAll => NotifyAdditional(e, |e.waiting|)  // `usize::MAX` is at least that
    case DoDrop => DropListener(e, id)
  }

  function Perform(s: State, id: Id, e: Effect): State {
    State(e.cell, e.slot, OnEvent(s.active, id, e.active), OnEvent(s.passive, id, e.passive),
          if e.to.None? then s.procs - {id} else s.procs[id := e.to.value])
  }

  function Apply(s: State, a: Action): State
    requires Enabled(s, a)
  {
    if a.TakeValue?
    then if s.cell.Initialized? then s.(cell := Uninitialized, slot := None) else s
    else Perform(s, a.id, EffectOf(s, a))
  }
}

module OnceCellInvariants {
  import opened Counting
  import opened Events
  import opened OnceCellModel

  predicate IsActive(pc: Pc) { pc.Holding? }

  /** The initializer whose value is in the cell. */
  predicate IsWinner(pc: Pc) {
    (pc.Telling? || pc.Over?) && pc.out.Stored?
  }

  predicate ActiveSeat(pc: Maybe<Pc>, listening: bool) {
    if pc.None? then !listening
    else match pc.value
      case Seeking(f, _) => if f.Park? then listening else listening ==> f.Load? || f.Cas?
      case Telling(t, _, _) => t.Close? ==> listening
      case Holding(_, _) => true
      case _ => !listening
  }

  predicate PassiveSeat(pc: Maybe<Pc>, listening: bool) {
    listening <==> pc.Some? && pc.value.Awaiting? && (pc.value.p.Get2? || pc.value.p.Sleep? || pc.value.p.Unsubscribe?)
  }

  /** What an operation at `pc` knows about the cell. */
  predicate Knows(pc: Maybe<Pc>, cell: Cell, slot: Maybe<int>) {
    pc.Some? ==>
      match pc.value
      case Holding(h, j) => cell.Initializing? && slot == if h.Publish? then Some(j.v) else None
      case Telling(t, out, j) =>
        (out.Stored? ==> cell.Initialized? && slot == Some(j.v)) && (out.Unused? ==> cell.Initialized?)
            && (t.TellActive? || t.TellPassive? ==> out.Stored?)
        && (t.TellNext? ==> out.Failed?)
      case Over(out, j) => (out.Stored? ==> cell.Initialized? && slot == Some(j.v))
                           && (out.Unused? ==> cell.Initialized?)
      case Awaiting(p) => p.Unsubscribe? || p.ReadSlot? ==> cell.Initialized?
      case Returned(x) => cell.Initialized? && x == slot
      case _ => true
  }

  predicate Placed(s: State, id: Id) {
    var pc := At(s.procs, id);
    ActiveSeat(pc, Listening(s.active, id)) && PassiveSeat(pc, Listening(s.passive, id)) && Knows(pc, s.cell, s.slot)
  }

  /** Operations that will try the cell again, or notify the next initializer. */
  predicate TriesAgain(pc: Maybe<Pc>) {
    pc.Some? && ((pc.value.Seeking? && (pc.value.f.Load? || pc.value.f.Cas?))
        || (pc.value.Telling? && pc.value.t.TellNext?))
  }

  predicate WillTellActive(pc: Maybe<Pc>) {
    pc.Some? && pc.value.Telling? && pc.value.t.TellActive?
  }

  predicate WillTellPassive(pc: Maybe<Pc>) {
    pc.Some? && pc.value.Telling? && (pc.value.t.TellActive? || pc.value.t.TellPassive?)
  }

  predicate Parked(pc: Maybe<Pc>) {
    pc.Some? && pc.value.Seeking? && pc.value.f.Park?
  }

  predicate Asleep(pc: Maybe<Pc>) {
    pc.Some? && pc.value.Awaiting? && pc.value.p.Sleep?
  }

  /** A failed or cancelled initialization leaves a wake-up on its way to the parked initializers. */
  ghost predicate InitializersWake(s: State) {
    forall id :: s.cell.Uninitialized? && Parked(At(s.procs, id)) && id in s.active.waiting
      ==> s.active.notified != [] || exists w :: TriesAgain(At(s.procs, w))
  }

  /** Once initialized, everybody who is parked is woken or about to be. */
  ghost predicate AllWake(s: State) {
    && (forall id :: s.cell.Initialized? && Parked(At(s.procs, id)) && id in s.active.waiting
          ==> exists w :: WillTellActive(At(s.procs, w)))
    && (forall id :: s.cell.Initialized? && Asleep(At(s.procs, id)) && id in s.passive.waiting
          ==> exists w :: WillTellPassive(At(s.procs, w)))
  }

  ghost predicate Inv(s: State) {
    && (forall id :: Placed(s, id))
    && |Those(s.procs, IsActive)| == One(s.cell.Initializing?)
    && |Those(s.procs, IsWinner)| <= One(s.cell.Initialized?)
    && (s.cell.Initialized? <==> s.slot.Some? && !s.cell.Initializing?)
    && (s.passive.notified != [] ==> s.cell.Initialized?)
    && InitializersWake(s)
    && AllWake(s)
  }

  // ----- one step, seen from the acting operation -----

  predicate ListensAfter(e: Event, id: Id, op: EventOp) {
    op.DoListen? || (Listening(e, id) && !op.DoConsume? && !op.DoDrop?)
  }

  predicate Seated(s: State, id: Id, e: Effect) {
    && ActiveSeat(e.to, ListensAfter(s.active, id, e.active))
    && PassiveSeat(e.to, ListensAfter(s.passive, id, e.passive))
    && Knows(e.to, e.cell, e.slot)
  }

  function Share(pc: Maybe<Pc>): int { One(pc.Some? && IsActive(pc.value)) }
  function Wins(pc: Maybe<Pc>): int { One(pc.Some? && IsWinner(pc.value)) }

  /** Only the active initializer, or the one that becomes it, touches the cell, and never when it is
      initialized. */
  predicate TouchesOwn(s: State, pc: Maybe<Pc>, e: Effect) {
    && (e.cell != s.cell || e.slot != s.slot ==> !s.cell.Initialized? && (s.cell.Uninitialized? || Share(pc) == 1))
    && Share(e.to) - Share(pc) == One(e.cell.Initializing?) - One(s.cell.Initializing?)
    && Wins(e.to) - Wins(pc) <= One(e.cell.Initialized?) - One(s.cell.Initialized?)
    && (e.cell.Initialized? <==> e.slot.Some? && !e.cell.Initializing?)
    && (e.passive.DoNotify? || e.passive.DoNotifyAll? ==> e.cell.Initialized?)
  }

  predicate WakesOthers(s: State, pc: Maybe<Pc>, e: Effect) {
    && (e.cell.Uninitialized? ==> s.cell.Uninitialized? || TriesAgain(e.to))
    && (TriesAgain(pc) && e.cell.Uninitialized? ==> TriesAgain(e.to) || e.active.DoNotify?)
    && (e.active.DoConsume? ==> TriesAgain(e.to))
    && (Parked(e.to) ==> !e.active.DoListen? && (Parked(pc) || e.cell.Initializing?))
    && (e.cell.Initialized? && !s.cell.Initialized? ==> WillTellActive(e.to))
    && (WillTellActive(pc) ==> e.active.DoNotifyAll?)
    && (WillTellPassive(pc) ==> WillTellPassive(e.to) || e.passive.DoNotifyAll?)
    && (Asleep(e.to) ==> !e.passive.DoListen? && (Asleep(pc) || !e.cell.Initialized?))
  }

  predicate Lawful(s: State, id: Id, e: Effect) {
    Seated(s, id, e) && TouchesOwn(s, At(s.procs, id), e) && WakesOthers(s, At(s.procs, id), e)
  }

  predicate Trusts(s: State, id: Id) {
    && Placed(s, id)
    && (s.cell.Initialized? <==> s.slot.Some? && !s.cell.Initializing?)
    && (id in s.passive.notified ==> s.cell.Initialized?)
  }

  lemma SeekLawful(s: State, id: Id, f: Seek, j: Job)
    requires At(s.procs, id) == Some(Seeking(f, j)) && Trusts(s, id)
    ensures Lawful(s, id, SeekEffect(s, id, f, j))
  {
  }

  lemma HoldLawful(s: State, id: Id, h: Hold, j: Job, fails: bool)
    requires At(s.procs, id) == Some(Holding(h, j)) && Trusts(s, id)
    ensures Lawful(s, id, HoldEffect(s, h, j, fails))
  {
  }

  lemma TellLawful(s: State, id: Id, t: Tell, out: Outcome, j: Job)
    requires At(s.procs, id) == Some(Telling(t, out, j)) && Trusts(s, id)
    ensures Lawful(s, id, TellEffect(s, id, t, out, j))
  {
  }

  lemma AwaitLawful(s: State, id: Id, p: Passive)
    requires At(s.procs, id) == Some(Awaiting(p)) && Trusts(s, id) && (p.Sleep? ==> id in s.passive.notified)
    ensures Lawful(s, id, AwaitEffect(s, p))
  {
  }

  lemma EffectLawful(s: State, a: Action)
    requires Enabled(s, a) && !a.TakeValue? && Trusts(s, a.id)
    ensures Lawful(s, a.id, EffectOf(s, a))
  {
    if a.Step? {
      match s.procs[a.id]
      case Seeking(f, j) => SeekLawful(s, a.id, f, j);
      case Holding(h, j) => HoldLawful(s, a.id, h, j, a.fails);
      case Telling(t, out, j) => TellLawful(s, a.id, t, out, j);
      case Awaiting(p) => AwaitLawful(s, a.id, p);
    }
  }

  // ----- one step, for everybody -----

  lemma OneActive(s: State, x: Id, y: Id)
    requires Inv(s) && Share(At(s.procs, x)) == 1 && Share(At(s.procs, y)) == 1
    ensures x == y && s.cell.Initializing?
  {
    assert x in Those(s.procs, IsActive) && y in Those(s.procs, IsActive);
    AtMostOne(Those(s.procs, IsActive), x, y);
  }

  lemma NoActive(s: State, x: Id)
    requires Inv(s) && !s.cell.Initializing?
    ensures Share(At(s.procs, x)) == 0
  {
    if Share(At(s.procs, x)) == 1 { OneActive(s, x, x); }
  }

  lemma StepCounts(s: State, id: Id, e: Effect)
    requires Inv(s) && Lawful(s, id, e)
    ensures
      var t := Perform(s, id, e);
      && |Those(t.procs, IsActive)| == One(t.cell.Initializing?)
      && |Those(t.procs, IsWinner)| <= One(t.cell.Initialized?)
  {
    if e.to.Some? {
      Recount(s.procs, id, e.to.value, IsActive);
      Recount(s.procs, id, e.to.value, IsWinner);
    } else {
      RecountGone(s.procs, id, IsActive);
      RecountGone(s.procs, id, IsWinner);
    }
  }

  lemma StepPlaces(s: State, id: Id, e: Effect, y: Id)
    requires Inv(s) && Lawful(s, id, e)
    ensures Placed(Perform(s, id, e), y)
  {
    assert Placed(s, y);
    if y != id && (e.cell != s.cell || e.slot != s.slot) {
      if s.cell.Uninitialized? { NoActive(s, y); } else if Share(At(s.procs, y)) == 1 { OneActive(s, id, y); }
    }
  }

  lemma StepInitializersWake(s: State, id: Id, e: Effect)
    requires Inv(s) && Lawful(s, id, e)
    ensures InitializersWake(Perform(s, id, e))
  {
    var t := Perform(s, id, e);
    forall x | t.cell.Uninitialized? && Parked(At(t.procs, x)) && x in t.active.waiting && t.active.notified == []
      ensures exists w :: TriesAgain(At(t.procs, w))
    {
      assert s.active.notified != [] ==> s.active.notified[0] in s.active.notified;
      if !TriesAgain(At(t.procs, id)) {
        assert Parked(At(s.procs, x)) && x in s.active.waiting;
        if w :| TriesAgain(At(s.procs, w)) {
          assert w != id && TriesAgain(At(t.procs, w));
        }
      }
    }
  }

  lemma StepAllWake(s: State, id: Id, e: Effect)
    requires Inv(s) && Lawful(s, id, e)
    ensures AllWake(Perform(s, id, e))
  {
    var t := Perform(s, id, e);
    forall x | t.cell.Initialized? && Parked(At(t.procs, x)) && x in t.active.waiting
      ensures exists w :: WillTellActive(At(t.procs, w))
    {
      if !WillTellActive(At(t.procs, id)) {
        assert !e.active.DoNotifyAll?;
        var w :| WillTellActive(At(s.procs, w));
        assert w != id && WillTellActive(At(t.procs, w));
      }
    }
    forall x | t.cell.Initialized? && Asleep(At(t.procs, x)) && x in t.passive.waiting
      ensures exists w :: WillTellPassive(At(t.procs, w))
    {
      if !WillTellPassive(At(t.procs, id)) {
        assert !e.passive.DoNotifyAll?;
        var w :| WillTellPassive(At(s.procs, w));
        assert w != id && WillTellPassive(At(t.procs, w));
      }
    }
  }

  lemma StepNotified(s: State, id: Id, e: Effect)
    requires Inv(s) && Lawful(s, id, e)
    ensures Perform(s, id, e).passive.notified != [] ==> e.cell.Initialized?
  {
    var t := Perform(s, id, e);
    assert t.passive.notified != [] ==> t.passive.notified[0] in t.passive.notified;
  }

  lemma ApplyKeepsInv(s: State, a: Action)
    requires Inv(s) && Enabled(s, a)
    ensures Inv(Apply(s, a))
  {
    if a.TakeValue? {
      NobodyListens(s);
    } else {
      var e := EffectOf(s, a);
      assert Placed(s, a.id);
      EffectLawful(s, a);
      StepCounts(s, a.id, e);
      forall y ensures Placed(Apply(s, a), y) { StepPlaces(s, a.id, e, y); }
      StepInitializersWake(s, a.id, e);
      StepAllWake(s, a.id, e);
      StepNotified(s, a.id, e);
    }
  }

  /** `take` borrows the cell exclusively, so no listener is left. */
  lemma NobodyListens(s: State)
    requires Inv(s) && s.procs == map[]
    ensures Inv(Apply(s, TakeValue))
  {
    var t := Apply(s, TakeValue);
    forall y ensures Placed(t, y) && !Listening(s.passive, y) { assert Placed(s, y); }
    assert s.passive.notified == [] by {
      assert s.passive.notified != [] ==> Listening(s.passive, s.passive.notified[0]);
    }
    assert Those(t.procs, IsActive) == {} && Those(t.procs, IsWinner) == {};
  }
}

module OnceCellTheorems {
  import opened Counting
  import opened Events
  import opened OnceCellModel
  import opened OnceCellInvariants

  predicate CanRun(s: State, acts: seq<Action>)
    decreases acts
  {
    acts == [] || (Enabled(s, acts[0]) && CanRun(Apply(s, acts[0]), acts[1..]))
  }

  function Run(s: State, acts: seq<Action>): State
    requires CanRun(s, acts)
    decreases acts
  {
    if acts == [] then s else Run(Apply(s, acts[0]), acts[1..])
  }

  lemma {:induction false} RunKeepsInv(s: State, acts: seq<Action>)
    requires Inv(s) && CanRun(s, acts)
    ensures Inv(Run(s, acts))
    decreases acts
  {
    if acts != [] {
      ApplyKeepsInv(s, acts[0]);
      RunKeepsInv(Apply(s, acts[0]), acts[1..]);
    }
  }

  lemma InitialInv()
    ensures Inv(INITIAL)
  {
    assert Those(INITIAL.procs, IsActive) == {} && Those(INITIAL.procs, IsWinner) == {};
    forall id ensures Placed(INITIAL, id) {}
  }

  /** What every run keeps: the cell is being initialized exactly while one operation owns it, `wait`
      reads only an initialized cell, and a completed `set` or `try_set` that reports success finds its
      own value in the cell. */
  lemma ExactlyOnce(acts: seq<Action>)
    requires CanRun(INITIAL, acts)
    ensures
      var s := Run(INITIAL, acts);
      && |Those(s.procs, IsActive)| == One(s.cell.Initializing?)
      && |Those(s.procs, IsWinner)| <= One(s.cell.Initialized?)
      && (forall id :: id in s.passive.notified ==> s.cell.Initialized?)
      && (forall id :: id in s.procs && s.procs[id] == Awaiting(ReadSlot) ==> s.cell.Initialized? && s.slot.Some?)
      && (forall id :: id in s.procs && s.procs[id].Returned? ==> s.procs[id].x == s.slot && s.slot.Some?)
      && (forall id, j :: id in s.procs && s.procs[id] == Over(Stored, j) ==>
          s.cell.Initialized? && s.slot == Some(j.v))
  {
    InitialInv();
    RunKeepsInv(INITIAL, acts);
    var s := Run(INITIAL, acts);
    forall id
      ensures id in s.procs ==> Knows(Some(s.procs[id]), s.cell, s.slot)
    {
      assert Placed(s, id);
    }
  }

  /** In every reachable state: behind an open cell a parked initializer has a wake-up on its way, and
      behind an initialized one everybody parked is woken or about to be. */
  lemma WakeupsUnderWay(acts: seq<Action>)
    requires CanRun(INITIAL, acts)
    ensures InitializersWake(Run(INITIAL, acts)) && AllWake(Run(INITIAL, acts))
  {
    InitialInv();
    RunKeepsInv(INITIAL, acts);
  }

  // ----- values stored, values handed back -----

  /** The step makes a value visible. */
  predicate Publishes(s: State, a: Action)
    requires Enabled(s, a)
  {
    !a.TakeValue? && !s.cell.Initialized? && Apply(s, a).cell.Initialized?
  }

  predicate Removes(s: State, a: Action) {
    a.TakeValue? && s.cell.Initialized?
  }

  predicate Has(pc: Maybe<Pc>, j: Job) {
    pc.Some? && !pc.value.Awaiting? && !pc.value.Returned? && pc.value.j == j
  }

  /** The caller is done with a call that reported success. */
  predicate CollectsStored(s: State, a: Action, id: Id) {
    a.Collect? && a.id == id && Wins(At(s.procs, id)) == 1
  }

  function Publications(s: State, acts: seq<Action>, id: Id): nat
    requires CanRun(s, acts)
    decreases acts
  {
    if acts == [] then 0
    else (if Publishes(s, acts[0]) && acts[0].id == id then 1 else 0) + Publications(Apply(s, acts[0]), acts[1..], id)
  }

  function Successes(s: State, acts: seq<Action>, id: Id): nat
    requires CanRun(s, acts)
    decreases acts
  {
    if acts == [] then 0
    else (if CollectsStored(s, acts[0], id) then 1 else 0) + Successes(Apply(s, acts[0]), acts[1..], id)
  }

  lemma OnePublication(s: State, a: Action, id: Id)
    requires Inv(s) && Enabled(s, a)
    ensures
      Wins(At(s.procs, id)) + One(Publishes(s, a) && a.id == id)
      == Wins(At(Apply(s, a).procs, id)) + One(CollectsStored(s, a, id))
  {
    if !a.TakeValue? { assert Placed(s, a.id); }
  }

  lemma {:induction false} PublicationsBalance(s: State, acts: seq<Action>, id: Id)
    requires Inv(s) && CanRun(s, acts)
    ensures
      Wins(At(s.procs, id)) + Publications(s, acts, id)
      == Wins(At(Run(s, acts).procs, id)) + Successes(s, acts, id)
    decreases acts
  {
    if acts != [] {
      OnePublication(s, acts[0], id);
      ApplyKeepsInv(s, acts[0]);
      PublicationsBalance(Apply(s, acts[0]), acts[1..], id);
    }
  }

  predicate Calls(a: Action, id: Id, j: Job) {
    a == Init(id, j) || a == TrySet(id, j)
  }

  lemma KeepsJob(s: State, a: Action, id: Id, j: Job)
    requires Enabled(s, a) && Has(At(Apply(s, a).procs, id), j)
    ensures Has(At(s.procs, id), j) || Calls(a, id, j)
  {
  }

  lemma {:induction false} JobsAreCalled(s: State, acts: seq<Action>, id: Id, j: Job)
    requires CanRun(s, acts) && Has(At(Run(s, acts).procs, id), j)
    ensures Has(At(s.procs, id), j) || exists k :: 0 <= k < |acts| && Calls(acts[k], id, j)
    decreases acts
  {
    if acts != [] {
      JobsAreCalled(Apply(s, acts[0]), acts[1..], id, j);
      if Has(At(Apply(s, acts[0]).procs, id), j) {
        KeepsJob(s, acts[0], id, j);
        assert Calls(acts[0], id, j) || Has(At(s.procs, id), j);
      } else {
        var k :| 0 <= k < |acts[1..]| && Calls(acts[1..][k], id, j);
        assert Calls(acts[k + 1], id, j);
      }
    }
  }

  /** What became of the value of a call: over the whole of any run, `id` published one value for each
      call of its own that reported success, collected or not yet, and none for any other.  A finished
      call still holds the value it was made with; if it reports success, that is the value in the cell. */
  lemma StoredOrHandedBack(acts: seq<Action>, id: Id)
    requires CanRun(INITIAL, acts)
    ensures
      var pc := At(Run(INITIAL, acts).procs, id);
      Publications(INITIAL, acts, id) == Successes(INITIAL, acts, id) + Wins(pc)
    ensures
      var s := Run(INITIAL, acts);
      forall out, j :: At(s.procs, id) == Some(Over(out, j)) ==>
        && (exists k :: 0 <= k < |acts| && Calls(acts[k], id, j))
        && (out.Stored? ==> s.cell.Initialized? && s.slot == Some(j.v))
        && (out.Unused? ==> s.cell.Initialized?)
  {
    InitialInv();
    RunKeepsInv(INITIAL, acts);
    PublicationsBalance(INITIAL, acts, id);
    var s := Run(INITIAL, acts);
    assert Placed(s, id);
    forall out, j | At(s.procs, id) == Some(Over(out, j)) ensures exists k :: 0 <= k < |acts| && Calls(acts[k], id, j) {
      JobsAreCalled(INITIAL, acts, id, j);
    }
  }

  lemma {:induction false} NothingCollected(s: State, acts: seq<Action>, id: Id)
    requires CanRun(s, acts) && forall i :: 0 <= i < |acts| ==> acts[i] != Collect(id)
    ensures Successes(s, acts, id) == 0
    decreases acts
  {
    if acts != [] {
      assert acts[0] != Collect(id);
      NothingCollected(Apply(s, acts[0]), acts[1..], id);
    }
  }

  /** One call: up to its collection `id` publishes exactly one value if it reports success, and none if
      it reports anything else or has not finished. */
  lemma OncePerCall(before: seq<Action>, acts: seq<Action>, id: Id)
    requires CanRun(INITIAL, before) && id !in Run(INITIAL, before).procs
    requires CanRun(Run(INITIAL, before), acts) && forall i :: 0 <= i < |acts| ==> acts[i] != Collect(id)
    ensures
      var s := Run(INITIAL, before);
      Publications(s, acts, id) == Wins(At(Run(s, acts).procs, id))
  {
    InitialInv();
    RunKeepsInv(INITIAL, before);
    PublicationsBalance(Run(INITIAL, before), acts, id);
    NothingCollected(Run(INITIAL, before), acts, id);
  }

  lemma OneChange(s: State, a: Action)
    requires Inv(s) && Enabled(s, a)
    ensures One(Apply(s, a).cell.Initialized?) - One(s.cell.Initialized?) == One(Publishes(s, a)) - One(Removes(s, a))
    ensures s.cell.Initialized? && !a.TakeValue? ==> Apply(s, a).cell == s.cell && Apply(s, a).slot == s.slot
  {
    if !a.TakeValue? { assert Placed(s, a.id); }
  }

  function Stores(s: State, acts: seq<Action>): nat
    requires CanRun(s, acts)
    decreases acts
  {
    if acts == [] then 0
    else (if Publishes(s, acts[0]) then 1 else 0) + Stores(Apply(s, acts[0]), acts[1..])
  }

  function Removals(s: State, acts: seq<Action>): nat
    requires CanRun(s, acts)
    decreases acts
  {
    if acts == [] then 0
    else (if Removes(s, acts[0]) then 1 else 0) + Removals(Apply(s, acts[0]), acts[1..])
  }

  lemma {:induction false} Balance(s: State, acts: seq<Action>)
    requires Inv(s) && CanRun(s, acts)
    ensures Stores(s, acts) - Removals(s, acts) == One(Run(s, acts).cell.Initialized?) - One(s.cell.Initialized?)
    decreases acts
  {
    if acts != [] {
      OneChange(s, acts[0]);
      ApplyKeepsInv(s, acts[0]);
      Balance(Apply(s, acts[0]), acts[1..]);
    }
  }

  /** Values published and values taken out alternate; without `take` at most one is ever published. */
  lemma ValuesStored(acts: seq<Action>)
    requires CanRun(INITIAL, acts)
    ensures Stores(INITIAL, acts) == Removals(INITIAL, acts) + One(Run(INITIAL, acts).cell.Initialized?)
  {
    InitialInv();
    Balance(INITIAL, acts);
  }

  /** Under shared access an initialized cell stays so, with the same value. */
  lemma {:induction false} NeverOverwritten(s: State, acts: seq<Action>)
    requires Inv(s) && s.cell.Initialized? && CanRun(s, acts)
    requires forall i :: 0 <= i < |acts| ==> !acts[i].TakeValue?
    ensures Run(s, acts).cell.Initialized? && Run(s, acts).slot == s.slot
    decreases acts
  {
    if acts != [] {
      assert !acts[0].TakeValue?;
      OneChange(s, acts[0]);
      ApplyKeepsInv(s, acts[0]);
      NeverOverwritten(Apply(s, acts[0]), acts[1..]);
    }
  }

  // ----- nobody is stranded -----

  /** Nothing can move; a running closure counts as something that can. */
  ghost predicate Quiescent(s: State) {
    forall id, fails :: !Enabled(s, Step(id, fails))
  }

  lemma Stuck(s: State, id: Id)
    requires Inv(s) && Quiescent(s)
    ensures id !in s.active.notified
    ensures
      var pc := At(s.procs, id);
      && !TriesAgain(pc) && !WillTellPassive(pc) && Share(pc) == 0
      && (pc.Some? ==> pc.value.Over? || pc.value.Returned? || Parked(pc) || Asleep(pc))
      && (Parked(pc) ==> id in s.active.waiting)
      && (Asleep(pc) ==> id in s.passive.waiting)
  {
    assert Placed(s, id);
    assert !Enabled(s, Step(id, false));
  }

  /** When nothing moves, no initializer is parked, and `wait` sleeps only on a cell that nobody has
      initialized. */
  lemma NobodyStranded(acts: seq<Action>)
    requires CanRun(INITIAL, acts) && Quiescent(Run(INITIAL, acts))
    ensures
      var s := Run(INITIAL, acts);
      && !s.cell.Initializing?
      && forall id :: id in s.procs ==>
           s.procs[id].Over? || s.procs[id].Returned? || (s.procs[id] == Awaiting(Sleep) && s.cell.Uninitialized?)
  {
    InitialInv();
    RunKeepsInv(INITIAL, acts);
    var s := Run(INITIAL, acts);
    assert s.active.notified != [] ==> s.active.notified[0] in s.active.notified;
    forall id ensures id !in s.active.notified && !TriesAgain(At(s.procs, id)) && !WillTellPassive(At(s.procs, id))
           && Share(At(s.procs, id)) == 0 {
      Stuck(s, id);
    }
    assert Those(s.procs, IsActive) == {} by {
      assert forall id :: id in Those(s.procs, IsActive) ==> Share(At(s.procs, id)) == 1;
    }
    forall id | id in s.procs
      ensures s.procs[id].Over? || s.procs[id].Returned? || (s.procs[id] == Awaiting(Sleep) && s.cell.Uninitialized?)
    {
      Stuck(s, id);
      assert forall w :: WillTellActive(At(s.procs, w)) ==> WillTellPassive(At(s.procs, w));
    }
  }
}
