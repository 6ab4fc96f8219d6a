// The barrier as a machine of atomic steps on top of the mutex machine that guards its state.
module BarrierModel {
  import opened Counting
  import opened Events
  import M = MutexModel

  // `generation_id` is a u64 that wraps around.
  const GENERATIONS := 0x1_0000_0000_0000_0000

  /** A `wait` future up to its arrival. */
  datatype First =
    | Lock       // acquiring the state mutex
    | Close      // acquired: drops the completed lock future
    | Arrive     // reads the generation, counts itself, and finds out whether it is the last

  /** A task that is not the last of its generation. */
  datatype Stay =
    | Register   // holds the mutex: `event.listen`
    | Unlock     // drops the mutex guard
    | UnlockNotify
    | Wait       // polls its listener
    | Relock     // woken: acquiring the state mutex again
    | Reclose    // acquired: drops the completed lock future
    | Check      // compares the generation
    | Leave      // its generation is over: drops the mutex guard
    | LeaveNotify

  /** The last task of its generation; count and generation are already reset. */
  datatype Last =
    | WakeAll    // `event.notify(usize::MAX)`
    | LastUnlock
    | LastUnlockNotify

  /** `gen` is the number of the generation in which the task arrived, unwrapped. */
  datatype Pc =
    | Entering(f: First)
    | Staying(w: Stay, gen: nat)
    | Leading(l: Last, gen: nat)
    | Done(leader: bool, gen: nat)
    | Closing    // cancelled while its lock future was starved

  predicate HoldsMutex(pc: Pc) {
    match pc
    case Entering(f) => !f.Lock?
    case Staying(w, _) => w.Register? || w.Unlock? || w.Reclose? || w.Check? || w.Leave?
    case Leading(l, _) => !l.LastUnlockNotify?
    case _ => false
  }

  /** `gens` is the number of finished generations: `generation_id`, not wrapped around. */
  datatype State = State(
    n: nat, m: M.State, ev: Event, procs: map<Id, Pc>, count: nat, gens: nat, aborted: bool)

  function Initial(n: nat): State {
    State(n, M.INITIAL, NO_LISTENERS, map[], 0, 0, false)
  }

  datatype Action = Call(id: Id) | Step(id: Id, late: bool) | DropFuture(id: Id)

  datatype EventOp = Keep | DoListen | DoConsume | DoNotifyAll | DoDrop
  datatype Counts = Counts(count: nat, gens: nat)
  datatype Effect = Effect(to: Maybe<Pc>, lock: Maybe<M.Action>, op: EventOp, counts: Counts)

  function Now(s: State): Counts {
    Counts(s.count, s.gens)
  }

  function Go(s: State, to: Maybe<Pc>): Effect {
    Effect(to, None, Keep, Now(s))
  }

  function OnLock(s: State, to: Maybe<Pc>, a: M.Action): Effect {
    Effect(to, Some(a), Keep, Now(s))
  }

  function OnEvents(s: State, to: Maybe<Pc>, op: EventOp): Effect {
    Effect(to, None, op, Now(s))
  }

  function EnterEffect(s: State, id: Id, f: First, late: bool): Effect {
    match f
    case Lock => OnLock(s, Some(Entering(if M.Completes(s.m, id) then Close else Lock)), M.Step(id, late))
    case Close => OnLock(s, Some(Entering(Arrive)), M.DropFuture(id))
    case Arrive =>
      if s.count + 1 < s.n
      then Effect(Some(Staying(Register, s.gens)), None, Keep, Counts(s.count + 1, s.gens))
      else Effect(Some(Leading(WakeAll, s.gens)), None, Keep, Counts(0, s.gens + 1))
  }

  function StayEffect(s: State, id: Id, w: Stay, gen: nat, late: bool): Effect {
    match w
    case Register => OnEvents(s, Some(Staying(Unlock, gen)), DoListen)
    case Unlock => OnLock(s, Some(Staying(UnlockNotify, gen)), M.Unlock(id))
    case UnlockNotify => OnLock(s, Some(Staying(Wait, gen)), M.UnlockNotify(id))
    case Wait => Effect(Some(Staying(Relock, gen)), Some(M.Spawn(id)), DoConsume, Now(s))
    case Relock => OnLock(s, Some(Staying(if M.Completes(s.m, id) then Reclose else Relock, gen)), M.Step(id, late))
    case Reclose => OnLock(s, Some(Staying(Check, gen)), M.DropFuture(id))
    case Check =>
      if gen % GENERATIONS == s.gens % GENERATIONS && s.count < s.n then Go(s, Some(Staying(Register, gen)))
      else Go(s, Some(Staying(Leave, gen)))
    case Leave => OnLock(s, Some(Staying(LeaveNotify, gen)), M.Unlock(id))
    case LeaveNotify => OnLock(s, Some(Done(false, gen)), M.UnlockNotify(id))
  }

  function LeadEffect(s: State, id: Id, l: Last, gen: nat): Effect {
    match l
    case WakeAll => OnEvents(s, Some(Leading(LastUnlock, gen)), DoNotifyAll)
    case LastUnlock => OnLock(s, Some(Leading(LastUnlockNotify, gen)), M.Unlock(id))
    case LastUnlockNotify => OnLock(s, Some(Done(true, gen)), M.UnlockNotify(id))
  }

  predicate Runnable(s: State, id: Id) {
    id in s.procs && !s.procs[id].Done? && (s.procs[id].Staying? && s.procs[id].w.Wait? ==> id in s.ev.notified)
  }

  /** Suspension points: acquiring the mutex, parked on the event, or completed. */
  predicate Droppable(pc: Pc) {
    || pc == Entering(Lock) || pc.Done?
    || (pc.Staying? && (pc.w.Wait? || pc.w.Relock?))
  }

  function DropEffect(s: State, id: Id, pc: Pc): Effect
    requires Droppable(pc)
  {
    if pc.Done? then Go(s, None)
    else if pc.Staying? && pc.w.Wait? then OnEvents(s, None, DoDrop)
    else
      var starved := id in s.m.ops && s.m.ops[id].FairWait?;
      OnLock(s, if starved then Some(Closing) else None, M.DropFuture(id))
  }

  predicate Allowed(s: State, a: Action) {
    match a
    case Call(id) => id !in s.procs
    case Step(id, _) => Runnable(s, id)
    case DropFuture(id) => id in s.procs && Droppable(s.procs[id])
  }

  function StepEffect(s: State, id: Id, pc: Pc, late: bool): Effect
    requires !pc.Done?
  {
    match pc
    case Entering(f) => EnterEffect(s, id, f, late)
    case Staying(w, gen) => StayEffect(s, id, w, gen, late)
    case Leading(l, gen) => LeadEffect(s, id, l, gen)
    case Closing => OnLock(s, None, M.Step(id, late))
  }

  function EffectOf(s: State, a: Action): Effect
    requires Allowed(s, a)
  {
    match a
    case Call(id) => OnLock(s, Some(Entering(Lock)), M.Spawn(id))
    case Step(id, late) => StepEffect(s, id, s.procs[id], late)
    case DropFuture(id) => DropEffect(s, id, s.procs[id])
  }

  predicate Enabled(s: State, a: Action) {
    !s.aborted && Allowed(s, a) && (EffectOf(s, a).lock.Some? ==> M.Enabled(s.m, EffectOf(s, a).lock.value))
  }

  function OnEvent(e: Event, id: Id, op: EventOp): Event {
    match op
    case Keep => e
    case DoListen => Listen(e, id)
    case DoConsume => Forget(e, id)
    case DoNotifyAll => Notify(e, |e.notified| + |e.waiting|)  // `usize::MAX` is at least that
    case DoDrop => DropListener(e, id)
  }

  function LockAfter(s: State, e: Effect): M.State
    requires e.lock.Some? ==> M.Enabled(s.m, e.lock.value)
  {
    if e.lock.None? then s.m else M.Apply(s.m, e.lock.value)
  }

  function Perform(s: State, id: Id, e: Effect, m: M.State): State {
    State(s.n, m, OnEvent(s.ev, id, e.op), if e.to.None? then s.procs - {id} else s.procs[id := e.to.value],
          e.counts.count, e.counts.gens, m.aborted)
  }

  function Apply(s: State, a: Action): State
    requires Enabled(s, a)
  {
    Perform(s, a.id, EffectOf(s, a), LockAfter(s, EffectOf(s, a)))
  }
}

module BarrierInvariants {
  import opened Counting
  import opened Events
  import opened BarrierModel
  import M = MutexModel

  function Share(pc: Maybe<Pc>): int {
    if pc.None? then 0 else One(HoldsMutex(pc.value))
  }

  function LockPhase(pc: Maybe<Pc>): M.Phase {
    if pc.None? then M.Absent
    else match pc.value
      case Entering(f) => if f.Lock? then M.Acquiring else if f.Close? then M.Acquired else M.Absent
      case Staying(w, _) => if w.Relock? then M.Acquiring else if w.Reclose? then M.Acquired else M.Absent
      case Closing => M.Leaving
      case _ => M.Absent
  }

  predicate Releases(pc: Maybe<Pc>) {
    && pc.Some?
    && ((pc.value.Staying? && (pc.value.w.UnlockNotify? || pc.value.w.LeaveNotify?))
        || (pc.value.Leading? && pc.value.l.LastUnlockNotify?))
  }

  predicate Registered(pc: Maybe<Pc>) {
    pc.Some? && pc.value.Staying? && (pc.value.w.Unlock? || pc.value.w.UnlockNotify? || pc.value.w.Wait?)
  }

  predicate Placed(pc: Maybe<Pc>, phase: M.Phase, releasing: bool, listening: bool) {
    phase == LockPhase(pc) && (releasing <==> Releases(pc)) && (listening <==> Registered(pc))
  }

  predicate PlacedNow(s: State, id: Id) {
    Placed(At(s.procs, id), M.PhaseOf(s.m.ops, id), id in s.m.releasing, Listening(s.ev, id))
  }

  /** A task that stayed, or left as a follower, knows a generation that exists; one that leaves knows
      a generation that is over. */
  predicate GenOk(pc: Maybe<Pc>, gens: nat, count: nat, n: nat) {
    pc.Some? ==>
      match pc.value
      case Staying(w, gen) => gen <= gens && (w.Leave? || w.LeaveNotify? ==> gen < gens)
                              && (gen == gens ==> 1 <= count) && n >= 2
      case Leading(_, gen) => gen < gens
      case Done(_, gen) => gen < gens
      case _ => true
  }

  /** `n` of zero behaves like one. */
  function Size(n: nat): nat { if n == 0 then 1 else n }

  /** Whose generation is over is woken: already, or by the last task before it lets go of the mutex. */
  predicate Woken(pc: Maybe<Pc>, waiting: bool, gens: nat, lastAtWork: bool) {
    pc.Some? && pc.value.Staying? && waiting ==> pc.value.gen == gens || lastAtWork
  }

  predicate WakesAll(pc: Maybe<Pc>) {
    pc.Some? && pc.value.Leading? && pc.value.l.WakeAll?
  }

  ghost predicate LastAtWork(s: State) {
    exists w :: WakesAll(At(s.procs, w))
  }

  /** A task about to register is of the current generation. */
  predicate Current(pc: Maybe<Pc>, gens: nat) {
    pc.Some? && pc.value.Staying? && pc.value.w.Register? ==> pc.value.gen == gens
  }

  ghost predicate Inv(s: State) {
    && M.Inv(s.m) && (s.m.aborted ==> s.aborted)
    && s.m.guards == |Those(s.procs, HoldsMutex)|
    && s.count < Size(s.n)
    && (forall id :: PlacedNow(s, id))
    && (forall id :: GenOk(At(s.procs, id), s.gens, s.count, s.n))
    && (s.gens < GENERATIONS ==> forall id :: Current(At(s.procs, id), s.gens))
    && (s.gens < GENERATIONS ==> forall id :: Woken(At(s.procs, id), id in s.ev.waiting, s.gens, LastAtWork(s)))
  }

  // ----- one step, seen from the acting task -----

  predicate OwnLock(id: Id, e: Effect) {
    e.lock.Some? ==>
      match e.lock.value
      case Spawn(x) => x == id
      case Step(x, _) => x == id
      case DropFuture(x) => x == id
      case Unlock(x) => x == id
      case UnlockNotify(x) => x == id
      case TryLock => false
  }

  predicate ListensAfter(e: Event, id: Id, op: EventOp) {
    op.DoListen? || (Listening(e, id) && !op.DoConsume? && !op.DoDrop?)
  }

  predicate Seated(s: State, id: Id, e: Effect) {
    && (if e.lock.Some? then M.Gain(s.m, e.lock.value) else 0) == Share(e.to) - Share(At(s.procs, id))
    && OwnLock(id, e)
    && Placed(e.to,
              if e.lock.Some? then M.PhaseAfter(s.m, e.lock.value, id) else M.PhaseOf(s.m.ops, id),
              id in (if e.lock.Some? then M.ReleasingAfter(s.m, e.lock.value) else s.m.releasing),
              ListensAfter(s.ev, id, e.op))
  }

  predicate Tallied(s: State, pc: Maybe<Pc>, e: Effect) {
    var c := e.counts;
    && (c.gens == s.gens ==> s.count <= c.count)
    && (c.gens != s.gens ==> c.gens == s.gens + 1 && c.count == 0
                             && s.count + 1 == Size(s.n) && WakesAll(e.to) && Share(pc) == 1)
    && c.count < Size(s.n)
    && GenOk(e.to, c.gens, c.count, s.n)
    && (c.gens < GENERATIONS ==> Current(e.to, c.gens))
    && (WakesAll(pc) ==> e.op.DoNotifyAll?)
    && (e.op.DoListen? ==> pc.Some? && pc.value.Staying? && pc.value.w.Register? && e.to.Some? && e.to.value.Staying?
                           && e.to.value.gen == pc.value.gen && c.gens == s.gens)
    && (e.to.Some? && e.to.value.Staying? && pc.Some? && pc.value.Staying? ==>
        e.to.value.gen == pc.value.gen && c.gens == s.gens)
  }

  predicate Trusts(s: State, id: Id) {
    && PlacedNow(s, id)
    && GenOk(At(s.procs, id), s.gens, s.count, s.n)
    && s.count < Size(s.n)
    && (s.gens < GENERATIONS ==> Current(At(s.procs, id), s.gens))
  }

  lemma EnterLawful(s: State, id: Id, f: First, late: bool)
    requires At(s.procs, id) == Some(Entering(f)) && Trusts(s, id)
    ensures Seated(s, id, EnterEffect(s, id, f, late)) && Tallied(s, Some(Entering(f)), EnterEffect(s, id, f, late))
  {
  }

  lemma StayLawful(s: State, id: Id, w: Stay, gen: nat, late: bool)
    requires At(s.procs, id) == Some(Staying(w, gen)) && Trusts(s, id)
    ensures Seated(s, id, StayEffect(s, id, w, gen, late))
    ensures Tallied(s, Some(Staying(w, gen)), StayEffect(s, id, w, gen, late))
  {
  }

  lemma EffectLawful(s: State, a: Action)
    requires Allowed(s, a) && Trusts(s, a.id)
    ensures Seated(s, a.id, EffectOf(s, a)) && Tallied(s, At(s.procs, a.id), EffectOf(s, a))
  {
    if a.Step? {
      match s.procs[a.id]
      case Entering(f) => EnterLawful(s, a.id, f, a.late);
      case Staying(w, gen) => StayLawful(s, a.id, w, gen, a.late);
      case Leading(l, gen) => LeadLawful(s, a.id, l, gen);
      case Closing =>
    } else if a.DropFuture? {
      DropLawful(s, a.id, s.procs[a.id]);
    }
  }

  lemma LeadLawful(s: State, id: Id, l: Last, gen: nat)
    requires At(s.procs, id) == Some(Leading(l, gen)) && Trusts(s, id)
    ensures Seated(s, id, LeadEffect(s, id, l, gen)) && Tallied(s, Some(Leading(l, gen)), LeadEffect(s, id, l, gen))
  {
  }

  lemma DropLawful(s: State, id: Id, pc: Pc)
    requires At(s.procs, id) == Some(pc) && Droppable(pc) && Trusts(s, id)
    ensures Seated(s, id, DropEffect(s, id, pc)) && Tallied(s, Some(pc), DropEffect(s, id, pc))
  {
  }

  // ----- one step, for everybody -----

  ghost predicate Steps(s: State, t: State, id: Id, e: Effect) {
    && (e.lock.Some? ==> M.Enabled(s.m, e.lock.value))
    && t == Perform(s, id, e, LockAfter(s, e))
  }

  lemma StepPlaces(s: State, t: State, id: Id, e: Effect)
    requires (forall y :: PlacedNow(s, y)) && Seated(s, id, e) && Steps(s, t, id, e)
    requires s.m.guards == |Those(s.procs, HoldsMutex)|
    ensures forall y :: PlacedNow(t, y)
    ensures t.m.guards == |Those(t.procs, HoldsMutex)|
  {
    if e.lock.Some? { M.Shape(s.m, e.lock.value); }
    if e.to.Some? { Recount(s.procs, id, e.to.value, HoldsMutex); } else { RecountGone(s.procs, id, HoldsMutex); }
    forall y ensures PlacedNow(t, y) {
      assert PlacedNow(s, y);
      assert Listening(t.ev, y) <==> if y == id then ListensAfter(s.ev, id, e.op) else Listening(s.ev, y);
    }
  }

  lemma OneHolder(s: State, x: Id, y: Id)
    requires M.Inv(s.m) && s.m.guards == |Those(s.procs, HoldsMutex)|
    requires Share(At(s.procs, x)) == 1 && Share(At(s.procs, y)) == 1
    ensures x == y
  {
    assert x in Those(s.procs, HoldsMutex) && y in Those(s.procs, HoldsMutex);
    AtMostOne(Those(s.procs, HoldsMutex), x, y);
  }

  lemma StepGenerations(s: State, t: State, id: Id, e: Effect)
    requires M.Inv(s.m) && s.m.guards == |Those(s.procs, HoldsMutex)|
    requires forall y :: GenOk(At(s.procs, y), s.gens, s.count, s.n)
    requires s.gens < GENERATIONS ==> forall y :: Current(At(s.procs, y), s.gens)
    requires Tallied(s, At(s.procs, id), e) && Steps(s, t, id, e)
    ensures forall y :: GenOk(At(t.procs, y), t.gens, t.count, t.n)
    ensures t.gens < GENERATIONS ==> forall y :: Current(At(t.procs, y), t.gens)
  {
    forall y ensures GenOk(At(t.procs, y), t.gens, t.count, t.n)
           && (t.gens < GENERATIONS ==> Current(At(t.procs, y), t.gens)) {
      assert GenOk(At(s.procs, y), s.gens, s.count, s.n);
      if y != id && t.gens != s.gens && Share(At(s.procs, y)) == 1 { OneHolder(s, y, id); }
    }
  }

  lemma StepWakes(s: State, t: State, id: Id, e: Effect)
    requires Inv(s) && Seated(s, id, e) && Tallied(s, At(s.procs, id), e) && Steps(s, t, id, e)
    requires t.gens < GENERATIONS
    ensures forall y :: Woken(At(t.procs, y), y in t.ev.waiting, t.gens, LastAtWork(t))
  {
    forall y ensures Woken(At(t.procs, y), y in t.ev.waiting, t.gens, LastAtWork(t)) {
      assert Woken(At(s.procs, y), y in s.ev.waiting, s.gens, LastAtWork(s));
      assert PlacedNow(s, id);
      if t.gens != s.gens {
        assert WakesAll(At(t.procs, id));
      } else if e.op.DoNotifyAll? {
        assert t.ev.waiting == [];
      } else if w :| WakesAll(At(s.procs, w)) {
        assert w != id && WakesAll(At(t.procs, w));
      }
    }
  }

  lemma ApplyKeepsInv(s: State, a: Action)
    requires Inv(s) && Enabled(s, a)
    ensures Inv(Apply(s, a))
  {
    var e, t := EffectOf(s, a), Apply(s, a);
    assert PlacedNow(s, a.id);
    EffectLawful(s, a);
    if e.lock.Some? { M.ApplyKeepsInv(s.m, e.lock.value); }
    StepPlaces(s, t, a.id, e);
    StepGenerations(s, t, a.id, e);
    if t.gens < GENERATIONS { StepWakes(s, t, a.id, e); }
  }
}

module BarrierTheorems {
  import opened Counting
  import opened Events
  import opened BarrierModel
  import opened BarrierInvariants
  import M = MutexModel

  predicate CanRun(s: State, acts: seq<Action>)
    decreases acts
  {
    acts == [] || (Enabled(s, acts[0]) && CanRun(Apply(s, acts[0]), acts[1..]))
  }

  function Run(s: State, acts: seq<Action>): State
    requires CanRun(s, acts)
    decreases acts
  {
    if acts == [] then s else Run(Apply(s, acts[0]), acts[1..])
  }

  predicate LedBy(pc: Maybe<Pc>, gen: nat) {
    pc.Some? && ((pc.value.Leading? && pc.value.gen == gen) || pc == Some(Done(true, gen)))
  }

  /** No two tasks lead the same generation. */
  ghost predicate OneLeaderEach(s: State) {
    forall x, y, g :: LedBy(At(s.procs, x), g) && LedBy(At(s.procs, y), g) ==> x == y
  }

  lemma NewLeader(s: State, a: Action, g: nat)
    requires Allowed(s, a)
    ensures LedBy(EffectOf(s, a).to, g) ==> LedBy(At(s.procs, a.id), g) || g == s.gens
  {
  }

  lemma ApplyMoves(s: State, a: Action, y: Id)
    requires Enabled(s, a)
    ensures At(Apply(s, a).procs, y) == if y == a.id then EffectOf(s, a).to else At(s.procs, y)
  {
  }

  lemma LedBefore(s: State, y: Id, g: nat)
    requires Inv(s) && LedBy(At(s.procs, y), g)
    ensures g < s.gens
  {
    assert GenOk(At(s.procs, y), s.gens, s.count, s.n);
  }

  lemma ApplyKeepsOneLeader(s: State, a: Action)
    requires Inv(s) && OneLeaderEach(s) && Enabled(s, a)
    ensures OneLeaderEach(Apply(s, a))
  {
    var t := Apply(s, a);
    forall x, y, g | LedBy(At(t.procs, x), g) && LedBy(At(t.procs, y), g) ensures x == y {
      NewLeader(s, a, g);
      ApplyMoves(s, a, x);
      ApplyMoves(s, a, y);
      if LedBy(At(s.procs, x), g) { LedBefore(s, x, g); }
      if LedBy(At(s.procs, y), g) { LedBefore(s, y, g); }
    }
  }

  lemma {:induction false} RunKeepsInv(s: State, acts: seq<Action>)
    requires Inv(s) && OneLeaderEach(s) && CanRun(s, acts)
    ensures Inv(Run(s, acts)) && OneLeaderEach(Run(s, acts)) && Run(s, acts).n == s.n
    decreases acts
  {
    if acts != [] {
      ApplyKeepsInv(s, acts[0]);
      ApplyKeepsOneLeader(s, acts[0]);
      RunKeepsInv(Apply(s, acts[0]), acts[1..]);
    }
  }

  lemma InitialInv(n: nat)
    ensures Inv(Initial(n)) && OneLeaderEach(Initial(n))
  {
    forall id ensures PlacedNow(Initial(n), id) {}
  }

  // ----- arrivals and elections -----

  /** The step in which a task counts itself. */
  predicate IsArrival(s: State, a: Action) {
    a.Step? && At(s.procs, a.id) == Some(Entering(Arrive))
  }

  function Arrivals(s: State, acts: seq<Action>): nat
    requires CanRun(s, acts)
    decreases acts
  {
    if acts == [] then 0
    else (if IsArrival(s, acts[0]) then 1 else 0) + Arrivals(Apply(s, acts[0]), acts[1..])
  }

  /** The step in which a task becomes the leader of the generation `g`. */
  predicate Elects(s: State, a: Action, g: nat)
    requires Enabled(s, a)
  {
    LedBy(At(Apply(s, a).procs, a.id), g) && !LedBy(At(s.procs, a.id), g)
  }

  function Elections(s: State, acts: seq<Action>, g: nat): nat
    requires CanRun(s, acts)
    decreases acts
  {
    if acts == [] then 0
    else (if Elects(s, acts[0], g) then 1 else 0) + Elections(Apply(s, acts[0]), acts[1..], g)
  }

  /** The arrivals that `gens` full generations take. */
  function ArrivalsFor(n: nat, gens: nat): nat {
    Size(n) * gens
  }

  lemma OneMoreGeneration(n: nat, gens: nat)
    ensures ArrivalsFor(n, gens + 1) == ArrivalsFor(n, gens) + Size(n)
  {
  }

  lemma MoreGenerations(n: nat, a: nat, b: nat)
    requires a <= b
    ensures ArrivalsFor(n, a) <= ArrivalsFor(n, b)
  {
    assert Size(n) * b == Size(n) * a + Size(n) * (b - a);
  }

  lemma OneArrival(s: State, a: Action)
    requires Inv(s) && Enabled(s, a)
    ensures
      var t := Apply(s, a);
      if IsArrival(s, a) && s.count + 1 == Size(s.n) then t.gens == s.gens + 1 && t.count == 0
      else t.gens == s.gens && t.count == s.count + One(IsArrival(s, a))
  {
    ArrivalCounts(s, a);
  }

  lemma ArrivalCounts(s: State, a: Action)
    requires Allowed(s, a) && s.count < Size(s.n)
    ensures
      var c := EffectOf(s, a).counts;
      if IsArrival(s, a) && s.count + 1 == Size(s.n) then c == Counts(0, s.gens + 1)
      else c == Counts(s.count + One(IsArrival(s, a)), s.gens)
  {
  }

  lemma {:induction false} ArrivalsBalance(s: State, acts: seq<Action>)
    requires Inv(s) && CanRun(s, acts)
    ensures
      var t := Run(s, acts);
      ArrivalsFor(s.n, s.gens) + s.count + Arrivals(s, acts) == ArrivalsFor(s.n, t.gens) + t.count
    decreases acts
  {
    if acts != [] {
      OneArrival(s, acts[0]);
      OneMoreGeneration(s.n, s.gens);
      ApplyKeepsInv(s, acts[0]);
      ArrivalsBalance(Apply(s, acts[0]), acts[1..]);
    }
  }

  lemma OneElection(s: State, a: Action, g: nat)
    requires Inv(s) && Enabled(s, a)
    ensures One(g < s.gens) + One(Elects(s, a, g)) == One(g < Apply(s, a).gens)
  {
    assert GenOk(At(s.procs, a.id), s.gens, s.count, s.n);
    ApplyMoves(s, a, a.id);
    LastIsElected(s, a, g);
  }

  /** Exactly the last arrival makes a leader, of the generation that it closes. */
  lemma LastIsElected(s: State, a: Action, g: nat)
    requires Allowed(s, a) && GenOk(At(s.procs, a.id), s.gens, s.count, s.n)
    ensures
      var e := EffectOf(s, a);
      && (LedBy(e.to, g) && !LedBy(At(s.procs, a.id), g) <==> e.counts.gens != s.gens && g == s.gens)
      && (e.counts.gens == s.gens || e.counts.gens == s.gens + 1)
  {
  }

  lemma {:induction false} ElectionsBalance(s: State, acts: seq<Action>, g: nat)
    requires Inv(s) && CanRun(s, acts)
    ensures One(g < s.gens) + Elections(s, acts, g) == One(g < Run(s, acts).gens)
    decreases acts
  {
    if acts != [] {
      OneElection(s, acts[0], g);
      ApplyKeepsInv(s, acts[0]);
      ElectionsBalance(Apply(s, acts[0]), acts[1..], g);
    }
  }

  /** Every finished generation elected exactly one leader over the whole of the run, dropped or not, and
      no other generation did. */
  lemma OneLeaderPerGeneration(n: nat, acts: seq<Action>, g: nat)
    requires CanRun(Initial(n), acts)
    ensures Elections(Initial(n), acts, g) == One(g < Run(Initial(n), acts).gens)
  {
    InitialInv(n);
    ElectionsBalance(Initial(n), acts, g);
  }

  lemma ReturnedAfterAll(n: nat, acts: seq<Action>, id: Id)
    requires CanRun(Initial(n), acts) && id in Run(Initial(n), acts).procs && Run(Initial(n), acts).procs[id].Done?
    ensures ArrivalsFor(n, Run(Initial(n), acts).procs[id].gen + 1) <= Arrivals(Initial(n), acts)
  {
    InitialInv(n);
    RunKeepsInv(Initial(n), acts);
    ArrivalsBalance(Initial(n), acts);
    var s := Run(Initial(n), acts);
    assert GenOk(At(s.procs, id), s.gens, s.count, s.n);
    MoreGenerations(n, s.procs[id].gen + 1, s.gens);
  }

  /** Over any run and any cancellation: the arrivals fill the finished generations with `n` each (a
      barrier for zero tasks behaves like one for one) and leave the count, no two tasks lead the same
      generation, and nobody returns before the last arrival of its own generation. */
  lemma Generations(n: nat, acts: seq<Action>)
    requires CanRun(Initial(n), acts)
    ensures
      var s, arrived := Run(Initial(n), acts), Arrivals(Initial(n), acts);
      && arrived == ArrivalsFor(n, s.gens) + s.count && s.count < Size(n)
      && OneLeaderEach(s)
      && forall id :: id in s.procs && s.procs[id].Done? ==> ArrivalsFor(n, s.procs[id].gen + 1) <= arrived
  {
    InitialInv(n);
    RunKeepsInv(Initial(n), acts);
    ArrivalsBalance(Initial(n), acts);
    var s := Run(Initial(n), acts);
    forall id | id in s.procs && s.procs[id].Done?
      ensures ArrivalsFor(n, s.procs[id].gen + 1) <= Arrivals(Initial(n), acts)
    {
      ReturnedAfterAll(n, acts, id);
    }
  }

  /** In every reachable state, below 2^64 generations: an unnotified listener belongs to the current
      generation, or the last arrival is about to notify everybody; and a woken waiter leaves exactly
      when its generation is over, so that a notification passed on by a cancelled one makes it listen
      again. */
  lemma WakeupsUnderWay(n: nat, acts: seq<Action>)
    requires CanRun(Initial(n), acts) && Run(Initial(n), acts).gens < 0x1_0000_0000_0000_0000
    ensures
      var s := Run(Initial(n), acts);
      forall id :: id in s.procs && id in s.ev.waiting ==>
        s.procs[id].Staying? && (s.procs[id].gen == s.gens || LastAtWork(s))
    ensures
      var s := Run(Initial(n), acts);
      forall id, gen: nat :: At(s.procs, id) == Some(Staying(Check, gen)) ==>
        StepEffect(s, id, Staying(Check, gen), false).to
        == Some(Staying(if gen < s.gens then Leave else Register, gen))
  {
    InitialInv(n);
    RunKeepsInv(Initial(n), acts);
    var s := Run(Initial(n), acts);
    forall id | id in s.procs && id in s.ev.waiting
      ensures s.procs[id].Staying? && (s.procs[id].gen == s.gens || LastAtWork(s))
    {
      assert PlacedNow(s, id) && Woken(At(s.procs, id), id in s.ev.waiting, s.gens, LastAtWork(s));
    }
    forall id, gen: nat | At(s.procs, id) == Some(Staying(Check, gen))
      ensures StepEffect(s, id, Staying(Check, gen), false).to
              == Some(Staying(if gen < s.gens then Leave else Register, gen))
    {
      assert GenOk(At(s.procs, id), s.gens, s.count, s.n);
    }
  }

  // ----- nobody is stranded -----

  ghost predicate Quiescent(s: State) {
    && !s.aborted
    && (forall id :: id in s.procs ==> !s.procs[id].Done?)
    && (forall id, late :: !Enabled(s, Step(id, late)))
  }

  predicate WaitsForLock(pc: Pc) {
    pc == Entering(Lock) || (pc.Staying? && pc.w.Relock?)
  }

  lemma LockReady(s: State, id: Id, pc: Pc)
    requires Inv(s) && !s.aborted && At(s.procs, id) == Some(pc) && !pc.Done? && !WaitsForLock(pc)
    ensures var e := StepEffect(s, id, pc, false); e.lock.Some? ==> M.Enabled(s.m, e.lock.value)
  {
    assert PlacedNow(s, id);
    RecountGone(s.procs, id, HoldsMutex);
  }

  lemma Stuck(s: State, id: Id)
    requires Inv(s) && Quiescent(s) && id in s.procs
    ensures WaitsForLock(s.procs[id]) ==> !M.CanStep(s.m, id)
    ensures !WaitsForLock(s.procs[id]) ==> s.procs[id].Staying? && s.procs[id].w.Wait? && id !in s.ev.notified
  {
    assert PlacedNow(s, id);
    assert !Enabled(s, Step(id, false));
    if !WaitsForLock(s.procs[id]) { LockReady(s, id, s.procs[id]); }
  }

  lemma MutexIsFree(s: State)
    requires Inv(s) && Quiescent(s)
    ensures s.m.ops == map[]
  {
    forall id | id in s.procs ensures !HoldsMutex(s.procs[id]) { Stuck(s, id); }
    assert Those(s.procs, HoldsMutex) == {};
    forall id ensures id !in s.m.releasing && (id in s.m.ops ==> s.m.ops[id] != M.Done && !M.CanStep(s.m, id)) {
      assert PlacedNow(s, id);
      if id in s.procs { Stuck(s, id); }
    }
    M.NothingStranded(s.m);
  }

  /** When nothing moves any more, whoever is left waits for arrivals that its own, current, generation
      still lacks; assuming fewer than 2^64 generations. */
  lemma NobodyStranded(n: nat, acts: seq<Action>)
    requires CanRun(Initial(n), acts) && Quiescent(Run(Initial(n), acts))
    requires Run(Initial(n), acts).gens < 0x1_0000_0000_0000_0000
    ensures
      var s := Run(Initial(n), acts);
      forall id :: id in s.procs ==> s.procs[id] == Staying(Wait, s.gens) && 1 <= s.count < n
  {
    InitialInv(n);
    RunKeepsInv(Initial(n), acts);
    var s := Run(Initial(n), acts);
    MutexIsFree(s);
    forall id | id in s.procs ensures s.procs[id] == Staying(Wait, s.gens) && 1 <= s.count < n {
      Stuck(s, id);
      assert PlacedNow(s, id);
      assert GenOk(At(s.procs, id), s.gens, s.count, s.n);
      assert Woken(At(s.procs, id), id in s.ev.waiting, s.gens, LastAtWork(s));
      forall w ensures !WakesAll(At(s.procs, w)) { if w in s.procs { Stuck(s, w); } }
    }
  }
}
