// The semaphore as a machine of atomic steps.
module SemaphoreModel {
  import opened Counting
  import opened Events

  datatype Pc =
    | New                          // `acquire` future, not polled: its poll starts with a load
    | Load(future: bool)           // `try_acquire` loads the count; `future`: called by a poll
    | Cas(seen: nat, future: bool) // compare-exchange seen -> seen - 1, may fail spuriously
    | MustListen                   // no permit, no listener: `listen`
    | Wait                         // polls its listener
    | Done                         // completed, not dropped
    | Permit                       // a live guard
    | ReleaseNotify                // dropped guard: owes `notify(1)`
    | AddNotify(n: nat)            // `add_permits`: owes `notify(n)`

  datatype State = State(count: int, ev: Event, procs: map<Id, Pc>)
  {
    function Goto(id: Id, pc: Pc): State {
      this.(procs := procs[id := pc])
    }

    function Gone(id: Id): State {
      this.(procs := procs - {id})
    }
  }

  function Initial(n: nat): State {
    State(n, NO_LISTENERS, map[])
  }

  datatype Action =
    | Acquire(id: Id)
    | TryAcquire(id: Id)
    | AddPermits(id: Id, n: nat)
    | Step(id: Id, spurious: bool, gid: Id)
    | Repoll(id: Id)      // a parked future is polled again: it first tries the count
    | DropFuture(id: Id)
    | DropGuard(id: Id)
    | Forget(id: Id)

  predicate Enabled(s: State, a: Action) {
    match a
    case Acquire(id) => id !in s.procs
    case TryAcquire(id) => id !in s.procs
    case AddPermits(id, _) => id !in s.procs
    case Step(id, _, gid) =>
      && id in s.procs && gid !in s.procs
      && !s.procs[id].Done? && !s.procs[id].Permit?
      && (s.procs[id].Wait? ==> id in s.ev.notified)
    case Repoll(id) => id in s.procs && s.procs[id].Wait?
    case DropFuture(id) => id in s.procs && (s.procs[id].New? || s.procs[id].Wait? || s.procs[id].Done?)
    case DropGuard(id) => id in s.procs && s.procs[id].Permit?
    case Forget(id) => id in s.procs && s.procs[id].Permit?
  }

  /** What follows a load, or a failed compare-exchange, that saw `count`. */
  function Saw(s: State, id: Id, count: int, future: bool): State {
    if count > 0 then s.Goto(id, Cas(count, future))
    else if !future then s.Gone(id)
    else s.Goto(id, if Listening(s.ev, id) then Wait else MustListen)
  }

  function StepOp(s: State, id: Id, spurious: bool, gid: Id): State
    requires Enabled(s, Step(id, spurious, gid))
  {
    match s.procs[id]
    case New => Saw(s, id, s.count, true)
    case Load(future) => Saw(s, id, s.count, future)
    case Cas(seen, future) =>
      if s.count != seen || spurious then Saw(s, id, s.count, future)
      else if future then s.(count := seen - 1, procs := s.procs[id := Done][gid := Permit])
      else s.(count := seen - 1, procs := s.procs[id := Permit])
    case MustListen => s.(ev := Listen(s.ev, id), procs := s.procs[id := Load(true)])
    case Wait => s.(ev := Consume(s.ev, id), procs := s.procs[id := Load(true)])
    case ReleaseNotify => s.(ev := Notify(s.ev, 1), procs := s.procs - {id})
    case AddNotify(n) => s.(ev := Notify(s.ev, n), procs := s.procs - {id})
  }

  function Apply(s: State, a: Action): State
    requires Enabled(s, a)
  {
    match a
    case Acquire(id) => s.Goto(id, New)
    case TryAcquire(id) => s.Goto(id, Load(false))
    case AddPermits(id, n) => s.(count := s.count + n, procs := s.procs[id := AddNotify(n)])
    case Step(id, spurious, gid) => StepOp(s, id, spurious, gid)
    case Repoll(id) => s.Goto(id, Load(true))
    case DropFuture(id) => s.(ev := DropListener(s.ev, id), procs := s.procs - {id})
    case DropGuard(id) => s.(count := s.count + 1, procs := s.procs[id := ReleaseNotify])
    case Forget(id) => s.Gone(id)
  }

  // ----- invariants -----

  predicate IsPermit(pc: Pc) { pc.Permit? }

  function Permits(p: map<Id, Pc>): set<Id> { Those(p, IsPermit) }

  /** Permits that are available or held. */
  function InUse(s: State): int {
    s.count + |Permits(s.procs)|
  }

  function Added(a: Action): nat {
    if a.AddPermits? then a.n else 0
  }

  predicate Seat(pc: Pc, listening: bool) {
    && (pc.Wait? ==> listening)
    && (listening ==> pc.Wait? || pc.Done? || (pc.Load? && pc.future) || (pc.Cas? && pc.future))
    && (pc.Cas? ==> pc.seen > 0)
  }

  ghost predicate Places(s: State) {
    && (forall id :: Listening(s.ev, id) ==> id in s.procs)
    && (forall id :: id in s.procs ==> Seat(s.procs[id], Listening(s.ev, id)))
  }

  /** Futures in the middle of a poll, and notifications that are still owed. */
  predicate OnItsWay(pc: Pc) {
    || (pc.Load? && pc.future) || (pc.Cas? && pc.future)
    || pc.ReleaseNotify? || (pc.AddNotify? && pc.n > 0)
  }

  predicate Unwoken(s: State, id: Id) {
    id in s.procs && s.procs[id].Wait? && id in s.ev.waiting
  }

  /** A wake-up is on its way, or a live guard's drop will send one. */
  ghost predicate Covered(s: State) {
    || s.ev.notified != []
    || exists w :: w in s.procs && (OnItsWay(s.procs[w]) || s.procs[w].Permit?)
  }

  /** A free permit and an unwoken waiter never go without either. */
  ghost predicate Progress(s: State) {
    forall id :: s.count > 0 && Unwoken(s, id) ==> Covered(s)
  }

  ghost predicate Inv(s: State) {
    s.count >= 0 && Places(s)
  }

  lemma MoveOne(p: map<Id, Pc>, id: Id, pc: Pc)
    ensures |Permits(p[id := pc])| == |Permits(p)| + One(pc.Permit?) - One(id in p && p[id].Permit?)
  {
    Recount(p, id, pc, IsPermit);
  }

  lemma StepConserves(s: State, id: Id, spurious: bool, gid: Id)
    requires Places(s) && Enabled(s, Step(id, spurious, gid))
    ensures InUse(StepOp(s, id, spurious, gid)) == InUse(s)
  {
    var t := StepOp(s, id, spurious, gid);
    RecountGone(s.procs, id, IsPermit);
    if id in t.procs {
      MoveOne(s.procs, id, t.procs[id]);
      if gid in t.procs { MoveOne(s.procs[id := t.procs[id]], gid, Permit); }
    }
  }

  /** Only `add_permits` makes permits, and only `forget` loses one. */
  lemma ApplyConserves(s: State, a: Action)
    requires Places(s) && Enabled(s, a)
    ensures InUse(Apply(s, a)) == InUse(s) + Added(a) - One(a.Forget?)
  {
    if a.Step? {
      StepConserves(s, a.id, a.spurious, a.gid);
    } else {
      var t := Apply(s, a);
      RecountGone(s.procs, a.id, IsPermit);
      if a.id in t.procs { MoveOne(s.procs, a.id, t.procs[a.id]); }
    }
  }

  lemma TakerPlaces(s: State, id: Id, spurious: bool, gid: Id)
    requires Places(s) && Enabled(s, Step(id, spurious, gid)) && s.procs[id].Cas?
    ensures Places(StepOp(s, id, spurious, gid))
  {
  }

  lemma StepPlaces(s: State, id: Id, spurious: bool, gid: Id)
    requires Places(s) && Enabled(s, Step(id, spurious, gid)) && !s.procs[id].Cas?
    ensures Places(StepOp(s, id, spurious, gid))
  {
  }

  lemma ApplyPlaces(s: State, a: Action)
    requires Places(s) && Enabled(s, a)
    ensures Places(Apply(s, a))
  {
    if a.Step? {
      if s.procs[a.id].Cas? {
        TakerPlaces(s, a.id, a.spurious, a.gid);
      } else {
        StepPlaces(s, a.id, a.spurious, a.gid);
      }
    }
  }

  lemma ApplyKeepsInv(s: State, a: Action)
    requires Inv(s) && Enabled(s, a)
    ensures Inv(Apply(s, a))
  {
    ApplyPlaces(s, a);
  }

  // ----- progress, and the one step that loses it -----

  /** The last guard that covers the waiters is forgotten while a permit is free. */
  ghost predicate Strands(s: State, a: Action) {
    && a.Forget? && s.count > 0
    && s.ev.notified == []
    && (forall w :: w in s.procs && w != a.id ==> !OnItsWay(s.procs[w]) && !s.procs[w].Permit?)
    && exists x :: Unwoken(s, x)
  }

  /** Whoever keeps a waiter covered before an action, or the action itself, keeps it covered after. */
  lemma StaysCovered(s: State, a: Action, x: Id)
    requires Inv(s) && Progress(s) && Enabled(s, a) && !Strands(s, a)
    requires Apply(s, a).count > 0 && Unwoken(Apply(s, a), x)
    ensures Covered(Apply(s, a))
  {
    ParkedBefore(s, a, x);
    var t := Apply(s, a);
    if t.ev.notified == [] {
      if w :| w in s.procs && w != a.id && (OnItsWay(s.procs[w]) || s.procs[w].Permit?) {
        OthersStay(s, a, w);
      } else {
        ActorCovers(s, a);
      }
    }
  }

  /** If nobody else covers the waiters, the acting operation goes on doing so. */
  lemma ActorCovers(s: State, a: Action)
    requires Places(s) && Enabled(s, a) && !a.Forget?
    requires Apply(s, a).count > 0 && Apply(s, a).ev.notified == [] && Apply(s, a).ev.waiting != []
    requires s.count == 0 || s.ev.notified != []
             || (a.id in s.procs && (OnItsWay(s.procs[a.id]) || s.procs[a.id].Permit?))
    ensures Covered(Apply(s, a))
  {
    var t := Apply(s, a);
    assert s.ev.notified != [] ==> s.ev.notified[0] in s.ev.notified;
    if a.Step? && a.gid in t.procs {
      assert t.procs[a.gid].Permit?;
    } else {
      assert a.id in t.procs && OnItsWay(t.procs[a.id]);
    }
  }

  lemma OthersStay(s: State, a: Action, w: Id)
    requires Enabled(s, a) && w in s.procs && w != a.id
    ensures w in Apply(s, a).procs && Apply(s, a).procs[w] == s.procs[w]
  {
  }

  lemma ParkedBefore(s: State, a: Action, x: Id)
    requires Places(s) && Enabled(s, a) && Apply(s, a).count > 0 && Unwoken(Apply(s, a), x)
    ensures Unwoken(s, x)
  {
  }

  lemma StrandingUncovers(s: State, a: Action)
    requires Places(s) && Enabled(s, a) && Strands(s, a)
    ensures !Progress(Apply(s, a))
  {
    var t := Apply(s, a);
    var x :| Unwoken(s, x);
    assert Unwoken(t, x) && t.count > 0;
    assert forall w :: w in t.procs ==> !OnItsWay(t.procs[w]) && !t.procs[w].Permit?;
  }

  /** Exactly one kind of step loses progress: `forget` on the last guard that covers an unwoken waiter
      while a permit is free. */
  lemma ProgressIff(s: State, a: Action)
    requires Inv(s) && Progress(s) && Enabled(s, a)
    ensures Progress(Apply(s, a)) <==> !Strands(s, a)
  {
    if Strands(s, a) {
      StrandingUncovers(s, a);
    } else {
      forall x | Apply(s, a).count > 0 && Unwoken(Apply(s, a), x) ensures Covered(Apply(s, a)) {
        StaysCovered(s, a, x);
      }
    }
  }

  // ----- runs -----

  predicate CanRun(s: State, acts: seq<Action>)
    decreases acts
  {
    acts == [] || (Enabled(s, acts[0]) && CanRun(Apply(s, acts[0]), acts[1..]))
  }

  function Run(s: State, acts: seq<Action>): State
    requires CanRun(s, acts)
    decreases acts
  {
    if acts == [] then s else Run(Apply(s, acts[0]), acts[1..])
  }

  lemma {:induction false} RunKeepsInv(s: State, acts: seq<Action>)
    requires Inv(s) && CanRun(s, acts)
    ensures Inv(Run(s, acts))
    decreases acts
  {
    if acts != [] {
      ApplyKeepsInv(s, acts[0]);
      RunKeepsInv(Apply(s, acts[0]), acts[1..]);
    }
  }

  /** Permits added, and guards forgotten, over a run. */
  function AddedBy(acts: seq<Action>): nat {
    if acts == [] then 0 else Added(acts[0]) + AddedBy(acts[1..])
  }

  function ForgottenBy(acts: seq<Action>): nat {
    if acts == [] then 0 else (if acts[0].Forget? then 1 else 0) + ForgottenBy(acts[1..])
  }

  lemma {:induction false} RunConserves(s: State, acts: seq<Action>)
    requires Inv(s) && CanRun(s, acts)
    ensures InUse(Run(s, acts)) + ForgottenBy(acts) == InUse(s) + AddedBy(acts)
    decreases acts
  {
    if acts != [] {
      ApplyConserves(s, acts[0]);
      ApplyKeepsInv(s, acts[0]);
      RunConserves(Apply(s, acts[0]), acts[1..]);
    }
  }

  /** In every run: available permits, live guards and forgotten guards add up to the initial and the added
      permits, and the count never goes below zero. */
  lemma Conservation(n: nat, acts: seq<Action>)
    requires CanRun(Initial(n), acts)
    ensures
      var s := Run(Initial(n), acts);
      s.count + |Permits(s.procs)| + ForgottenBy(acts) == n + AddedBy(acts) && s.count >= 0
  {
    assert Permits(Initial(n).procs) == {};
    RunKeepsInv(Initial(n), acts);
    RunConserves(Initial(n), acts);
  }

  /** No step of the run is of that kind; guards may otherwise be forgotten at any time. */
  ghost predicate NeverStrands(s: State, acts: seq<Action>)
    requires CanRun(s, acts)
    decreases acts
  {
    acts != [] ==> !Strands(s, acts[0]) && NeverStrands(Apply(s, acts[0]), acts[1..])
  }

  lemma {:induction false} RunKeepsProgress(s: State, acts: seq<Action>)
    requires Inv(s) && Progress(s) && CanRun(s, acts) && NeverStrands(s, acts)
    ensures Progress(Run(s, acts))
    decreases acts
  {
    if acts != [] {
      ProgressIff(s, acts[0]);
      ApplyKeepsInv(s, acts[0]);
      RunKeepsProgress(Apply(s, acts[0]), acts[1..]);
    }
  }

  /** A free permit and a parked unwoken waiter mean a wake-up on its way, or a live guard whose drop will
      notify. */
  lemma WakeupOrGuard(n: nat, acts: seq<Action>)
    requires CanRun(Initial(n), acts) && NeverStrands(Initial(n), acts)
    ensures var s := Run(Initial(n), acts); forall id :: s.count > 0 && Unwoken(s, id) ==> Covered(s)
  {
    RunKeepsProgress(Initial(n), acts);
  }

  /** In particular a run that forgets no guard strands nobody. */
  lemma {:induction false} NothingForgottenNeverStrands(s: State, acts: seq<Action>)
    requires CanRun(s, acts) && ForgottenBy(acts) == 0
    ensures NeverStrands(s, acts)
    decreases acts
  {
    if acts != [] { NothingForgottenNeverStrands(Apply(s, acts[0]), acts[1..]); }
  }

  // ----- without the guard: the wake-up that a taker consumes -----

  ghost predicate InTransit(s: State) {
    s.ev.notified != [] || exists w :: w in s.procs && OnItsWay(s.procs[w])
  }

  /** The stronger claim, which the code keeps only up to a certain step. */
  ghost predicate StrongProgress(s: State) {
    forall id :: s.count > 0 && Unwoken(s, id) ==> InTransit(s)
  }

  /** A woken future takes a permit, and leaves more permits than that. */
  predicate TakesOneOfMany(s: State, a: Action) {
    && a.Step? && a.id in s.procs && s.procs[a.id].Cas? && s.procs[a.id].future
    && s.procs[a.id].seen == s.count && !a.spurious && s.count > 1
  }

  /** Nobody but `id` is on the way, and somebody waits. */
  ghost predicate LastInTransit(s: State, id: Id) {
    && s.ev.notified == []
    && (forall w :: w in s.procs && w != id ==> !OnItsWay(s.procs[w]))
    && exists x :: Unwoken(s, x)
  }

  /** The stronger claim survives a step if and only if the step is not that of the only future on its
      way taking one of several permits past an unwoken waiter. */
  lemma StrongProgressIff(s: State, a: Action)
    requires Inv(s) && StrongProgress(s) && Enabled(s, a)
    ensures StrongProgress(Apply(s, a)) <==> !(TakesOneOfMany(s, a) && LastInTransit(s, a.id))
  {
    var t := Apply(s, a);
    if TakesOneOfMany(s, a) && LastInTransit(s, a.id) {
      var x :| Unwoken(s, x);
      assert Unwoken(t, x) && t.count > 0;
      assert forall w :: w in t.procs ==> !OnItsWay(t.procs[w]);
    } else {
      forall x | t.count > 0 && Unwoken(t, x) ensures InTransit(t) {
        StaysInTransit(s, a, x);
      }
    }
  }

  /** Whoever was on its way, was notified or makes the first permit is on its way afterwards, unless
      it hands the wake-up on or takes its permit. */
  lemma ActorInTransit(s: State, a: Action)
    requires Places(s) && Enabled(s, a) && !TakesOneOfMany(s, a)
    requires Apply(s, a).count > 0 && Apply(s, a).ev.notified == [] && Apply(s, a).ev.waiting != []
    requires s.count == 0 || s.ev.notified != [] || (a.id in s.procs && OnItsWay(s.procs[a.id]))
    ensures a.id in Apply(s, a).procs && OnItsWay(Apply(s, a).procs[a.id])
  {
    if s.ev.notified != [] { assert s.ev.notified[0] in s.ev.notified; }
  }

  lemma StaysInTransit(s: State, a: Action, x: Id)
    requires Inv(s) && StrongProgress(s) && Enabled(s, a) && !(TakesOneOfMany(s, a) && LastInTransit(s, a.id))
    requires Apply(s, a).count > 0 && Unwoken(Apply(s, a), x)
    ensures InTransit(Apply(s, a))
  {
    ParkedBefore(s, a, x);
    if Apply(s, a).ev.notified == [] {
      if w :| w in s.procs && w != a.id && OnItsWay(s.procs[w]) {
        OthersStay(s, a, w);
      } else if !TakesOneOfMany(s, a) {
        ActorInTransit(s, a);
      }
    }
  }

  ghost predicate Quiescent(s: State) {
    && (forall id :: id in s.procs ==> !s.procs[id].Permit? && !s.procs[id].Done?)
    && (forall id, spurious, gid :: !Enabled(s, Step(id, spurious, gid)))
  }

  /** When nothing moves and no guard lives, pending `acquire`s mean that no permit is free: every permit
      that was ever made has been forgotten. */
  lemma NobodyStarves(n: nat, acts: seq<Action>)
    requires CanRun(Initial(n), acts) && NeverStrands(Initial(n), acts)
    requires Quiescent(Run(Initial(n), acts))
    ensures
      var s := Run(Initial(n), acts);
      s.procs == map[] || (s.count == 0 && ForgottenBy(acts) == n + AddedBy(acts))
  {
    RunKeepsInv(Initial(n), acts);
    RunKeepsProgress(Initial(n), acts);
    Conservation(n, acts);
    QuiescentIff(Run(Initial(n), acts));
  }

  /** A state where nothing moves strands a waiter beside a free permit exactly if progress is lost. */
  lemma QuiescentIff(s: State)
    requires Inv(s) && Quiescent(s)
    ensures Permits(s.procs) == {}
    ensures Progress(s) <==> s.procs == map[] || s.count == 0
  {
    var unused := FreshName(s.procs.Keys);
    assert s.ev.notified != [] ==> s.ev.notified[0] in s.ev.notified;
    forall id | id in s.procs ensures Unwoken(s, id) && id !in s.ev.notified {
      assert !Enabled(s, Step(id, false, unused));
    }
    assert Permits(s.procs) == {};
    if Progress(s) && s.procs != map[] {
      var id :| id in s.procs;
      assert Unwoken(s, id) && !Covered(s);
    }
  }

  // ----- why the guard is needed in `Covered` -----

  ghost predicate Reaches(s: State, t: State) {
    exists acts: seq<Action> :: CanRun(s, acts) && Run(s, acts) == t
  }

  lemma ThenStep(s: State, a: Action, t: State)
    requires Enabled(s, a) && Reaches(Apply(s, a), t)
    ensures Reaches(s, t)
  {
    var acts: seq<Action> :| CanRun(Apply(s, a), acts) && Run(Apply(s, a), acts) == t;
    assert ([a] + acts)[1..] == acts;
    assert CanRun(s, [a] + acts) && Run(s, [a] + acts) == t;
  }

  lemma Already(s: State)
    ensures Reaches(s, s)
  {
    assert CanRun(s, []) && Run(s, []) == s;
  }

  lemma {:induction false} ThenReaches(s: State, acts: seq<Action>, t: State, u: State)
    requires CanRun(s, acts) && Run(s, acts) == t && Reaches(t, u)
    ensures Reaches(s, u)
    decreases acts
  {
    if acts != [] {
      ThenReaches(Apply(s, acts[0]), acts[1..], t, u);
      ThenStep(s, acts[0], u);
    }
  }

  /** Without permits a new `acquire` parks. */
  lemma Parks(s: State, id: Id, other: Id, u: State)
    requires s.count == 0 && id !in s.procs && other !in s.procs && id != other && !Listening(s.ev, id)
    requires Reaches(s.(ev := Listen(s.ev, id), procs := s.procs[id := Wait]), u)
    ensures Reaches(s, u)
  {
    var step := Step(id, false, other);
    var s1 := Apply(s, Acquire(id));
    var s2 := Apply(s1, step);
    var s3 := Apply(s2, step);
    assert Apply(s3, step).procs == s.procs[id := Wait];
    ThenStep(s3, step, u);
    ThenStep(s2, step, u);
    ThenStep(s1, step, u);
    ThenStep(s, Acquire(id), u);
  }

  /** One permit is added and its notification sent. */
  lemma Adds(s: State, id: Id, other: Id, u: State)
    requires id !in s.procs && other !in s.procs && id != other
    requires Reaches(s.(count := s.count + 1, ev := Notify(s.ev, 1)), u)
    ensures Reaches(s, u)
  {
    var s1 := Apply(s, AddPermits(id, 1));
    assert Apply(s1, Step(id, false, other)).procs == s.procs;
    ThenStep(s1, Step(id, false, other), u);
    ThenStep(s, AddPermits(id, 1), u);
  }

  /** A notified waiter consumes its listener and takes a permit, all in one poll. */
  lemma Takes(s: State, id: Id, gid: Id, u: State)
    requires id in s.procs && s.procs[id].Wait? && id in s.ev.notified && s.count > 0 && gid !in s.procs
    requires Reaches(s.(count := s.count - 1, ev := Consume(s.ev, id), procs := s.procs[id := Done][gid := Permit]), u)
    ensures Reaches(s, u)
  {
    var step := Step(id, false, gid);
    var s1 := Apply(s, step);
    var s2 := Apply(s1, step);
    assert Apply(s2, step).procs == s.procs[id := Done][gid := Permit];
    ThenStep(s2, step, u);
    ThenStep(s1, step, u);
    ThenStep(s, step, u);
  }

  /** Two waiters, then two separate permits whose second notification is lost on the first waiter. */
  function TwoWaiters(): State { State(0, Event([], [1, 2], {}), map[1 := Wait, 2 := Wait]) }
  function TwoPermits(): State { State(2, Event([1], [2], {}), map[1 := Wait, 2 := Wait]) }
  function OneAsleep(): State {
    State(1, Event([], [2], {}), map[1 := Done, 2 := Wait, 3 := Permit])
  }

  lemma TwoPark(u: State)
    requires Reaches(TwoWaiters(), u)
    ensures Reaches(Initial(0), u)
  {
    var first := State(0, Event([], [1], {}), map[1 := Wait]);
    assert Listen(NO_LISTENERS, 1) == first.ev && Listen(first.ev, 2) == TwoWaiters().ev;
    assert first.procs[2 := Wait] == TwoWaiters().procs;
    Parks(first, 2, 3, u);
    Parks(Initial(0), 1, 3, u);
  }

  lemma TwoAdded(u: State)
    requires Reaches(TwoPermits(), u)
    ensures Reaches(TwoWaiters(), u)
  {
    var half := TwoWaiters().(count := 1, ev := Event([1], [2], {}));
    assert Notify(TwoWaiters().ev, 1) == half.ev && Notify(half.ev, 1) == half.ev;
    assert half.(count := 2, ev := half.ev) == TwoPermits();
    Adds(half, 3, 4, u);
    Adds(TwoWaiters(), 3, 4, u);
  }

  lemma OneTaken()
    ensures Reaches(TwoPermits(), OneAsleep())
  {
    var e := TwoPermits().ev;
    assert Without([1], 1) == [] && Without([2], 1) == [2] && Consume(e, 1) == OneAsleep().ev;
    assert map[1 := Wait, 2 := Wait][1 := Done][3 := Permit] == OneAsleep().procs;
    assert TwoPermits().(count := 1, ev := OneAsleep().ev, procs := OneAsleep().procs) == OneAsleep();
    Already(OneAsleep());
    Takes(TwoPermits(), 1, 3, OneAsleep());
  }

  /** A permit is free, a waiter sleeps, and only the drop of a live guard will wake it. */
  lemma FreePermitSleepingWaiter()
    ensures Reaches(Initial(0), OneAsleep())
    ensures
      var s := OneAsleep();
      && s.count > 0 && s.procs[2].Wait? && 2 in s.ev.waiting && s.ev.notified == []
      && forall w :: w in s.procs ==> !OnItsWay(s.procs[w])
  {
    OneTaken();
    TwoAdded(OneAsleep());
    TwoPark(OneAsleep());
  }

  function FreeForever(): State {
    State(1, Event([], [2], {}), map[2 := Wait])
  }

  lemma FreeForeverIsStuck()
    ensures Quiescent(FreeForever()) && !Progress(FreeForever())
  {
    var s := FreeForever();
    assert s.count > 0 && Unwoken(s, 2) && !Covered(s);
  }

  lemma ForgetsLastGuard()
    ensures Strands(OneAsleep(), Forget(3)) && Reaches(OneAsleep(), FreeForever())
  {
    var s := Apply(OneAsleep(), Forget(3));
    assert Unwoken(OneAsleep(), 2);
    assert s.procs == map[1 := Done, 2 := Wait];
    assert Apply(s, DropFuture(1)).procs == map[2 := Wait];
    assert Apply(s, DropFuture(1)) == FreeForever();
    Already(FreeForever());
    ThenStep(s, DropFuture(1), FreeForever());
    ThenStep(OneAsleep(), Forget(3), FreeForever());
  }

  /** The stranding step is reached: forgetting that guard leaves a free permit, a waiter asleep, and
      nothing that could move. */
  lemma ForgetStrands()
    ensures Reaches(Initial(0), OneAsleep()) && Strands(OneAsleep(), Forget(3))
    ensures Reaches(Initial(0), FreeForever()) && Quiescent(FreeForever()) && !Progress(FreeForever())
    ensures FreeForever().count > 0 && FreeForever().procs[2].Wait?
  {
    FreePermitSleepingWaiter();
    ForgetsLastGuard();
    FreeForeverIsStuck();
    var acts: seq<Action> :| CanRun(Initial(0), acts) && Run(Initial(0), acts) == OneAsleep();
    ThenReaches(Initial(0), acts, OneAsleep(), FreeForever());
  }
}
