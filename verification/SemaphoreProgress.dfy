// In which order the waiters of a semaphore are woken, that a released permit wakes one of them, and that
// a poll which is left alone ends.
module SemaphoreProgress {
  import opened Counting
  import opened Events
  import opened SemaphoreModel

  /** The step that ends a release wakes one waiter, the first in line, unless one is woken already; the
      step that ends `add_permits(n)` tops the woken waiters up to `n`. */
  lemma ReleaseWakesOne(s: State, id: Id, spurious: bool, gid: Id)
    requires Enabled(s, Step(id, spurious, gid))
    ensures s.procs[id].ReleaseNotify? ==> TopsUp(s.ev, Apply(s, Step(id, spurious, gid)).ev, 1)
    ensures s.procs[id].AddNotify? ==> TopsUp(s.ev, Apply(s, Step(id, spurious, gid)).ev, s.procs[id].n)
  {
    NotifyInOrder(s.ev, 1);
    if s.procs[id].AddNotify? { NotifyInOrder(s.ev, s.procs[id].n); }
  }

  lemma StepKeepsOrder(s: State, a: Action, x: Id, y: Id)
    requires Enabled(s, a) && AheadIn(Queue(s.ev), x, y)
    requires Listening(s.ev, x) && Listening(Apply(s, a).ev, x)
    ensures AheadIn(Queue(Apply(s, a).ev), x, y)
  {
    if a.DropFuture? {
      DropKeepsAhead(s.ev, x, y, a.id);
    } else if a.Step? {
      match s.procs[a.id]
      case MustListen => ListenKeepsAhead(s.ev, x, y, a.id);
      case Wait => ForgetKeepsAhead(s.ev, x, y, a.id);
      case ReleaseNotify => NotifyInOrder(s.ev, 1);
      case AddNotify(n) => NotifyInOrder(s.ev, n);
      case _ =>
    }
  }

  /** `x` keeps its listener over the whole run. */
  predicate StaysRegistered(s: State, acts: seq<Action>, x: Id)
    requires CanRun(s, acts)
    decreases acts
  {
    Listening(s.ev, x) && (acts != [] ==> StaysRegistered(Apply(s, acts[0]), acts[1..], x))
  }

  lemma {:induction false} RunKeepsOrder(s: State, acts: seq<Action>, x: Id, y: Id)
    requires CanRun(s, acts) && StaysRegistered(s, acts, x) && AheadIn(Queue(s.ev), x, y)
    ensures AheadIn(Queue(Run(s, acts).ev), x, y)
    decreases acts
  {
    if acts != [] {
      StepKeepsOrder(s, acts[0], x, y);
      RunKeepsOrder(Apply(s, acts[0]), acts[1..], x, y);
    }
  }

  /** Of two waiters the one that registered first is notified first. */
  lemma FirstInFirstOut(s: State, acts: seq<Action>, x: Id, y: Id)
    requires CanRun(s, acts) && x != y && StaysRegistered(s, acts, x) && !Listening(s.ev, y)
    ensures y in Run(s, acts).ev.notified ==> x in Run(s, acts).ev.notified
  {
    NotThereIsBehind(Queue(s.ev), x, y);
    RunKeepsOrder(s, acts, x, y);
    var e := Run(s, acts).ev;
    if y in e.notified { AheadIsNotified(e.notified, e.waiting, x, y); }
  }

  // ----- a poll that is left alone ends -----

  /** A bound on the steps that an operation can make by itself, if no compare-exchange fails spuriously,
      before it waits or is done. */
  function Rank(s: State, id: Id): nat {
    if id !in s.procs then 0
    else
      var listening, woken, free := Listening(s.ev, id), id in s.ev.notified, s.count > 0;
      match s.procs[id]
      case New => if free then 2 else 6
      case Load(future) =>
        if free then 2 else if !future then 1 else if !listening then 3 else if woken then 5 else 1
      case Cas(seen, _) => if free then (if seen == s.count then 1 else 2) else 6
      case MustListen => if free then 3 else 2
      case Wait => if !woken then 0 else if free then 3 else 4
      case Done => 0
      case Permit => 0
      case ReleaseNotify => 1
      case AddNotify(_) => 1
  }

  lemma OwnStepSettles(s: State, id: Id, gid: Id)
    requires Inv(s) && Enabled(s, Step(id, false, gid))
    ensures Rank(StepOp(s, id, false, gid), id) < Rank(s, id) <= 6
  {
  }

  /** Steps of `id` none of which fails spuriously. */
  predicate Solo(acts: seq<Action>, id: Id) {
    forall i :: 0 <= i < |acts| ==> acts[i].Step? && acts[i].id == id && !acts[i].spurious
  }

  lemma {:induction false} SoloSteps(s: State, acts: seq<Action>, id: Id)
    requires Inv(s) && CanRun(s, acts) && Solo(acts, id)
    ensures |acts| <= Rank(s, id)
    decreases acts
  {
    if acts != [] {
      assert acts[0].Step? && acts[0].id == id && !acts[0].spurious;
      OwnStepSettles(s, id, acts[0].gid);
      ApplyKeepsInv(s, acts[0]);
      SoloSteps(Apply(s, acts[0]), acts[1..], id);
    }
  }

  /** From every reachable state an operation that nobody interferes with makes at most 6 atomic steps: then
      it is done or waits for a notification. */
  lemma SoloPollEnds(n: nat, before: seq<Action>, acts: seq<Action>, id: Id)
    requires CanRun(Initial(n), before) && CanRun(Run(Initial(n), before), acts) && Solo(acts, id)
    ensures |acts| <= 6
  {
    RunKeepsInv(Initial(n), before);
    SoloSteps(Run(Initial(n), before), acts, id);
    if acts != [] {
      assert acts[0].Step? && acts[0].id == id && !acts[0].spurious;
      OwnStepSettles(Run(Initial(n), before), id, acts[0].gid);
    }
  }

  /** A poll tries the count before it waits: with a permit free it takes one, notified or not. */
  lemma FreePermitIsTaken(s: State, id: Id, gid: Id)
    requires s.count > 0 && id in s.procs && s.procs[id].Wait? && gid !in s.procs
    ensures
      var acts := [Repoll(id), Step(id, false, gid), Step(id, false, gid)];
      && CanRun(s, acts)
      && Run(s, acts).procs == s.procs[id := Done][gid := Permit] && Run(s, acts).count == s.count - 1
  {
    var step := Step(id, false, gid);
    var acts := [Repoll(id), step, step];
    var s1 := Apply(s, Repoll(id));
    var s2 := Apply(s1, step);
    assert acts[1..] == [step, step] && acts[1..][1..] == [step] && acts[1..][1..][1..] == [];
    assert CanRun(s2, [step]) && Run(s2, [step]) == Apply(s2, step);
    assert CanRun(s1, [step, step]) && Run(s1, [step, step]) == Run(s2, [step]);
    assert Apply(s2, step).procs == s.procs[id := Done][gid := Permit];
  }
}
