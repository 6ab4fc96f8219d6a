// In which order the initializers of a once cell are woken, and that a poll which is left alone ends.
module OnceCellProgress {
  import opened Counting
  import opened Events
  import opened OnceCellModel
  import opened OnceCellInvariants
  import opened OnceCellTheorems

  /** The end of a failed or cancelled initialization wakes one initializer, the first in line; the end of a
      successful one wakes all. */
  lemma EndsWake(s: State, a: Action)
    requires Enabled(s, a) && !a.TakeValue?
    ensures EffectOf(s, a).active.DoNotify? ==> TopsUp(s.active, Apply(s, a).active, 1)
    ensures EffectOf(s, a).active.DoNotifyAll? ==> Apply(s, a).active.waiting == []
    ensures EffectOf(s, a).passive.DoNotifyAll? ==> Apply(s, a).passive.waiting == []
  {
    NotifyInOrder(s.active, 1);
  }

  lemma EventKeepsOrder(e: Event, id: Id, op: EventOp, x: Id, y: Id)
    requires AheadIn(Queue(e), x, y) && Listening(e, x) && Listening(OnEvent(e, id, op), x)
    ensures AheadIn(Queue(OnEvent(e, id, op)), x, y)
  {
    match op
    case Keep =>
    case DoListen => ListenKeepsAhead(e, x, y, id);
    case DoConsume => ForgetKeepsAhead(e, x, y, id);
    case DoNotify => NotifyInOrder(e, 1);
    case DoNotifyAll => AdditionalInOrder(e, |e.waiting|);
    case DoDrop => DropKeepsAhead(e, x, y, id);
  }

  /** `x` keeps its `active_initializers` listener over the whole run. */
  predicate StaysRegistered(s: State, acts: seq<Action>, x: Id)
    requires CanRun(s, acts)
    decreases acts
  {
    Listening(s.active, x) && (acts != [] ==> StaysRegistered(Apply(s, acts[0]), acts[1..], x))
  }

  lemma {:induction false} RunKeepsOrder(s: State, acts: seq<Action>, x: Id, y: Id)
    requires CanRun(s, acts) && StaysRegistered(s, acts, x) && AheadIn(Queue(s.active), x, y)
    ensures AheadIn(Queue(Run(s, acts).active), x, y)
    decreases acts
  {
    if acts != [] {
      if !acts[0].TakeValue? {
        EventKeepsOrder(s.active, acts[0].id, EffectOf(s, acts[0]).active, x, y);
      }
      RunKeepsOrder(Apply(s, acts[0]), acts[1..], x, y);
    }
  }

  /** Of two parked initializers the one that registered first is notified first. */
  lemma FirstInFirstOut(s: State, acts: seq<Action>, x: Id, y: Id)
    requires CanRun(s, acts) && x != y && StaysRegistered(s, acts, x) && !Listening(s.active, y)
    ensures y in Run(s, acts).active.notified ==> x in Run(s, acts).active.notified
  {
    NotThereIsBehind(Queue(s.active), x, y);
    RunKeepsOrder(s, acts, x, y);
    var e := Run(s, acts).active;
    if y in e.notified { AheadIsNotified(e.notified, e.waiting, x, y); }
  }

  // ----- a poll that is left alone ends -----

  function SeekRank(f: Seek, cell: Cell, listening: bool, woken: bool): nat {
    match f
    case Get => 13
    case TryCas => 10
    case Load =>
      (match cell
       case Uninitialized => 11
       case Initialized => 3
       case Initializing => if !listening then 3 else if woken then 5 else 1)
    case Register =>
      (match cell
       case Uninitialized => 12
       case Initialized => 4
       case Initializing => 2)
    case Park =>
      if !woken then 0
      else (match cell
            case Uninitialized => 12
            case Initialized => 4
            case Initializing => 4)
    case Cas => if cell.Uninitialized? then 10 else 6
  }

  function HoldRank(h: Hold): nat {
    match h
    case Running => 9
    case WriteSlot => 8
    case Publish => 7
    case Reset => 7
  }

  function TellRank(t: Tell): nat {
    match t
    case TellActive => 4
    case TellPassive => 3
    case TellNext => 3
    case Close => 1
  }

  function AwaitRank(p: Passive, woken: bool): nat {
    match p
    case Get1 => 4
    case Subscribe => 3
    case Get2 => if woken then 3 else 2
    case Sleep => if woken then 2 else 0
    case Unsubscribe => 1
    case ReadSlot => 1
  }

  function RankOf(pc: Maybe<Pc>, cell: Cell, listening: bool, woken: bool, wokenPassive: bool): nat {
    if pc.None? then 0
    else match pc.value
      case Seeking(f, _) => SeekRank(f, cell, listening, woken)
      case Holding(h, _) => HoldRank(h)
      case Telling(t, _, _) => TellRank(t)
      case Awaiting(p) => AwaitRank(p, wokenPassive)
      case Over(_, _) => 0
      case Returned(_) => 0
  }

  /** A bound on the steps that an operation can make by itself before it waits or is done; a closure that
      runs counts as one step. */
  function Rank(s: State, id: Id): nat {
    RankOf(At(s.procs, id), s.cell, Listening(s.active, id), id in s.active.notified, id in s.passive.notified)
  }

  predicate WokenAfter(e: Event, id: Id, op: EventOp) {
    && !op.DoConsume? && !op.DoDrop?
    && (id in e.notified || (op.DoNotifyAll? && id in e.waiting))
  }

  /** An operation notifies itself only at its end, and listens only when it has no listener. */
  predicate Selfless(s: State, id: Id, e: Effect) {
    && (e.active.DoNotify? ==> e.to.Some? && (e.to.value.Over? || e.to.value.Telling?))
    && (e.active.DoNotifyAll? ==> e.to.Some? && e.to.value.Telling?)
    && (e.passive.DoNotifyAll? ==> e.to.Some? && (e.to.value.Over? || e.to.value.Telling?))
    && !e.passive.DoNotify?
    && (e.active.DoListen? ==> !Listening(s.active, id))
    && (e.passive.DoListen? ==> !Listening(s.passive, id))
  }

  predicate Settles(s: State, id: Id, e: Effect) {
    && Selfless(s, id, e)
    && RankOf(e.to, e.cell, ListensAfter(s.active, id, e.active), WokenAfter(s.active, id, e.active),
              WokenAfter(s.passive, id, e.passive)) < Rank(s, id)
  }

  lemma SeekSettles(s: State, id: Id, f: Seek, j: Job)
    requires At(s.procs, id) == Some(Seeking(f, j)) && Trusts(s, id) && (f.Park? ==> id in s.active.notified)
    ensures Settles(s, id, SeekEffect(s, id, f, j))
  {
  }

  lemma StepSettles(s: State, id: Id, fails: bool)
    requires Runnable(s, id) && Trusts(s, id)
    ensures Settles(s, id, StepEffect(s, id, s.procs[id], fails))
  {
    if s.procs[id].Seeking? { SeekSettles(s, id, s.procs[id].f, s.procs[id].j); }
  }

  /** Every step that an operation makes by itself lowers its rank. */
  lemma OwnStepSettles(s: State, id: Id, fails: bool)
    requires Inv(s) && Runnable(s, id)
    ensures Rank(Apply(s, Step(id, fails)), id) < Rank(s, id)
  {
    assert Placed(s, id);
    StepSettles(s, id, fails);
    var e := StepEffect(s, id, s.procs[id], fails);
    EventFollows(s.active, id, e.active);
    EventFollows(s.passive, id, e.passive);
    assert At(Apply(s, Step(id, fails)).procs, id) == e.to;
  }

  lemma EventFollows(e: Event, id: Id, op: EventOp)
    requires op.DoListen? ==> !Listening(e, id)
    ensures Listening(OnEvent(e, id, op), id) <==> ListensAfter(e, id, op)
    ensures !op.DoNotify? ==> (id in OnEvent(e, id, op).notified <==> WokenAfter(e, id, op))
  {
  }

  lemma {:induction false} SoloSteps(s: State, acts: seq<Action>, id: Id)
    requires Inv(s) && CanRun(s, acts) && forall i :: 0 <= i < |acts| ==> acts[i].Step? && acts[i].id == id
    ensures |acts| <= Rank(s, id)
    decreases acts
  {
    if acts != [] {
      assert acts[0].Step? && acts[0].id == id;
      OwnStepSettles(s, id, acts[0].fails);
      ApplyKeepsInv(s, acts[0]);
      SoloSteps(Apply(s, acts[0]), acts[1..], id);
    }
  }

  /** From every reachable state an operation that nobody interferes with makes at most 13 atomic steps,
      its closure apart: then it has returned or waits for a notification. */
  lemma SoloPollEnds(before: seq<Action>, acts: seq<Action>, id: Id)
    requires CanRun(INITIAL, before) && CanRun(Run(INITIAL, before), acts)
    requires forall i :: 0 <= i < |acts| ==> acts[i].Step? && acts[i].id == id
    ensures |acts| <= 13
  {
    InitialInv();
    RunKeepsInv(INITIAL, before);
    SoloSteps(Run(INITIAL, before), acts, id);
  }
}
