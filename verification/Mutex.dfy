// The mutex as a machine of atomic steps: one atomic operation, one `listen`, one `notify` or
// one listener poll per step, taken by the lock futures in any order.
module MutexModel {
  import opened Counting
  import opened Events

  // `usize::MAX / 2` on a 64-bit target: the largest word that `fetch_add(2)` may start from.
  const HALF_MAX := 0x7FFF_FFFF_FFFF_FFFF

  /** Where a lock future stands; each name is the atomic operation it performs next. */
  datatype Pc =
    | Start         // created, not polled: the fast path `try_lock`
    | HotListen     // hot loop, no listener: `listen`
    | HotCas        // just registered: compare-exchange 0 -> 1
    | HotWait       // polls its listener
    | HotRetry      // consumed a notification: compare-exchange 0 -> 1
    | HotRenotify   // saw a starved operation: hands the notification back
    | Starving      // left the hot loop: `fetch_add(2)`
    | FairListen    // fair loop, no listener: `listen`
    | FairCas       // just registered: compare-exchange 2 -> 3
    | FairRenotify  // saw an unlocked word with others starved: notifies the first in line
    | FairWait      // polls its listener
    | FairOr        // consumed a notification: `fetch_or(1)`
    | Take          // won in the fair loop: `take_mutex` gives its 2 back
    | Done          // completed, future not dropped yet
    | Closing       // dropped while starved: gave its 2 back, listener still registered

  /** The futures whose `starved` flag is set and whose 2 is in the word. */
  predicate Counted(pc: Pc) {
    (pc.FairListen? || pc.FairCas? || pc.FairRenotify? || pc.FairWait? || pc.FairOr? || pc.Take?)
  }

  /** `guards` counts live guards; `releasing` are the unlocks between `fetch_sub` and `notify`. */
  datatype State = State(word: int, ev: Event, ops: map<Id, Pc>, guards: nat, releasing: set<Id>, aborted: bool)
  {
    function Goto(id: Id, pc: Pc): State {
      this.(ops := ops[id := pc])
    }
  }

  const INITIAL := State(0, NO_LISTENERS, map[], 0, {}, false)

  datatype Action =
    | Spawn(id: Id)
    | Step(id: Id, late: bool)  // `late`: the 500 microsecond test of the hot loop says break
    | DropFuture(id: Id)
    | TryLock
    | Unlock(who: Id)
    | UnlockNotify(who: Id)

  predicate CanStep(s: State, id: Id) {
    && !s.aborted
    && id in s.ops
    && s.ops[id] != Done
    && ((s.ops[id].HotWait? || s.ops[id].FairWait?) ==> id in s.ev.notified)
  }

  /** A future can be dropped where it is suspended: unpolled, parked or completed. */
  predicate CanDrop(s: State, id: Id) {
    !s.aborted && id in s.ops && (s.ops[id].Start? || s.ops[id].HotWait? || s.ops[id].FairWait? || s.ops[id].Done?)
  }

  predicate HotPc(pc: Pc) {
    pc.Start? || pc.HotListen? || pc.HotCas? || pc.HotWait? || pc.HotRetry? || pc.HotRenotify? || pc.Starving?
  }

  function HotStep(s: State, id: Id, late: bool): State
    requires CanStep(s, id) && HotPc(s.ops[id])
  {
    match s.ops[id]
    case Start =>
      if s.word == 0 then s.Goto(id, Done).(word := 1, guards := s.guards + 1)
      else s.Goto(id, HotListen)
    case HotListen => s.Goto(id, HotCas).(ev := Listen(s.ev, id))
    case HotCas =>
      if s.word == 0 then s.Goto(id, Done).(word := 1, guards := s.guards + 1)
      else if s.word == 1 then s.Goto(id, HotWait)
      else s.Goto(id, Starving)
    case HotWait => s.Goto(id, HotRetry).(ev := Consume(s.ev, id))
    case HotRetry =>
      if s.word == 0 then s.Goto(id, Done).(word := 1, guards := s.guards + 1)
      else if s.word == 1 then s.Goto(id, if late then Starving else HotListen)
      else s.Goto(id, HotRenotify)
    case HotRenotify => s.Goto(id, Starving).(ev := Notify(s.ev, 1))
    case Starving =>
      if s.word > HALF_MAX then s.(aborted := true)
      else s.Goto(id, if Listening(s.ev, id) then FairWait else FairListen).(word := s.word + 2)
  }

  function FairStep(s: State, id: Id): State
    requires CanStep(s, id) && !HotPc(s.ops[id])
  {
    match s.ops[id]
    case FairListen => s.Goto(id, FairCas).(ev := Listen(s.ev, id))
    case FairCas =>
      if s.word == 2 then s.Goto(id, Take).(word := 3)
      else if s.word % 2 == 1 then s.Goto(id, FairWait)
      else s.Goto(id, FairRenotify)
    case FairRenotify => s.Goto(id, FairWait).(ev := Notify(s.ev, 1))
    case FairWait => s.Goto(id, FairOr).(ev := Consume(s.ev, id))
    case FairOr =>
      if s.word % 2 == 0 then s.Goto(id, Take).(word := s.word + 1)
      else s.Goto(id, FairListen)
    case Take => s.Goto(id, Done).(word := s.word - 2, guards := s.guards + 1)
    case Closing => s.(ev := DropListener(s.ev, id), ops := s.ops - {id})
  }

  function StepOp(s: State, id: Id, late: bool): State
    requires CanStep(s, id)
  {
    if HotPc(s.ops[id]) then HotStep(s, id, late) else FairStep(s, id)
  }

  /** Dropping a starved future first gives back its 2; the listener goes in a second step. */
  function DropOp(s: State, id: Id): State
    requires CanDrop(s, id)
  {
    if s.ops[id] == FairWait then s.Goto(id, Closing).(word := s.word - 2)
    else s.(ev := DropListener(s.ev, id), ops := s.ops - {id})
  }

  predicate Enabled(s: State, a: Action) {
    && !s.aborted
    && match a
       case Spawn(id) => id !in s.ops
       case Step(id, _) => CanStep(s, id)
       case DropFuture(id) => CanDrop(s, id)
       case TryLock => true
       case Unlock(who) => s.guards > 0 && who !in s.releasing
       case UnlockNotify(who) => who in s.releasing
  }

  function Apply(s: State, a: Action): State
    requires Enabled(s, a)
  {
    match a
    case Spawn(id) => s.Goto(id, Start)
    case Step(id, late) => StepOp(s, id, late)
    case DropFuture(id) => DropOp(s, id)
    case TryLock => if s.word == 0 then s.(word := 1, guards := s.guards + 1) else s
    case Unlock(who) => s.(word := s.word - 1, guards := s.guards - 1, releasing := s.releasing + {who})
    case UnlockNotify(who) => s.(ev := Notify(s.ev, 1), releasing := s.releasing - {who})
  }

  // ----- invariants -----

  function Starved(ops: map<Id, Pc>): set<Id> { Those(ops, Counted) }
  function Taking(ops: map<Id, Pc>): set<Id> { Those(ops, AtTake) }

  predicate AtTake(pc: Pc) { pc.Take? }

  /** The word is twice the counted futures plus one for the single holder. */
  ghost predicate Accounts(s: State) {
    && s.word == 2 * |Starved(s.ops)| + s.guards + |Taking(s.ops)|
    && s.guards + |Taking(s.ops)| <= 1
    && 2 * |Starved(s.ops)| <= HALF_MAX + 1
  }

  /** Futures that have a listener, and futures that have none; a few may or may not have one. */
  predicate Registered(pc: Pc) {
    pc.HotCas? || pc.HotWait? || pc.FairCas? || pc.FairRenotify? || pc.FairWait? || pc.Closing?
  }

  predicate Unregistered(pc: Pc) {
    pc.Start? || pc.HotListen? || pc.HotRetry? || pc.HotRenotify? || pc.FairListen? || pc.FairOr?
  }

  /** Who has a listener in the queue. */
  ghost predicate Listeners(s: State) {
    && (forall id :: Listening(s.ev, id) ==> id in s.ops)
    && (forall id :: id in s.ops && Registered(s.ops[id]) ==> Listening(s.ev, id))
    && (forall id :: id in s.ops && Unregistered(s.ops[id]) ==> !Listening(s.ev, id))
  }

  /** Futures that will look at the word, or notify, before they next suspend. */
  predicate Busy(pc: Pc) {
    (pc.HotRetry? || pc.HotRenotify? || pc.FairListen? || pc.FairCas? || pc.FairRenotify? || pc.FairOr?)
  }

  /** A wake-up is on its way. */
  ghost predicate InTransit(s: State) {
    || s.ev.notified != []
    || s.releasing != {}
    || exists id :: id in s.ops && Busy(s.ops[id])
  }

  /** Futures that will next suspend, or are suspended, on a listener that was not notified. */
  ghost predicate Unwoken(s: State, id: Id) {
    id in s.ops && (s.ops[id].HotWait? || s.ops[id].FairWait? || s.ops[id].Starving?) && id in s.ev.waiting
  }

  ghost predicate NoLostWakeup(s: State) {
    s.word % 2 == 0 && (Starved(s.ops) != {} || exists id :: Unwoken(s, id)) ==> InTransit(s)
  }

  ghost predicate Inv(s: State) {
    Accounts(s) && Listeners(s) && NoLostWakeup(s)
  }

  lemma GotoKeepsAccounts(s: State, id: Id, pc: Pc, t: State)
    requires Accounts(s) && id in s.ops && t.ops == s.ops[id := pc]
    requires t.word - s.word == 2 * (One(Counted(pc)) - One(Counted(s.ops[id])))
                                + t.guards - s.guards + One(pc.Take?) - One(s.ops[id].Take?)
    requires t.guards - s.guards + One(pc.Take?) - One(s.ops[id].Take?) <= if s.word % 2 == 0 then 1 else 0
    requires Counted(pc) && !Counted(s.ops[id]) ==> s.word <= HALF_MAX
    ensures Accounts(t)
  {
    Recount(s.ops, id, pc, Counted);
    Recount(s.ops, id, pc, AtTake);
  }

  lemma GoneKeepsAccounts(s: State, id: Id, t: State)
    requires Accounts(s) && t.ops == s.ops - {id} && t.word == s.word && t.guards == s.guards
    requires id in s.ops ==> !Counted(s.ops[id])
    ensures Accounts(t)
  {
    RecountGone(s.ops, id, Counted);
    RecountGone(s.ops, id, AtTake);
  }

  lemma HotKeepsAccounts(s: State, id: Id, late: bool)
    requires Accounts(s) && CanStep(s, id) && HotPc(s.ops[id])
    ensures Accounts(HotStep(s, id, late))
  {
    var s' := HotStep(s, id, late);
    GotoKeepsAccounts(s, id, s'.ops[id], s');
  }

  lemma FairKeepsAccounts(s: State, id: Id)
    requires Accounts(s) && CanStep(s, id) && !HotPc(s.ops[id])
    ensures Accounts(FairStep(s, id))
  {
    var s' := FairStep(s, id);
    if s.ops[id].Closing? {
      GoneKeepsAccounts(s, id, s');
    } else {
      GotoKeepsAccounts(s, id, s'.ops[id], s');
    }
  }

  lemma HotKeepsListeners(s: State, id: Id, late: bool)
    requires Listeners(s) && CanStep(s, id) && HotPc(s.ops[id])
    ensures Listeners(HotStep(s, id, late))
  {
    if s.ops[id].HotListen? || s.ops[id].HotWait? || s.ops[id].HotRenotify? {
      HotEventKeepsListeners(s, id, late);
    } else {
      HotWordKeepsListeners(s, id, late);
    }
  }

  lemma HotEventKeepsListeners(s: State, id: Id, late: bool)
    requires Listeners(s) && CanStep(s, id) && (s.ops[id].HotListen? || s.ops[id].HotWait? || s.ops[id].HotRenotify?)
    ensures Listeners(HotStep(s, id, late))
  {
  }

  lemma HotWordKeepsListeners(s: State, id: Id, late: bool)
    requires Listeners(s) && CanStep(s, id)
             && (s.ops[id].Start? || s.ops[id].HotCas? || s.ops[id].HotRetry? || s.ops[id].Starving?)
    ensures Listeners(HotStep(s, id, late))
  {
  }

  lemma FairKeepsListeners(s: State, id: Id)
    requires Listeners(s) && CanStep(s, id) && !HotPc(s.ops[id])
    ensures Listeners(FairStep(s, id))
  {
    if s.ops[id].FairCas? || s.ops[id].FairOr? || s.ops[id].Take? {
      FairWordKeepsListeners(s, id);
    } else {
      FairEventKeepsListeners(s, id);
    }
  }

  lemma FairWordKeepsListeners(s: State, id: Id)
    requires Listeners(s) && CanStep(s, id) && (s.ops[id].FairCas? || s.ops[id].FairOr? || s.ops[id].Take?)
    ensures Listeners(FairStep(s, id))
  {
  }

  lemma FairEventKeepsListeners(s: State, id: Id)
    requires Listeners(s) && CanStep(s, id)
    requires s.ops[id].FairListen? || s.ops[id].FairRenotify? || s.ops[id].FairWait? || s.ops[id].Closing?
    ensures Listeners(FairStep(s, id))
  {
  }

  /** With an even word and no notification out, a counted future is busy or itself unwoken. */
  lemma CountedIsBusyOrUnwoken(s: State)
    requires Accounts(s) && Listeners(s)
    requires s.word % 2 == 0 && s.ev.notified == []
    ensures Starved(s.ops) != {} ==> InTransit(s) || exists id :: Unwoken(s, id)
  {
    if x :| x in Starved(s.ops) {
      assert Taking(s.ops) == {} && x !in Taking(s.ops);
      assert Busy(s.ops[x]) || Unwoken(s, x);
    }
  }

  lemma HotUnwoken(s: State, id: Id, late: bool, x: Id)
    requires Inv(s) && CanStep(s, id) && HotPc(s.ops[id])
    requires var t := HotStep(s, id, late); t.word % 2 == 0 && t.ev.notified == [] && Unwoken(t, x)
    ensures InTransit(HotStep(s, id, late))
  {
    // Someone was on the way before this step: either `x` was waiting then, or `id` itself just
    // saw an even word of 2 or more, which means that somebody is counted.
    var t := HotStep(s, id, late);
    assert Unwoken(s, x) || Starved(s.ops) != {};
    if s.ev.notified != [] {
      assert s.ev.notified[0] in s.ev.notified;
      assert Busy(t.ops[id]);
    } else if s.releasing == {} {
      var w :| w in s.ops && Busy(s.ops[w]);
      assert w in t.ops && Busy(t.ops[w]);
    }
  }

  lemma FairUnwoken(s: State, id: Id, x: Id)
    requires Inv(s) && CanStep(s, id) && !HotPc(s.ops[id])
    requires var t := FairStep(s, id); t.word % 2 == 0 && t.ev.notified == [] && Unwoken(t, x)
    ensures InTransit(FairStep(s, id))
  {
    var t := FairStep(s, id);
    assert Unwoken(s, x);
    if s.ev.notified != [] {
      assert s.ev.notified[0] in s.ev.notified;
      assert Busy(t.ops[id]);
    } else if s.releasing == {} {
      var w :| w in s.ops && Busy(s.ops[w]);
      assert w in t.ops && Busy(t.ops[w]);
    }
  }

  lemma StepKeepsInv(s: State, id: Id, late: bool)
    requires Inv(s) && CanStep(s, id)
    ensures Inv(StepOp(s, id, late))
  {
    var t := StepOp(s, id, late);
    if HotPc(s.ops[id]) {
      HotKeepsAccounts(s, id, late);
      HotKeepsListeners(s, id, late);
    } else {
      FairKeepsAccounts(s, id);
      FairKeepsListeners(s, id);
    }
    if t.word % 2 == 0 && t.ev.notified == [] {
      CountedIsBusyOrUnwoken(t);
      if x :| Unwoken(t, x) {
        if HotPc(s.ops[id]) { HotUnwoken(s, id, late, x); } else { FairUnwoken(s, id, x); }
      }
    }
  }

  /** An action that only grows the queue's notified part, or takes someone out of the word, is safe
      as soon as whatever was on its way still is. */
  lemma QuietKeepsWakeups(s: State, t: State)
    requires Inv(s) && Accounts(t) && Listeners(t)
    requires forall x :: Unwoken(t, x) ==> Unwoken(s, x)
    requires s.word % 2 == 0
    requires forall x :: x in s.ops && Busy(s.ops[x]) ==> x in t.ops && Busy(t.ops[x])
    requires t.ev.notified == [] && t.releasing == {} ==>
        t.ev.waiting == [] || (s.ev.notified == [] && s.releasing == {})
    ensures NoLostWakeup(t)
  {
    if t.word % 2 == 0 && t.ev.notified == [] {
      CountedIsBusyOrUnwoken(t);
      if x :| Unwoken(t, x) {
        assert Unwoken(s, x);
        if w :| w in s.ops && Busy(s.ops[w]) {
          assert w in t.ops && Busy(t.ops[w]);
        }
      }
    }
  }

  /** A starved future gives its count back and keeps its listener for one step more. */
  lemma DropStarvedKeepsInv(s: State, id: Id)
    requires Inv(s) && CanDrop(s, id) && s.ops[id].FairWait?
    ensures Inv(DropOp(s, id))
  {
    var t := DropOp(s, id);
    GotoKeepsAccounts(s, id, Closing, t);
    if s.word % 2 == 0 { QuietKeepsWakeups(s, t); }
  }

  /** Any other future only drops its listener. */
  lemma DropListenerKeepsInv(s: State, id: Id)
    requires Inv(s) && CanDrop(s, id) && !s.ops[id].FairWait?
    ensures Inv(DropOp(s, id))
  {
    var t := DropOp(s, id);
    GoneKeepsAccounts(s, id, t);
    if s.word % 2 == 0 { QuietKeepsWakeups(s, t); }
  }

  lemma DropKeepsInv(s: State, id: Id)
    requires Inv(s) && CanDrop(s, id)
    ensures Inv(DropOp(s, id))
  {
    if s.ops[id].FairWait? { DropStarvedKeepsInv(s, id); } else { DropListenerKeepsInv(s, id); }
  }

  lemma SpawnKeepsInv(s: State, id: Id)
    requires Inv(s) && id !in s.ops
    ensures Inv(s.Goto(id, Start))
  {
    Recount(s.ops, id, Start, Counted);
    Recount(s.ops, id, Start, AtTake);
    if s.word % 2 == 0 {
      QuietKeepsWakeups(s, s.Goto(id, Start));
    }
  }

  lemma GuardActionsKeepInv(s: State, a: Action)
    requires Inv(s) && Enabled(s, a) && (a.TryLock? || a.Unlock? || a.UnlockNotify?)
    ensures Inv(Apply(s, a))
  {
    if !a.Unlock? && s.word % 2 == 0 {
      QuietKeepsWakeups(s, Apply(s, a));
    }
  }

  lemma ApplyKeepsInv(s: State, a: Action)
    requires Inv(s) && Enabled(s, a)
    ensures Inv(Apply(s, a))
  {
    match a
    case Spawn(id) => SpawnKeepsInv(s, id);
    case Step(id, late) => StepKeepsInv(s, id, late);
    case DropFuture(id) => DropKeepsInv(s, id);
    case _ => GuardActionsKeepInv(s, a);
  }

  // ----- what an action looks like from outside -----

  datatype Phase = Absent | Acquiring | Acquired | Leaving

  function PhaseOf(ops: map<Id, Pc>, id: Id): Phase {
    if id !in ops then Absent
    else if ops[id].Done? then Acquired
    else if ops[id].Closing? then Leaving
    else Acquiring
  }

  /** Whether the next step of `id` completes the future. */
  predicate Completes(s: State, id: Id) {
    && id in s.ops
    && ((s.ops[id].Start? && s.word == 0) || (s.ops[id].HotCas? && s.word == 0)
        || (s.ops[id].HotRetry? && s.word == 0) || s.ops[id].Take?)
  }

  /** How many guards an action hands out or takes back. */
  function Gain(s: State, a: Action): int {
    match a
    case Step(id, _) => One(Completes(s, id))
    case TryLock => One(s.word == 0)
    case Unlock(_) => -1
    case _ => 0
  }

  function PhaseAfter(s: State, a: Action, id: Id): Phase {
    var now := PhaseOf(s.ops, id);
    match a
    case Spawn(x) => if x == id then Acquiring else now
    case Step(x, _) =>
      if x != id then now
      else if now.Leaving? then Absent
      else if Completes(s, id) then Acquired
      else now
    case DropFuture(x) =>
      if x != id then now
      else if id in s.ops && s.ops[id].FairWait? then Leaving
      else Absent
    case _ => now
  }

  function ReleasingAfter(s: State, a: Action): set<Id> {
    match a
    case Unlock(who) => s.releasing + {who}
    case UnlockNotify(who) => s.releasing - {who}
    case _ => s.releasing
  }

  lemma HotShape(s: State, id: Id, late: bool)
    requires CanStep(s, id) && HotPc(s.ops[id])
    ensures
      var t := HotStep(s, id, late);
      && t.releasing == s.releasing
      && t.guards == s.guards + One(Completes(s, id))
      && id in t.ops && !t.ops[id].Closing? && t.ops == s.ops[id := t.ops[id]]
      && (t.ops[id].Done? <==> Completes(s, id))
  {
  }

  lemma FairShape(s: State, id: Id)
    requires CanStep(s, id) && !HotPc(s.ops[id])
    ensures
      var t := FairStep(s, id);
      && t.releasing == s.releasing
      && t.guards == s.guards + One(Completes(s, id))
      && (s.ops[id].Closing? ==> t.ops == s.ops - {id})
      && (!s.ops[id].Closing? ==>
            && id in t.ops && !t.ops[id].Closing? && t.ops == s.ops[id := t.ops[id]]
            && (t.ops[id].Done? <==> Completes(s, id)))
  {
  }

  /** Whoever uses the mutex needs to know no more than this about an action. */
  lemma Shape(s: State, a: Action)
    requires Enabled(s, a)
    ensures Apply(s, a).guards == s.guards + Gain(s, a)
    ensures Apply(s, a).releasing == ReleasingAfter(s, a)
    ensures forall id :: PhaseOf(Apply(s, a).ops, id) == PhaseAfter(s, a, id)
  {
    if a.Step? {
      if HotPc(s.ops[a.id]) { HotShape(s, a.id, a.late); } else { FairShape(s, a.id); }
    }
  }

  // ----- runs -----

  predicate CanRun(s: State, acts: seq<Action>)
    decreases acts
  {
    acts == [] || (Enabled(s, acts[0]) && CanRun(Apply(s, acts[0]), acts[1..]))
  }

  function Run(s: State, acts: seq<Action>): State
    requires CanRun(s, acts)
    decreases acts
  {
    if acts == [] then s else Run(Apply(s, acts[0]), acts[1..])
  }

  lemma {:induction false} RunKeepsInv(s: State, acts: seq<Action>)
    requires Inv(s) && CanRun(s, acts)
    ensures Inv(Run(s, acts))
    decreases acts
  {
    if acts != [] {
      ApplyKeepsInv(s, acts[0]);
      RunKeepsInv(Apply(s, acts[0]), acts[1..]);
    }
  }

  // ----- what the invariants mean -----

  /** Word accounting and mutual exclusion, after every run and however futures are cancelled. */
  lemma MutualExclusion(acts: seq<Action>)
    requires CanRun(INITIAL, acts)
    ensures
      var s := Run(INITIAL, acts);
      && s.word == 2 * |Starved(s.ops)| + s.guards + |Taking(s.ops)|
      && s.guards + |Taking(s.ops)| <= 1
      && 0 <= s.word <= 0x8000_0000_0000_0001
  {
    RunKeepsInv(INITIAL, acts);
  }

  /** In every reachable state: with the word even and somebody counted or parked unwoken, a wake-up is
      on its way. */
  lemma WakeupsUnderWay(acts: seq<Action>)
    requires CanRun(INITIAL, acts)
    ensures
      var s := Run(INITIAL, acts);
      s.word % 2 == 0 && (Starved(s.ops) != {} || exists id :: Unwoken(s, id)) ==> InTransit(s)
  {
    RunKeepsInv(INITIAL, acts);
  }

  /** No future can make a step, nothing is half-released, no guard is live, and every completed
      future was dropped. */
  ghost predicate Quiescent(s: State) {
    && !s.aborted
    && s.guards == 0
    && s.releasing == {}
    && forall id :: id in s.ops ==> s.ops[id] != Done && !CanStep(s, id)
  }

  /** A state where nothing moves any more has no lock future left: nobody sleeps forever. */
  lemma NothingStranded(s: State)
    requires Inv(s) && Quiescent(s)
    ensures s.ops == map[]
  {
    assert s.ev.notified != [] ==> s.ev.notified[0] in s.ev.notified;
    forall x ensures x !in s.ev.notified && x !in Taking(s.ops) && (x in s.ops ==> !Busy(s.ops[x])) {
      assert x in s.ops ==> !CanStep(s, x);
      assert Listening(s.ev, x) ==> x in s.ops;
    }
    assert Taking(s.ops) == {} && !InTransit(s);
    forall id ensures id !in s.ops {
      assert id in s.ops ==> !CanStep(s, id);
      assert !Unwoken(s, id);
    }
  }

  lemma DeadlockFreedom(acts: seq<Action>)
    requires CanRun(INITIAL, acts) && Quiescent(Run(INITIAL, acts))
    ensures Run(INITIAL, acts).ops == map[]
  {
    RunKeepsInv(INITIAL, acts);
    NothingStranded(Run(INITIAL, acts));
  }

  /** The ways in which an unlocked word becomes locked. */
  lemma Acquisitions(s: State, a: Action)
    requires Enabled(s, a) && s.word % 2 == 0 && Apply(s, a).word % 2 == 1 && !a.Unlock?
    ensures || (a.TryLock? && s.word == 0)
            || (a.Step? && HotPc(s.ops[a.id]) && s.word == 0)
            || (a.Step? && s.ops[a.id].FairCas? && s.word == 2)
            || (a.Step? && s.ops[a.id].FairOr?)
  {
  }

  /** While a starved operation is counted only counted operations acquire, and the compare-exchange
      that no notification asked for wins only when it is the sole one. */
  lemma Fairness(s: State, a: Action)
    requires Inv(s) && Enabled(s, a)
    requires Starved(s.ops) != {} && s.word % 2 == 0 && Apply(s, a).word % 2 == 1
    ensures a.Step? && a.id in Starved(s.ops)
    ensures s.ops[a.id].FairOr? || (s.ops[a.id].FairCas? && Starved(s.ops) == {a.id})
  {
    Acquisitions(s, a);
    if s.ops[a.id].FairCas? {
      assert |Starved(s.ops) - {a.id}| == 0;
    }
  }

  // ----- the abort -----

  /** The word passes `usize::MAX / 2` at some moment of the run. */
  ghost predicate Overflows(s: State, acts: seq<Action>)
    requires CanRun(s, acts)
    decreases acts
  {
    s.word > 0x7FFF_FFFF_FFFF_FFFF || (acts != [] && Overflows(Apply(s, acts[0]), acts[1..]))
  }

  lemma AbortIff(s: State, a: Action)
    requires Enabled(s, a)
    ensures Apply(s, a).aborted <==> a.Step? && s.ops[a.id].Starving? && s.word > 0x7FFF_FFFF_FFFF_FFFF
  {
  }

  /** The process ends only in a run that drives the word over its bound. */
  lemma {:induction false} AbortsOnlyOnOverflow(s: State, acts: seq<Action>)
    requires CanRun(s, acts) && !s.aborted && Run(s, acts).aborted
    ensures Overflows(s, acts)
    decreases acts
  {
    if s.word <= 0x7FFF_FFFF_FFFF_FFFF {
      AbortIff(s, acts[0]);
      AbortsOnlyOnOverflow(Apply(s, acts[0]), acts[1..]);
    }
  }

  // ----- first in, first out -----

  lemma StepKeepsOrder(s: State, a: Action, x: Id, y: Id)
    requires Enabled(s, a) && AheadIn(Queue(s.ev), x, y)
    requires Listening(s.ev, x) && Listening(Apply(s, a).ev, x)
    ensures AheadIn(Queue(Apply(s, a).ev), x, y)
  {
    match a
    case Step(id, _) =>
      if s.ops[id].HotListen? || s.ops[id].FairListen? {
        ListenKeepsAhead(s.ev, x, y, id);
      } else if s.ops[id].HotWait? || s.ops[id].FairWait? {
        ForgetKeepsAhead(s.ev, x, y, id);
      } else if s.ops[id].Closing? {
        DropKeepsAhead(s.ev, x, y, id);
      } else {
        NotifyInOrder(s.ev, 1);
      }
    case DropFuture(id) => if !s.ops[id].FairWait? { DropKeepsAhead(s.ev, x, y, id); }
    case _ => NotifyInOrder(s.ev, 1);
  }

  /** `x` keeps its listener over the whole run. */
  predicate StaysRegistered(s: State, acts: seq<Action>, x: Id)
    requires CanRun(s, acts)
    decreases acts
  {
    Listening(s.ev, x) && (acts != [] ==> StaysRegistered(Apply(s, acts[0]), acts[1..], x))
  }

  lemma {:induction false} RunKeepsOrder(s: State, acts: seq<Action>, x: Id, y: Id)
    requires CanRun(s, acts) && StaysRegistered(s, acts, x) && AheadIn(Queue(s.ev), x, y)
    ensures AheadIn(Queue(Run(s, acts).ev), x, y)
    decreases acts
  {
    if acts != [] {
      StepKeepsOrder(s, acts[0], x, y);
      RunKeepsOrder(Apply(s, acts[0]), acts[1..], x, y);
    }
  }

  /** Of two listeners the one that registered first is notified first: from any state in which `x` has a
      listener and `y` has none yet, as long as `x` keeps its own, `y` is not notified before `x` is. */
  lemma FirstInFirstOut(s: State, acts: seq<Action>, x: Id, y: Id)
    requires CanRun(s, acts) && x != y && StaysRegistered(s, acts, x) && !Listening(s.ev, y)
    ensures y in Run(s, acts).ev.notified ==> x in Run(s, acts).ev.notified
  {
    NotThereIsBehind(Queue(s.ev), x, y);
    RunKeepsOrder(s, acts, x, y);
    var e := Run(s, acts).ev;
    if y in e.notified { AheadIsNotified(e.notified, e.waiting, x, y); }
  }

  /** An unlock tops the notified listeners up to one: the first in line, and nobody when one is notified
      already. */
  lemma UnlockWakesOne(s: State, a: Action)
    requires Enabled(s, a) && a.UnlockNotify?
    ensures TopsUp(s.ev, Apply(s, a).ev, 1)
  {
    NotifyInOrder(s.ev, 1);
  }

  // ----- a poll that is left alone ends -----

  /** A bound on the steps that a future can make by itself before it has to wait or is done. */
  function Rank(s: State, id: Id): nat {
    if id !in s.ops then 0
    else
      var woken, free := id in s.ev.notified, s.word % 2 == 0;
      match s.ops[id]
      case Start => 16
      case HotListen => 12
      case HotCas => if woken then 15 else 11
      case HotWait => if woken then 14 else 0
      case HotRetry => 13
      case HotRenotify => 10
      case Starving => 9
      case FairListen => if free then 7 else 4
      case FairCas => if free then 6 else if woken then 7 else 3
      case FairRenotify => if free then 5 else 8
      case FairWait => if !woken then 0 else if free then 4 else 6
      case FairOr => if free then 3 else 5
      case Take => 2
      case Done => 0
      case Closing => 1
  }

  lemma HotStepSettles(s: State, id: Id, late: bool)
    requires Listeners(s) && CanStep(s, id) && HotPc(s.ops[id])
    ensures var t := HotStep(s, id, late); t.aborted || Rank(t, id) < Rank(s, id)
  {
  }

  lemma FairStepSettles(s: State, id: Id)
    requires Listeners(s) && CanStep(s, id) && !HotPc(s.ops[id])
    ensures Rank(FairStep(s, id), id) < Rank(s, id)
  {
  }

  lemma OwnStepSettles(s: State, id: Id, late: bool)
    requires Listeners(s) && CanStep(s, id)
    ensures var t := StepOp(s, id, late); t.aborted || Rank(t, id) < Rank(s, id)
  {
    if HotPc(s.ops[id]) { HotStepSettles(s, id, late); } else { FairStepSettles(s, id); }
  }

  lemma {:induction false} SoloSteps(s: State, acts: seq<Action>, id: Id)
    requires Inv(s) && CanRun(s, acts) && forall i :: 0 <= i < |acts| ==> acts[i].Step? && acts[i].id == id
    ensures |acts| <= Rank(s, id)
    decreases acts
  {
    if acts != [] {
      var t := Apply(s, acts[0]);
      assert acts[0].Step? && acts[0].id == id;
      OwnStepSettles(s, id, acts[0].late);
      ApplyKeepsInv(s, acts[0]);
      SoloSteps(t, acts[1..], id);
      assert CanRun(t, acts[1..]) && t.aborted ==> acts[1..] == [];
    }
  }

  /** From every reachable state a future that nobody interferes with makes at most 16 atomic steps: then
      it has acquired the mutex, waits for a notification, or the process ended. */
  lemma SoloPollEnds(before: seq<Action>, acts: seq<Action>, id: Id)
    requires CanRun(INITIAL, before) && CanRun(Run(INITIAL, before), acts)
    requires forall i :: 0 <= i < |acts| ==> acts[i].Step? && acts[i].id == id
    ensures |acts| <= 16
  {
    RunKeepsInv(INITIAL, before);
    SoloSteps(Run(INITIAL, before), acts, id);
  }

  /** And unless it has just given up the hot loop, it never goes to wait on a mutex that is free with
      nobody starved. */
  lemma FreeMutexIsTaken(s: State, id: Id, late: bool)
    requires Inv(s) && CanStep(s, id) && s.word == 0 && !s.ops[id].Starving?
    ensures var t := StepOp(s, id, late); id in t.ops ==> !t.ops[id].HotWait? && !t.ops[id].FairWait?
  {
    assert Counted(s.ops[id]) ==> id in Starved(s.ops);
  }
}
