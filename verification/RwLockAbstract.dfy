// The raw reader-writer lock refines an abstract lock that only knows who reads, who has reserved
// the right to write and who writes.
module AbstractLock {
  type Id = nat

  datatype Lock = Lock(readers: set<Id>, reserved: set<Id>, writers: set<Id>, value: int)

  datatype Move =
    | Stutter
    | AcquireRead(g: Id)
    | AcquireUpgradable(g: Id)
    | AcquireWrite(g: Id)
    | Release(g: Id)
    | ToReader(g: Id)             // either downgrade to a read guard
    | ToUpgradable(g: Id)
    | ToWriter(g: Id, h: Id)      // the reservation `g` becomes the write guard `h`
    | Store(g: Id, v: int)

  predicate Named(l: Lock, g: Id) {
    g in l.readers || g in l.reserved || g in l.writers
  }

  predicate Moves(l: Lock, m: Move, r: Lock) {
    match m
    case Stutter => r == l
    case AcquireRead(g) => l.writers == {} && !Named(l, g) && r == l.(readers := l.readers + {g})
    case AcquireUpgradable(g) =>
      l.writers == {} && l.reserved == {} && !Named(l, g) && r == l.(reserved := {g})
    case AcquireWrite(g) =>
      l.writers == {} && l.reserved == {} && l.readers == {} && r == l.(writers := {g})
    case Release(g) =>
      Named(l, g) && r == l.(readers := l.readers - {g}, reserved := l.reserved - {g}, writers := l.writers - {g})
    case ToReader(g) =>
      && (g in l.reserved || g in l.writers)
      && r == l.(readers := l.readers + {g}, reserved := l.reserved - {g}, writers := l.writers - {g})
    case ToUpgradable(g) => l.writers == {g} && r == l.(writers := {}, reserved := {g})
    case ToWriter(g, h) =>
      l.reserved == {g} && l.readers == {} && l.writers == {} && r == l.(reserved := {}, writers := {h})
    case Store(g, v) => l.writers == {g} && r == l.(value := v)
  }

  /** At most one reservation or writer, and a writer is alone. */
  predicate Exclusive(l: Lock) {
    && |l.reserved| + |l.writers| <= 1
    && (l.writers != {} ==> l.readers == {})
  }

  lemma MovesKeepExclusive(l: Lock, m: Move, r: Lock)
    requires Exclusive(l) && Moves(l, m, r)
    ensures Exclusive(r)
  {
    if m.ToReader? {
      assert |l.reserved - {m.g}| + |l.writers - {m.g}| == |l.reserved| + |l.writers| - 1;
    }
  }

  /** While somebody holds the write guard only that guard changes the value. */
  lemma OnlyWriterWrites(l: Lock, m: Move, r: Lock, w: Id)
    requires Exclusive(l) && Moves(l, m, r) && w in l.writers
    ensures r.value == l.value || (m.Store? && m.g == w)
    ensures l.writers == {w} && l.reserved == {}
  {
    assert |l.writers - {w}| == |l.writers| - 1;
  }

  /** Nobody writes while somebody else reads or has reserved. */
  lemma ReadersFreezeValue(l: Lock, m: Move, r: Lock)
    requires Exclusive(l) && Moves(l, m, r) && (l.readers != {} || l.reserved != {})
    ensures r.value == l.value
  {
  }

  lemma NamedFreezesValue(l: Lock, m: Move, r: Lock, g: Id)
    requires Exclusive(l) && Moves(l, m, r) && Named(l, g) && !(m.Store? && m.g == g)
    ensures r.value == l.value
  {
    if g in l.writers { OnlyWriterWrites(l, m, r, g); } else { ReadersFreezeValue(l, m, r); }
  }
}

module RwLockRefinement {
  import opened Counting
  import opened RwLockModel
  import opened RwLockEffects
  import opened RwLockInvariants
  import opened RwLockTheorems
  import A = AbstractLock

  datatype Role = Idle | Reads | Reserves | Writes

  function RoleOf(pc: Pc): Role {
    match pc
    case Held(g) => if g.ReadGuard? then Reads else if g.UpgradableGuard? then Reserves else Writes
    case Raising(_) => Reserves
    case Releasing(x) =>
      if x.DownUpMutexNotify? || x.DownMutex? || x.DownMutexNotify? || x.DownNotify? then Reads else Idle
    case _ => Idle
  }

  function RoleAt(pc: Maybe<Pc>): Role {
    if pc.None? then Idle else RoleOf(pc.value)
  }

  predicate IsReader(pc: Pc) { RoleOf(pc).Reads? }
  predicate IsReserved(pc: Pc) { RoleOf(pc).Reserves? }
  predicate IsWriter(pc: Pc) { RoleOf(pc).Writes? }

  function Roles(p: Procs, value: int): A.Lock {
    A.Lock(Those(p, IsReader), Those(p, IsReserved), Those(p, IsWriter), value)
  }

  function Abs(s: State): A.Lock {
    Roles(s.procs, s.value)
  }

  /** What the effect of one step does to the role of its operation and of the guard it hands out. */
  predicate RoleLawful(s: State, pc: Maybe<Pc>, e: Effect) {
    var was, now, granted := RoleAt(pc), RoleAt(Fate(pc, e.next)), RoleAt(NewGuard(e.next));
    var own := MutexShare(pc) == 1;
    && (now != was && now.Reads? ==> was.Reserves? || was.Writes? || s.word % 2 == 0)
    && (now != was && now.Reserves? ==> was.Writes? || (was.Idle? && own && s.word % 2 == 0))
    && (now != was && now.Writes? ==>
        own && ((was.Idle? && s.word == 0) || (was.Reserves? && s.word == 2 && Shares(pc.value))))
    && (granted.Reads? ==> was.Idle? && s.word % 2 == 0)
    && (granted.Reserves? ==> was.Idle? && own && s.word % 2 == 0)
    && (granted.Writes? ==> (was.Idle? || was.Reserves?) && own && s.word == 1)
    && (!granted.Idle? ==> now.Idle?)
    && (!granted.Idle? ==> was.Idle? || was.Reserves?)
  }

  lemma StepRolesLawful(s: State, id: Id, pc: Pc, late: bool)
    requires At(s.procs, id) == Some(pc) && Trusts(s, id) && !pc.Held? && !pc.Finished?
    ensures RoleLawful(s, Some(pc), StepEffect(s, id, pc, late))
  {
  }

  lemma RolesLawful(s: State, a: Action)
    requires Allowed(s, a) && Trusts(s, a.id)
    ensures RoleLawful(s, At(s.procs, a.id), EffectOf(s, a))
  {
    if a.Step? { StepRolesLawful(s, a.id, s.procs[a.id], a.late); }
  }

  lemma ValueAfter(s: State, a: Action)
    requires Allowed(s, a)
    ensures EffectOf(s, a).value == if a.Store? then a.v else s.value
  {
  }

  /** The abstract move made by an operation whose role changes from `was` to `now` while `gid`
      takes up the role `granted`. */
  function MoveBy(id: Id, gid: Id, was: Role, now: Role, granted: Role, wrote: Maybe<int>): A.Move {
    match granted
    case Reads => A.AcquireRead(gid)
    case Reserves => A.AcquireUpgradable(gid)
    case Writes => if was.Reserves? then A.ToWriter(id, gid) else A.AcquireWrite(gid)
    case Idle =>
      if was == now then if wrote.Some? then A.Store(id, wrote.value) else A.Stutter
      else match now
        case Idle => A.Release(id)
        case Reads => if was.Idle? then A.AcquireRead(id) else A.ToReader(id)
        case Reserves => if was.Idle? then A.AcquireUpgradable(id) else A.ToUpgradable(id)
        case Writes => if was.Idle? then A.AcquireWrite(id) else A.ToWriter(id, id)
  }

  function MoveOf(s: State, a: Action): A.Move
    requires Allowed(s, a)
  {
    var e, pc := EffectOf(s, a), At(s.procs, a.id);
    MoveBy(a.id, if a.Step? then a.gid else a.id, RoleAt(pc), RoleAt(Fate(pc, e.next)), RoleAt(NewGuard(e.next)),
           if a.Store? then Some(a.v) else None)
  }

  /** The roles that `l` gives to an operation in role `role`. */
  predicate Has(l: A.Lock, id: Id, role: Role) {
    (id in l.readers <==> role.Reads?) && (id in l.reserved <==> role.Reserves?) && (id in l.writers <==> role.Writes?)
  }

  function With(x: set<Id>, id: Id, now: bool, gid: Id, granted: bool): set<Id> {
    (x - {id}) + (if now then {id} else {}) + (if granted then {gid} else {})
  }

  ghost predicate RolesMoved(l: A.Lock, r: A.Lock, id: Id, gid: Id, now: Role, granted: Role) {
    && r.readers == With(l.readers, id, now.Reads?, gid, granted.Reads?)
    && r.reserved == With(l.reserved, id, now.Reserves?, gid, granted.Reserves?)
    && r.writers == With(l.writers, id, now.Writes?, gid, granted.Writes?)
  }

  /** When an operation may take up a role. */
  ghost predicate MayTake(l: A.Lock, id: Id, was: Role, role: Role) {
    match role
    case Idle => true
    case Reads => was.Reserves? || was.Writes? || l.writers == {}
    case Reserves => l.writers <= {id} && l.reserved <= {id} && !was.Reads?
    case Writes => l.writers <= {id} && l.reserved <= {id} && l.readers <= {id} && !was.Reads?
  }

  lemma MoveIsLegal(l: A.Lock, r: A.Lock, id: Id, gid: Id, was: Role, now: Role, granted: Role, wrote: Maybe<int>)
    requires Has(l, id, was) && RolesMoved(l, r, id, gid, now, granted)
    requires !granted.Idle? ==> now.Idle? && gid != id && !A.Named(l, gid) && !was.Reads? && !was.Writes?
    requires granted.Reads? || granted.Reserves? ==> was.Idle?
    requires now != was ==> MayTake(l, id, was, now)
    requires MayTake(l, id, was, granted)
    requires r.value == if wrote.Some? then wrote.value else l.value
    requires wrote.Some? ==> was.Writes? && now.Writes? && l.writers <= {id} && granted.Idle?
    ensures A.Moves(l, MoveBy(id, gid, was, now, granted, wrote), r)
  {
  }

  lemma ThoseMoved(p: Procs, id: Id, gid: Id, next: Next, f: Pc -> bool)
    requires next.Complete? ==> gid !in p && id in p
    ensures
      var to, granted := Fate(At(p, id), next), NewGuard(next);
      Those(Move(p, id, gid, next), f) ==
        With(Those(p, f), id, to.Some? && f(to.value), gid, granted.Some? && f(granted.value))
  {
  }

  lemma NoWriterWhenEven(s: State)
    requires Inv(s) && s.word % 2 == 0
    ensures Abs(s).writers == {}
  {
    forall x ensures x !in Abs(s).writers {
      assert At(s.procs, x) == Some(Held(WriteGuard)) ==> s.word == 1;
    }
  }

  lemma OnlyHolder(s: State, id: Id)
    requires Inv(s) && MutexShare(At(s.procs, id)) == 1
    ensures Abs(s).reserved <= {id} && Abs(s).writers <= {id}
  {
    forall x | x in Abs(s).reserved ensures x == id { OneHolder(s, x, id); }
    forall x | x in Abs(s).writers ensures x == id { OneHolder(s, x, id); }
  }

  lemma OnlySharer(s: State, id: Id)
    requires Inv(s) && (s.word <= 1 || (s.word == 2 && id in s.procs && Shares(s.procs[id])))
    ensures Abs(s).readers <= {id}
  {
    RecountGone(s.procs, id, Shares);
    assert Those(s.procs - {id}, Shares) == {};
    assert Abs(s).readers - {id} <= Those(s.procs - {id}, Shares);
  }

  lemma MayTakeRole(s: State, id: Id, role: Role)
    requires Inv(s)
    requires !role.Idle? && !role.Writes? ==>
        s.word % 2 == 0 || RoleAt(At(s.procs, id)).Reserves? || RoleAt(At(s.procs, id)).Writes?
    requires role.Reserves? || role.Writes? ==> MutexShare(At(s.procs, id)) == 1
    requires role.Writes? ==> s.word <= 1 || (s.word == 2 && Shares(s.procs[id]))
    ensures !RoleAt(At(s.procs, id)).Reads? || role.Reads? || role.Idle? ==>
        MayTake(Abs(s), id, RoleAt(At(s.procs, id)), role)
  {
    if s.word % 2 == 0 { NoWriterWhenEven(s); }
    if role.Reserves? || role.Writes? { OnlyHolder(s, id); }
    if role.Writes? { OnlySharer(s, id); }
  }

  lemma RolesFollow(p: Procs, q: Procs, v: int, w: int, id: Id, gid: Id, next: Next)
    requires (next.Complete? ==> gid !in p && id in p) && q == Move(p, id, gid, next)
    ensures Has(Roles(p, v), id, RoleAt(At(p, id)))
    ensures RolesMoved(Roles(p, v), Roles(q, w), id, gid, RoleAt(Fate(At(p, id), next)), RoleAt(NewGuard(next)))
    ensures gid !in p ==> !A.Named(Roles(p, v), gid)
  {
    ThoseMoved(p, id, gid, next, IsReader);
    ThoseMoved(p, id, gid, next, IsReserved);
    ThoseMoved(p, id, gid, next, IsWriter);
  }

  /** The invariants allow every change of role that a lawful effect makes. */
  lemma RolesAllowed(s: State, id: Id, e: Effect)
    requires Inv(s) && RoleLawful(s, At(s.procs, id), e)
    ensures MayTake(Abs(s), id, RoleAt(At(s.procs, id)), RoleAt(NewGuard(e.next)))
    ensures
      var was, now := RoleAt(At(s.procs, id)), RoleAt(Fate(At(s.procs, id), e.next));
      now != was ==> MayTake(Abs(s), id, was, now)
  {
    var was, now, granted := RoleAt(At(s.procs, id)), RoleAt(Fate(At(s.procs, id), e.next)), RoleAt(NewGuard(e.next));
    MayTakeRole(s, id, granted);
    if now != was { MayTakeRole(s, id, now); }
  }

  lemma EffectRefines(p: Procs, q: Procs, l: A.Lock, r: A.Lock, id: Id, gid: Id, next: Next, wrote: Maybe<int>)
    requires (next.Complete? ==> gid !in p && id in p) && q == Move(p, id, gid, next)
    requires l == Roles(p, l.value) && r == Roles(q, r.value)
    requires r.value == if wrote.Some? then wrote.value else l.value
    requires wrote.Some? ==> next == Goto(Held(WriteGuard)) && At(p, id) == Some(Held(WriteGuard)) && l.writers <= {id}
    requires MayTake(l, id, RoleAt(At(p, id)), RoleAt(NewGuard(next)))
    requires RoleAt(Fate(At(p, id), next)) != RoleAt(At(p, id)) ==>
        MayTake(l, id, RoleAt(At(p, id)), RoleAt(Fate(At(p, id), next)))
    requires RoleAt(NewGuard(next)).Idle? || RoleAt(Fate(At(p, id), next)).Idle?
    requires RoleAt(NewGuard(next)).Idle? || RoleAt(At(p, id)).Idle?
             || (RoleAt(At(p, id)).Reserves? && RoleAt(NewGuard(next)).Writes?)
    ensures
      var was, now, granted := RoleAt(At(p, id)), RoleAt(Fate(At(p, id), next)), RoleAt(NewGuard(next));
      A.Moves(l, MoveBy(id, gid, was, now, granted, wrote), r)
  {
    RolesFollow(p, q, l.value, r.value, id, gid, next);
    MoveIsLegal(l, r, id, gid, RoleAt(At(p, id)), RoleAt(Fate(At(p, id), next)), RoleAt(NewGuard(next)), wrote);
  }

  /** Every action of the machine is a move of the abstract lock, or leaves it alone. */
  lemma Refines(s: State, a: Action)
    requires Inv(s) && Enabled(s, a)
    ensures A.Moves(Abs(s), MoveOf(s, a), Abs(Apply(s, a)))
  {
    Trusted(s, a.id);
    RolesLawful(s, a);
    RolesAllowed(s, a.id, EffectOf(s, a));
    ValueAfter(s, a);
    OnlyFuturesComplete(s, a);
    if a.Store? { OnlyHolder(s, a.id); }
    EffectRefines(s.procs, Apply(s, a).procs, Abs(s), Abs(Apply(s, a)), a.id, if a.Step? then a.gid else a.id,
                  EffectOf(s, a).next, if a.Store? then Some(a.v) else None);
  }

  // ----- whole runs -----

  lemma {:induction false} StaysExclusive(s: State, acts: seq<Action>)
    requires Inv(s) && CanRun(s, acts) && A.Exclusive(Abs(s))
    ensures A.Exclusive(Abs(Run(s, acts)))
    decreases acts
  {
    if acts != [] {
      Refines(s, acts[0]);
      A.MovesKeepExclusive(Abs(s), MoveOf(s, acts[0]), Abs(Apply(s, acts[0])));
      ApplyKeepsInv(s, acts[0]);
      StaysExclusive(Apply(s, acts[0]), acts[1..]);
    }
  }

  /** Who carries the guard `g` on after a step: an upgrade hands over to a new guard. */
  function Heir(s: State, a: Action, g: Id): Id
    requires Enabled(s, a)
  {
    match MoveOf(s, a)
    case ToWriter(x, h) => if x == g then h else g
    case _ => g
  }

  /** In every state of the run but possibly the last, `g` or its heir is a live guard of any kind or a
      pending upgrade, and it does not store. */
  ghost predicate HeldWithoutStore(s: State, acts: seq<Action>, g: Id)
    requires CanRun(s, acts)
    decreases acts
  {
    acts != [] ==>
      && A.Named(Abs(s), g)
      && !(acts[0].Store? && acts[0].id == g)
      && HeldWithoutStore(Apply(s, acts[0]), acts[1..], Heir(s, acts[0], g))
  }

  lemma StepKeepsValue(s: State, a: Action, g: Id)
    requires Inv(s) && A.Exclusive(Abs(s)) && Enabled(s, a)
    requires A.Named(Abs(s), g) && !(a.Store? && a.id == g)
    ensures Apply(s, a).value == s.value
  {
    Refines(s, a);
    OnlyStoresStore(s, a);
    A.NamedFreezesValue(Abs(s), MoveOf(s, a), Abs(Apply(s, a)), g);
  }

  lemma OnlyStoresStore(s: State, a: Action)
    requires Enabled(s, a)
    ensures MoveOf(s, a).Store? ==> a.Store? && MoveOf(s, a).g == a.id
  {
  }

  lemma {:induction false} ValueFrozen(s: State, acts: seq<Action>, g: Id)
    requires Inv(s) && A.Exclusive(Abs(s)) && CanRun(s, acts) && HeldWithoutStore(s, acts, g)
    ensures Run(s, acts).value == s.value
    decreases acts
  {
    if acts != [] {
      StepKeepsValue(s, acts[0], g);
      Refines(s, acts[0]);
      A.MovesKeepExclusive(Abs(s), MoveOf(s, acts[0]), Abs(Apply(s, acts[0])));
      ApplyKeepsInv(s, acts[0]);
      ValueFrozen(Apply(s, acts[0]), acts[1..], Heir(s, acts[0], g));
    }
  }

  lemma InitialExclusive(value: int)
    ensures Inv(Initial(value)) && A.Exclusive(Abs(Initial(value)))
  {
    InitialInv(value);
    var l := Abs(Initial(value));
    assert l.readers == {} && l.reserved == {} && l.writers == {};
  }

  /** After every run at most one guard may write or has reserved to, and then nobody reads beside a
      writer. */
  lemma AlwaysExclusive(value: int, acts: seq<Action>)
    requires CanRun(Initial(value), acts)
    ensures A.Exclusive(Abs(Run(Initial(value), acts)))
  {
    InitialExclusive(value);
    StaysExclusive(Initial(value), acts);
  }

  /** Every guard sees one constant value apart from its own writes, from its acquisition on and across
      every conversion: while a guard or a pending upgrade lives and does not store, from a read guard
      through both downgrades, from an upgradable guard through the upgrade, up to and including the step
      that ends it, nobody writes. */
  lemma GuardsSeeOneValue(value: int, before: seq<Action>, acts: seq<Action>, g: Id)
    requires CanRun(Initial(value), before) && CanRun(Run(Initial(value), before), acts)
    requires HeldWithoutStore(Run(Initial(value), before), acts, g)
    ensures Run(Run(Initial(value), before), acts).value == Run(Initial(value), before).value
  {
    InitialInv(value);
    RunKeepsInv(Initial(value), before);
    AlwaysExclusive(value, before);
    ValueFrozen(Run(Initial(value), before), acts, g);
  }
}
