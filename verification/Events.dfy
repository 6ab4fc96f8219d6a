// The wake-up primitive every lock in the crate is built on.
//
// An `Event` is a queue of listeners split where the real list marks the next one to wake:
// `notified` holds the listeners that were already woken, `waiting` the ones that were not,
// both in the order in which they registered.  `additional` remembers which notifications
// came from `notify_additional`, because a dropped listener passes on the kind it received.
module Events {

  type Id = nat

  datatype Event = Event(notified: seq<Id>, waiting: seq<Id>, additional: set<Id>)

  const NO_LISTENERS := Event([], [], {})

  /** `x` removed from `s`, everything else in its old order. */
  function Without(s: seq<Id>, x: Id): (r: seq<Id>)
    ensures forall y :: y in r <==> y in s && y != x
    ensures x !in s ==> r == s
  {
    if s == [] then []
    else if s[0] == x then Without(s[1..], x)
    else [s[0]] + Without(s[1..], x)
  }

  /** Whether `id` has a listener in the queue, notified or not. */
  predicate Listening(e: Event, id: Id) {
    id in e.notified || id in e.waiting
  }

  /** The listeners in the order in which they registered. */
  function Queue(e: Event): seq<Id> {
    e.notified + e.waiting
  }

  function Listen(e: Event, id: Id): (r: Event)
    ensures forall y :: Listening(r, y) <==> Listening(e, y) || y == id
    ensures r.notified == e.notified
    ensures forall y :: y in r.waiting <==> y in e.waiting || y == id
    ensures Queue(r) == Queue(e) + [id]
  {
    e.(waiting := e.waiting + [id])
  }

  /** Wakes up to `n` more listeners, oldest first. */
  function NotifyAdditional(e: Event, n: nat): (r: Event)
    ensures forall y :: Listening(r, y) <==> Listening(e, y)
    ensures forall y :: y in e.notified ==> y in r.notified
    ensures forall y :: y in r.waiting ==> y in e.waiting
    ensures n > 0 && e.waiting != [] ==> r.notified != []
    ensures |r.waiting| == if n < |e.waiting| then |e.waiting| - n else 0
    decreases n
  {
    if n == 0 || e.waiting == [] then e
    else
      var x := e.waiting[0];
      assert e.waiting == [x] + e.waiting[1..];
      NotifyAdditional(Event(e.notified + [x], e.waiting[1..], e.additional + {x}), n - 1)
  }

  /** Tops the number of woken listeners up to `n`; does nothing when that many are woken already. */
  function Notify(e: Event, n: nat): (r: Event)
    ensures forall y :: Listening(r, y) <==> Listening(e, y)
    ensures forall y :: y in e.notified ==> y in r.notified
    ensures forall y :: y in r.waiting ==> y in e.waiting
    ensures n > 0 && r.notified == [] ==> r.waiting == []
    ensures n >= |e.notified| + |e.waiting| ==> r.waiting == []
  {
    if n <= |e.notified| then e
    else NotifyAdditional(e, n - |e.notified|).(additional := e.additional)
  }

  function Forget(e: Event, id: Id): (r: Event)
    ensures forall y :: Listening(r, y) <==> Listening(e, y) && y != id
    ensures forall y :: y in r.notified <==> y in e.notified && y != id
    ensures forall y :: y in r.waiting <==> y in e.waiting && y != id
  {
    Event(Without(e.notified, id), Without(e.waiting, id), e.additional - {id})
  }

  /** A poll that found the notification: the listener leaves without passing it on. */
  function Consume(e: Event, id: Id): (r: Event)
    requires id in e.notified
    ensures forall y :: Listening(r, y) <==> Listening(e, y) && y != id
    ensures forall y :: y in r.notified <==> y in e.notified && y != id
    ensures forall y :: y in r.waiting <==> y in e.waiting && y != id
  {
    Forget(e, id)
  }

  /** A listener dropped by its owner: an unused notification goes to the next in line. */
  function DropListener(e: Event, id: Id): (r: Event)
    ensures forall y :: Listening(r, y) <==> Listening(e, y) && y != id
    ensures forall y :: y in e.notified && y != id ==> y in r.notified
    ensures forall y :: y in r.waiting ==> y in e.waiting
    ensures id in e.notified && r.notified == [] ==> r.waiting == []
    ensures id !in e.notified && e.notified != [] ==> r.notified != []
  {
    if id !in e.notified then Forget(e, id)
    else if id in e.additional then NotifyAdditional(Forget(e, id), 1)
    else Notify(Forget(e, id), 1)
  }

  function Min(a: nat, b: nat): nat { if a < b then a else b }
  function Max(a: nat, b: nat): nat { if a < b then b else a }

  /** `notify_additional(n)` wakes `n` more, whoever registered first before the others. */
  lemma {:induction false} AdditionalInOrder(e: Event, n: nat)
    ensures |NotifyAdditional(e, n).notified| == |e.notified| + Min(n, |e.waiting|)
    ensures Queue(NotifyAdditional(e, n)) == Queue(e)
    ensures e.notified <= NotifyAdditional(e, n).notified
    ensures forall y :: y in NotifyAdditional(e, n).additional <==>
              y in e.additional || y in e.waiting[..Min(n, |e.waiting|)]
    decreases n
  {
    if n > 0 && e.waiting != [] {
      var x := e.waiting[0];
      assert e.waiting == [x] + e.waiting[1..];
      AdditionalInOrder(Event(e.notified + [x], e.waiting[1..], e.additional + {x}), n - 1);
    }
  }

  /** What `notify(n)` does: the notified listeners become the larger of what they were and `n`, or all
      there are, and those who become notified are the first that were waiting. */
  predicate TopsUp(e: Event, r: Event, n: nat) {
    && |r.notified| == Max(|e.notified|, Min(n, |e.notified| + |e.waiting|))
    && Queue(r) == Queue(e)
    && r.additional == e.additional
  }

  lemma NotifyInOrder(e: Event, n: nat)
    ensures TopsUp(e, Notify(e, n), n)
    ensures e.notified <= Notify(e, n).notified
  {
    if n > |e.notified| { AdditionalInOrder(e, n - |e.notified|); }
  }

  lemma {:induction false} WithoutConcat(s: seq<Id>, t: seq<Id>, x: Id)
    requires x !in s || x !in t
    ensures Without(s + t, x) == Without(s, x) + Without(t, x)
  {
    if s == [] {
      assert s + t == t;
    } else {
      assert (s + t)[1..] == s[1..] + t;
      WithoutConcat(s[1..], t, x);
    }
  }

  /** A listener that is dropped leaves the others in their order, and no notification is lost as long
      as somebody waits for one. */
  lemma DropPassesOn(e: Event, id: Id)
    requires id !in e.notified || id !in e.waiting
    ensures Queue(DropListener(e, id)) == Without(Queue(e), id)
    ensures id in e.notified && id in e.additional && e.waiting != [] ==> e.waiting[0] in DropListener(e, id).notified
    ensures id in e.notified && id !in e.additional && e.waiting != [] ==> DropListener(e, id).notified != []
  {
    WithoutConcat(e.notified, e.waiting, id);
    NotifyInOrder(Forget(e, id), 1);
    AdditionalInOrder(Forget(e, id), 1);
    if id in e.notified { assert id !in e.waiting; assert Forget(e, id).waiting == e.waiting; }
  }

  // ----- first in, first out -----

  /** `x` comes before every `y` in `q`, or no `y` comes. */
  predicate AheadIn(q: seq<Id>, x: Id, y: Id) {
    q == [] || q[0] == x || (q[0] != y && AheadIn(q[1..], x, y))
  }

  lemma AheadCons(h: Id, t: seq<Id>, x: Id, y: Id)
    ensures AheadIn([h] + t, x, y) <==> h == x || (h != y && AheadIn(t, x, y))
  {
    assert ([h] + t)[0] == h && ([h] + t)[1..] == t;
  }

  /** Taking `z` out of the front part of a queue, or out of its back part. */
  lemma {:induction false} AheadFront(p: seq<Id>, q: seq<Id>, x: Id, y: Id, z: Id)
    requires AheadIn(p + q, x, y) && z != x
    ensures AheadIn(Without(p, z) + q, x, y)
    decreases p
  {
    if p != [] {
      var h, t := p[0], p[1..];
      assert p + q == [h] + (t + q);
      AheadCons(h, t + q, x, y);
      if h == x {
        assert Without(p, z) + q == [h] + (Without(t, z) + q);
        AheadCons(h, Without(t, z) + q, x, y);
      } else {
        AheadFront(t, q, x, y, z);
        if h != z {
          assert Without(p, z) + q == [h] + (Without(t, z) + q);
          AheadCons(h, Without(t, z) + q, x, y);
        }
      }
    }
  }

  lemma {:induction false} AheadBack(p: seq<Id>, q: seq<Id>, x: Id, y: Id, z: Id)
    requires AheadIn(p + q, x, y) && z != x
    ensures AheadIn(p + Without(q, z), x, y)
    decreases p
  {
    if p == [] {
      assert p + q == q + [] && p + Without(q, z) == Without(q, z) + [];
      AheadFront(q, [], x, y, z);
    } else {
      var h, t := p[0], p[1..];
      assert p + q == [h] + (t + q) && p + Without(q, z) == [h] + (t + Without(q, z));
      AheadCons(h, t + q, x, y);
      AheadCons(h, t + Without(q, z), x, y);
      if h != x { AheadBack(t, q, x, y, z); }
    }
  }

  lemma {:induction false} AheadLast(q: seq<Id>, x: Id, y: Id, z: Id)
    requires AheadIn(q, x, y) && x in q
    ensures AheadIn(q + [z], x, y)
    decreases q
  {
    assert (q + [z])[1..] == q[1..] + [z];
    if q[0] != x { AheadLast(q[1..], x, y, z); }
  }

  lemma {:induction false} NotThereIsBehind(q: seq<Id>, x: Id, y: Id)
    requires y !in q
    ensures AheadIn(q, x, y)
    decreases q
  {
    if q != [] { NotThereIsBehind(q[1..], x, y); }
  }

  /** Registering, notifying and the end of other listeners leave `x` ahead of `y`. */
  lemma ListenKeepsAhead(e: Event, x: Id, y: Id, z: Id)
    requires AheadIn(Queue(e), x, y) && Listening(e, x)
    ensures AheadIn(Queue(Listen(e, z)), x, y)
  {
    AheadLast(Queue(e), x, y, z);
  }

  lemma ForgetKeepsAhead(e: Event, x: Id, y: Id, z: Id)
    requires AheadIn(Queue(e), x, y) && z != x
    ensures AheadIn(Queue(Forget(e, z)), x, y)
  {
    AheadFront(e.notified, e.waiting, x, y, z);
    AheadBack(Without(e.notified, z), e.waiting, x, y, z);
  }

  lemma DropKeepsAhead(e: Event, x: Id, y: Id, z: Id)
    requires AheadIn(Queue(e), x, y) && z != x
    ensures AheadIn(Queue(DropListener(e, z)), x, y)
  {
    ForgetKeepsAhead(e, x, y, z);
    NotifyInOrder(Forget(e, z), 1);
    AdditionalInOrder(Forget(e, z), 1);
  }

  /** So if the later one is notified, the earlier one is. */
  lemma {:induction false} AheadIsNotified(p: seq<Id>, q: seq<Id>, x: Id, y: Id)
    requires AheadIn(p + q, x, y) && x != y && y in p
    ensures x in p
    decreases p
  {
    assert (p + q)[1..] == p[1..] + q;
    if p[0] != x { AheadIsNotified(p[1..], q, x, y); }
  }
}
