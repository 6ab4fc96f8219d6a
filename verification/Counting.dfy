// Counting the operations that stand at certain program points.
module Counting {

  type Id = nat

  datatype Maybe<T> = None | Some(value: T)

  function At<T>(p: map<Id, T>, id: Id): Maybe<T> {
    if id in p then Some(p[id]) else None
  }

  function Those<T>(p: map<Id, T>, f: T -> bool): set<Id> {
    set id | id in p && f(p[id])
  }

  function One(b: bool): int {
    if b then 1 else 0
  }

  lemma Recount<T>(p: map<Id, T>, id: Id, pc: T, f: T -> bool)
    ensures |Those(p[id := pc], f)| == |Those(p, f)| + One(f(pc)) - One(id in p && f(p[id]))
  {
    assert Those(p[id := pc], f) == if f(pc) then Those(p, f) + {id} else Those(p, f) - {id};
  }

  lemma RecountGone<T>(p: map<Id, T>, id: Id, f: T -> bool)
    ensures |Those(p - {id}, f)| == |Those(p, f)| - One(id in p && f(p[id]))
  {
    assert Those(p - {id}, f) == Those(p, f) - {id};
  }

  /** Of a set with at most one element, two members are the same. */
  lemma AtMostOne(s: set<Id>, x: Id, y: Id)
    requires |s| <= 1 && x in s && y in s
    ensures x == y
  {
    assert |s - {x}| == |s| - 1;
  }

  lemma FreshName(used: set<Id>) returns (g: Id)
    ensures g !in used
  {
    g := 0;
    var rest := used;
    while rest != {}
      invariant rest <= used && forall x :: x in used && x !in rest ==> x < g
      decreases rest
    {
      var x :| x in rest;
      rest := rest - {x};
      if g <= x { g := x + 1; }
    }
  }
}
