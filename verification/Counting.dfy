/** Counting the tasks that stand at certain places. */
module Counting {

  function One(b: bool): nat {
    if b then 1 else 0
  }

  /** The tasks of m whose place satisfies f. */
  function Where<P>(m: map<nat, P>, f: P -> bool): set<nat> {
    set p | p in m && f(m[p])
  }

  lemma CountOne(a: set<nat>, b: set<nat>, x: nat)
    requires a - {x} == b - {x}
    ensures |a| + One(x in b) == |b| + One(x in a)
  {
    assert a == if x in a then (a - {x}) + {x} else a - {x};
    assert b == if x in b then (b - {x}) + {x} else b - {x};
  }

  /** Moving one task changes the count by that task alone. */
  lemma MoveOne<P>(m: map<nat, P>, p: nat, next: P, f: P -> bool)
    ensures |Where(m[p := next], f)| + One(p in m && f(m[p])) == |Where(m, f)| + One(f(next))
  {
    var a, b := Where(m[p := next], f), Where(m, f);
    assert a - {p} == b - {p};
    assert p in a <==> f(next);
    assert p in b <==> p in m && f(m[p]);
    hide Where;
    CountOne(a, b, p);
  }

  /** If at most one task satisfies f and p does, no other task does. */
  lemma Sole<P>(m: map<nat, P>, p: nat, f: P -> bool)
    requires |Where(m, f)| <= 1 && p in m && f(m[p])
    ensures |Where(m, f)| == 1
    ensures forall q :: q in m && f(m[q]) ==> q == p
  {
    var w := Where(m, f);
    assert p in w;
    assert |w - {p}| == |w| - 1;
    forall q | q in m && f(m[q])
      ensures q == p
    {
      assert q in w && (q == p || q in w - {p});
    }
  }

  lemma NoneThere<P>(m: map<nat, P>, f: P -> bool)
    requires |Where(m, f)| == 0
    ensures forall q :: q in m ==> !f(m[q])
  {
    forall q | q in m
      ensures !f(m[q])
    {
      assert f(m[q]) <==> q in Where(m, f);
    }
  }

  lemma SubsetCount(a: set<nat>, b: set<nat>)
    requires a <= b
    ensures |a| <= |b| && (|a| == |b| ==> a == b)
  {
    assert b == a + (b - a);
  }
}
