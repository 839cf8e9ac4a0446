/** Sizes and bounds of finite sets. */
module Sets {

  lemma SubsetSize<T>(a: set<T>, b: set<T>)
    requires a <= b
    ensures |a| <= |b| && |b - a| == |b| - |a|
  {
    assert b == a + (b - a);
  }

  /** A number above every element. */
  lemma {:induction false} BoundOf(s: set<nat>) returns (n: nat)
    ensures forall x :: x in s ==> x < n
  {
    n := 0;
    if s != {} {
      var x :| x in s;
      var m := BoundOf(s - {x});
      assert forall y :: y in s ==> y == x || y in s - {x};
      n := if m <= x then x + 1 else m;
    }
  }

  /** The ids below n. */
  function FirstIds(n: nat): (ids: set<nat>)
    ensures |ids| == n && forall x: nat :: x in ids <==> x < n
  {
    if n == 0 then {} else FirstIds(n - 1) + {n - 1}
  }
}
