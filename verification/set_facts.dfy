/** Cardinality facts about finite sets. */
module SetFacts {

  lemma SubsetCard<T>(a: set<T>, b: set<T>)
    requires a <= b
    ensures |a| <= |b|
  {
    assert b == a + (b - a);
  }

  lemma StrictSubsetCard<T>(a: set<T>, b: set<T>)
    requires a <= b && a != b
    ensures |a| < |b|
  {
    var x :| x in b && x !in a;
    assert b == a + (b - a);
    assert x in b - a;
  }

  /** The positions of `a` whose element satisfies `p`. */
  function Indices<T>(a: seq<T>, p: T -> bool): (s: set<int>)
    ensures forall i :: i in s <==> 0 <= i < |a| && p(a[i])
  {
    set i | 0 <= i < |a| && p(a[i])
  }

  /** Counting those positions one element at a time: the last element
      adds one exactly when it satisfies `p`. */
  lemma IndicesStep<T>(a: seq<T>, p: T -> bool)
    requires |a| > 0
    ensures |Indices(a, p)| == |Indices(a[..|a| - 1], p)| + (if p(a[|a| - 1]) then 1 else 0)
  {
    var n := |a| - 1;
    var s0 := Indices(a[..n], p);
    assert forall i :: 0 <= i < n ==> a[..n][i] == a[i];
    if p(a[n]) {
      assert Indices(a, p) == s0 + {n};
      assert n !in s0;
    } else {
      assert Indices(a, p) == s0;
    }
  }
}
