/** Option and Result types used throughout the model in place of Python's
    `None` and raised exceptions. */
module Wrappers {

  datatype Option<+T> = None | Some(value: T) {

    /** The wrapped value, or `default` when there is none. */
    function GetOr(default: T): T {
      match this
      case Some(v) => v
      case None => default
    }
  }

  /** A value, or the message of the exception Python would have raised. */
  datatype Result<+T> = Success(value: T) | Failure(error: string)

  /** `d.get(k, default)`: the value bound to `k`, or `default`. */
  function Get<K, V>(d: map<K, V>, k: K, default: V): (v: V)
    ensures k in d ==> v == d[k]
    ensures k !in d ==> v == default
  {
    if k in d then d[k] else default
  }

  /** Index of the last pair in `items` whose key is `k`, or -1. */
  function LastIndexOf<K(==), V>(items: seq<(K, V)>, k: K): (r: int)
    ensures -1 <= r < |items|
    ensures r >= 0 ==> items[r].0 == k
    ensures forall j :: r < j < |items| ==> items[j].0 != k
    decreases |items|
  {
    if |items| == 0 then -1
    else if items[|items| - 1].0 == k then |items| - 1
    else LastIndexOf(items[..|items| - 1], k)
  }

  /** The present values, in order. */
  function Somes<T>(xs: seq<Option<T>>): (ys: seq<T>)
    ensures |ys| <= |xs|
    ensures forall y :: y in ys ==> Some(y) in xs
    decreases |xs|
  {
    if |xs| == 0 then []
    else
      var init := Somes(xs[..|xs| - 1]);
      assert forall x :: x in xs[..|xs| - 1] ==> x in xs;
      match xs[|xs| - 1]
      case Some(y) => init + [y]
      case None => init
  }

  lemma {:induction false} SomesAppend<T>(a: seq<Option<T>>, b: seq<Option<T>>)
    ensures Somes(a + b) == Somes(a) + Somes(b)
    decreases |b|
  {
    if |b| == 0 {
      assert a + b == a;
    } else {
      var n := |b| - 1;
      assert (a + b)[..|a + b| - 1] == a + b[..n];
      assert (a + b)[|a + b| - 1] == b[n];
      SomesAppend(a, b[..n]);
    }
  }

  /** When every value is present, they are all kept. */
  lemma {:induction false} SomesOfAll<T>(xs: seq<Option<T>>, ys: seq<T>)
    requires |xs| == |ys|
    requires forall i :: 0 <= i < |xs| ==> xs[i] == Some(ys[i])
    ensures Somes(xs) == ys
    decreases |xs|
  {
    if |xs| > 0 {
      var n := |xs| - 1;
      SomesOfAll(xs[..n], ys[..n]);
      assert ys[..n] + [ys[n]] == ys;
    }
  }

  /** Concatenation is associative. */
  lemma ConcatAssoc<T>(a: seq<T>, b: seq<T>, c: seq<T>)
    ensures a + (b + c) == (a + b) + c
  {}

  /** Moving the first element of `s` onto the end of `a`. */
  lemma ShiftFirst<T>(a: seq<T>, s: seq<T>)
    requires |s| > 0
    ensures (a + [s[0]]) + s[1..] == a + s
  {}

  /** The head and tail of a concatenation with a non-empty front. */
  lemma HeadTail<T>(a: seq<T>, c: seq<T>)
    requires |a| > 0
    ensures (a + c)[0] == a[0] && (a + c)[1..] == a[1..] + c
  {}

  /** Dropping the element just appended. */
  lemma DropLast<T>(a: seq<T>, x: T)
    ensures (a + [x])[..|a|] == a && (a + [x])[|a|] == x
  {}

  lemma ConcatEmpty<T>(a: seq<T>)
    ensures a + [] == a && [] + a == a
  {}
}
