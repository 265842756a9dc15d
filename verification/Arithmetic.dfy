/** Powers of two, sums and sizes of sets. */
module Arithmetic {
  function Pow2(e: nat): (r: nat)
    ensures r >= 1
  {
    if e == 0 then 1 else 2 * Pow2(e - 1)
  }

  lemma {:induction false} SubsetSize<T>(a: set<T>, b: set<T>)
    requires a <= b
    ensures |a| <= |b|
  {
    if a != {} {
      var x :| x in a;
      SubsetSize(a - {x}, b - {x});
    }
  }

  lemma ProperSubsetSize<T>(a: set<T>, b: set<T>)
    requires a < b
    ensures |a| < |b|
  {
    var x :| x in b && x !in a;
    assert a <= b - {x};
    SubsetSize(a, b - {x});
  }

  lemma SubsetOfSameSize<T>(a: set<T>, b: set<T>)
    requires a <= b && |a| >= |b|
    ensures a == b
  {
    if a != b {
      ProperSubsetSize(a, b);
    }
  }

  /** The sum of the first `c` numbers. */
  function Sum(s: seq<nat>, c: nat): nat
    requires c <= |s|
  {
    if c == 0 then 0 else Sum(s, c - 1) + s[c - 1]
  }

  lemma {:induction false} SumOfUpdate(s: seq<nat>, i: nat, x: nat, c: nat)
    requires i < |s| && c <= |s|
    ensures Sum(s[i := x], c) == Sum(s, c) + if i < c then x - s[i] else 0
  {
    if c > 0 {
      SumOfUpdate(s, i, x, c - 1);
    }
  }
}
