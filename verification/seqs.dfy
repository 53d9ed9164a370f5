/** Facts about sequences shared by the list filters of the dashboards. */
module Seqs {

  /** `a` is `b` with some elements dropped, the rest in order. */
  predicate IsSubsequence<T(==)>(a: seq<T>, b: seq<T>)
    decreases |b|
  {
    a == [] || (b != [] && ((a[0] == b[0] && IsSubsequence(a[1..], b[1..])) || IsSubsequence(a, b[1..])))
  }

  /** Dropping nothing is a subsequence too. */
  lemma {:induction false} SubsequenceOfSelf<T>(a: seq<T>)
    ensures IsSubsequence(a, a)
    decreases |a|
  {
    if a != [] {
      SubsequenceOfSelf(a[1..]);
    }
  }

  /** One step of a filter: the head of `[h] + t` is kept or dropped in
      front of a subsequence of `t`. */
  lemma KeepOrDrop<T>(h: T, t: seq<T>, rt: seq<T>, keep: bool)
    requires IsSubsequence(rt, t)
    ensures IsSubsequence((if keep then [h] else []) + rt, [h] + t)
  {
    var b := [h] + t;
    assert b[1..] == t;
    if keep {
      var a := [h] + rt;
      assert a[0] == b[0] && a[1..] == rt;
    } else {
      assert ([] + rt) == rt;
    }
  }
}
