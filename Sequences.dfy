/** Facts about sequences shared by the list filters of several pages. */
module Sequences {

  /** `a` is `b` with some elements dropped, the rest in their order. */
  predicate IsSubsequence<T(==)>(a: seq<T>, b: seq<T>)
    decreases |b|
  {
    if a == [] then true
    else if b == [] then false
    else if a[0] == b[0] then IsSubsequence(a[1..], b[1..])
    else IsSubsequence(a, b[1..])
  }

  /** Putting an element in front of the longer list keeps a subsequence. */
  lemma {:induction false} SubsequenceOfTail<T>(a: seq<T>, b: seq<T>, x: T)
    requires IsSubsequence(a, b)
    ensures IsSubsequence(a, [x] + b)
    decreases |b|, 1
  {
    var xb := [x] + b;
    assert xb[1..] == b;
    if a != [] && a[0] == x {
      SubsequenceDropHead(a, b);
    }
  }

  /** Dropping the first element of the shorter list keeps a subsequence. */
  lemma {:induction false} SubsequenceDropHead<T>(a: seq<T>, b: seq<T>)
    requires a != [] && IsSubsequence(a, b)
    ensures IsSubsequence(a[1..], b)
    decreases |b|, 0
  {
    if a[0] != b[0] {
      SubsequenceDropHead(a, b[1..]);
    }
    SubsequenceOfTail(a[1..], b[1..], b[0]);
    assert [b[0]] + b[1..] == b;
  }
}
