/** Order-related notions on sequences used by the reconciliation proofs. */
module Sequences {

  /** `a` can be obtained from `b` by deleting elements, keeping the order of
      the rest. */
  predicate IsSubsequence<T(==)>(a: seq<T>, b: seq<T>)
    decreases |b|
  {
    if a == [] then true
    else if b == [] then false
    else (a[0] == b[0] && IsSubsequence(a[1..], b[1..])) || IsSubsequence(a, b[1..])
  }

  /** Appending the same element to both sides, or only to the longer one, keeps a subsequence. */
  lemma {:induction false} SubsequenceSnoc<T>(a: seq<T>, b: seq<T>, x: T, both: bool)
    requires IsSubsequence(a, b)
    ensures IsSubsequence(a + (if both then [x] else []), b + [x])
    decreases |b|
  {
    var a' := a + (if both then [x] else []);
    if b == [] {
      assert a == [];
      if both {
        assert a'[1..] == [];
      }
    } else if a == [] {
      if both {
        SubsequenceSnoc([], b[1..], x, true);
        assert (b + [x])[1..] == b[1..] + [x];
      }
    } else if a[0] == b[0] && IsSubsequence(a[1..], b[1..]) {
      SubsequenceSnoc(a[1..], b[1..], x, both);
      assert a'[1..] == a[1..] + (if both then [x] else []);
      assert (b + [x])[1..] == b[1..] + [x];
    } else {
      SubsequenceSnoc(a, b[1..], x, both);
      assert (b + [x])[1..] == b[1..] + [x];
    }
  }
}
