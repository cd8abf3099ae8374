/** Sequences without repetition and the sets of their members. */
module Counting {

  lemma {:induction false} DistinctCount<T>(s: seq<T>)
    requires forall i, k | 0 <= i < k < |s| :: s[i] != s[k]
    ensures |set x | x in s| == |s|
  {
    if s != [] {
      var init, last := s[..|s| - 1], s[|s| - 1];
      DistinctCount(init);
      assert (set x | x in s) == (set x | x in init) + {last} by { assert s == init + [last]; }
    }
  }
}
