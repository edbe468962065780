/** Small facts about sequences used by more than one source file. */
module Collections {

  /** No element occurs twice. */
  predicate Distinct<T(==)>(s: seq<T>) {
    forall i, j :: 0 <= i < j < |s| ==> s[i] != s[j]
  }

  /** The set of elements of a sequence. */
  function Elems<T(==)>(s: seq<T>): set<T> {
    set x | x in s
  }

  /** A duplicate-free sequence has exactly as many elements as its element set. */
  lemma {:induction false} DistinctCardinality<T>(s: seq<T>)
    requires Distinct(s)
    ensures |Elems(s)| == |s|
  {
    if s != [] {
      var t := s[1..];
      assert Distinct(t);
      DistinctCardinality(t);
      assert Elems(s) == Elems(t) + {s[0]};
      assert s[0] !in Elems(t);
    }
  }
}
