/** `sortedMetricKeys` (internal/handlers/utils.go): the keys of a listing map in
    ascending order, as `sort.Strings` orders them. */
module Utils {
  import opened Collections

  /** Go's `a < b` on strings: the first differing position decides, and a proper
      prefix comes first. Go compares bytes; names are modelled as valid UTF-8 text,
      and for such text byte order and code-point order coincide, so comparing
      `char`s gives the same answer. Byte strings that are not valid UTF-8 are not
      representable here. */
  predicate Less(a: string, b: string)
    decreases |a|
  {
    |b| > 0 && (|a| == 0 || a[0] < b[0] || (a[0] == b[0] && Less(a[1..], b[1..])))
  }

  lemma {:induction false} LessIrreflexive(a: string)
    ensures !Less(a, a)
    decreases |a|
  {
    if |a| > 0 {
      LessIrreflexive(a[1..]);
    }
  }

  lemma {:induction false} LessTransitive(a: string, b: string, c: string)
    requires Less(a, b) && Less(b, c)
    ensures Less(a, c)
    decreases |a|
  {
    if |a| > 0 && a[0] == b[0] && b[0] == c[0] {
      LessTransitive(a[1..], b[1..], c[1..]);
    }
  }

  /** Any two distinct strings are ordered one way: the order is total. */
  lemma {:induction false} LessTotal(a: string, b: string)
    ensures a == b || Less(a, b) || Less(b, a)
    decreases |a|
  {
    if |a| > 0 && |b| > 0 && a[0] == b[0] {
      LessTotal(a[1..], b[1..]);
      if a[1..] == b[1..] {
        assert a == [a[0]] + a[1..] && b == [b[0]] + b[1..];
      }
    }
  }

  lemma LessAsymmetric(a: string, b: string)
    requires Less(a, b)
    ensures !Less(b, a)
  {
    if Less(b, a) {
      LessTransitive(a, b, a);
      LessIrreflexive(a);
    }
  }

  /** Strictly ascending: sorted, and therefore free of duplicates. */
  predicate Ascending(s: seq<string>) {
    forall i, j :: 0 <= i < j < |s| ==> Less(s[i], s[j])
  }

  /** Ascending neighbours make an ascending sequence. */
  lemma {:induction false} NeighboursAscending(s: seq<string>)
    requires forall i :: 0 <= i < |s| - 1 ==> Less(s[i], s[i + 1])
    ensures Ascending(s)
    decreases |s|
  {
    if |s| > 1 {
      NeighboursAscending(s[1..]);
      forall j | 1 <= j < |s| ensures Less(s[0], s[j]) {
        if j > 1 {
          assert Less(s[1], s[j]) by { assert s[1..][0] == s[1] && s[1..][j - 1] == s[j]; }
          LessTransitive(s[0], s[1], s[j]);
        }
      }
      forall i, j | 0 <= i < j < |s| ensures Less(s[i], s[j]) {
        if i > 0 {
          assert s[1..][i - 1] == s[i] && s[1..][j - 1] == s[j];
        }
      }
    }
  }

  lemma AscendingIsDistinct(s: seq<string>)
    requires Ascending(s)
    ensures Distinct(s)
  {
    forall i, j | 0 <= i < j < |s| ensures s[i] != s[j] {
      LessIrreflexive(s[i]);
    }
  }

  /** Places `x` into an ascending sequence that lacks it. */
  function Insert(s: seq<string>, x: string): (r: seq<string>)
    requires Ascending(s) && x !in s
    ensures Ascending(r)
    ensures |r| == |s| + 1
    ensures forall y :: y in r <==> y in s || y == x
  {
    if s == [] then [x]
    else
      LessTotal(x, s[0]);
      if Less(x, s[0]) then
        assert forall j :: 0 <= j < |s| ==> Less(x, s[j]) by {
          forall j | 0 <= j < |s| ensures Less(x, s[j]) {
            if j > 0 { LessTransitive(x, s[0], s[j]); }
          }
        }
        [x] + s
      else
        var rest := Insert(s[1..], x);
        assert forall j :: 0 <= j < |rest| ==> Less(s[0], rest[j]) by {
          forall j | 0 <= j < |rest| ensures Less(s[0], rest[j]) {
            if rest[j] != x {
              assert rest[j] in rest;
              var i :| 0 <= i < |s[1..]| && s[1..][i] == rest[j];
              assert s[i + 1] == rest[j];
            }
          }
        }
        [s[0]] + rest
  }

  /** Insertion sort of a duplicate-free sequence: `sort.Strings` on the collected keys. */
  function SortStrings(s: seq<string>): (r: seq<string>)
    requires Distinct(s)
    ensures Ascending(r)
    ensures |r| == |s|
    ensures forall y :: y in r <==> y in s
    decreases |s|
  {
    if s == [] then []
    else
      var init := s[..|s| - 1];
      assert Distinct(init);
      assert s == init + [s[|s| - 1]];
      Insert(SortStrings(init), s[|s| - 1])
  }

  /** The keys of `data`, ascending. The keys are first collected in the map's
      (arbitrary) iteration order, then sorted. */
  method SortedMetricKeys<T>(data: map<string, T>) returns (keys: seq<string>)
    ensures Ascending(keys)
    ensures Distinct(keys)
    ensures |keys| == |data|
    ensures forall k :: k in keys <==> k in data
  {
    var collected: seq<string> := [];
    var rest := data.Keys;
    while rest != {}
      invariant rest <= data.Keys
      invariant Distinct(collected)
      invariant forall k :: k in collected <==> k in data && k !in rest
      invariant |collected| + |rest| == |data|
      decreases rest
    {
      var k :| k in rest;
      collected := collected + [k];
      rest := rest - {k};
    }
    keys := SortStrings(collected);
    AscendingIsDistinct(keys);
  }

  /** Two ascending sequences with the same elements are equal. Hence the listing
      depends only on the key set: neither the values nor the map's iteration order
      can change it. */
  lemma {:induction false} AscendingUnique(x: seq<string>, y: seq<string>)
    requires Ascending(x) && Ascending(y)
    requires forall k :: k in x <==> k in y
    ensures x == y
    decreases |x|
  {
    AscendingIsDistinct(x);
    AscendingIsDistinct(y);
    DistinctCardinality(x);
    DistinctCardinality(y);
    assert Elems(x) == Elems(y);
    if x != [] {
      assert x[0] in x;
      assert y[0] in y;
      if x[0] != y[0] {
        var i :| 0 <= i < |x| && x[i] == y[0];
        var j :| 0 <= j < |y| && y[j] == x[0];
        assert i > 0 && j > 0;
        LessAsymmetric(x[0], x[i]);
      }
      assert x[0] == y[0];
      assert x == [x[0]] + x[1..] && y == [y[0]] + y[1..];
      forall k ensures k in x[1..] <==> k in y[1..] {
        if k in x[1..] {
          var i :| 1 <= i < |x| && x[i] == k;
          assert Less(x[0], k);
          LessIrreflexive(k);
          assert k in y && k != y[0];
        }
        if k in y[1..] {
          var i :| 1 <= i < |y| && y[i] == k;
          assert Less(y[0], k);
          LessIrreflexive(k);
          assert k in x && k != x[0];
        }
      }
      AscendingUnique(x[1..], y[1..]);
    }
  }
}
