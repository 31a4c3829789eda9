/** The controller's default ordering of results: a stable sort of a copy of the
    results by `compareTo`. */
module ResultSorting {
  import opened Wrappers
  import opened GeocodedLocations

  /** `a.compareTo(b) <= 0`. */
  predicate NotAfter(a: Location, b: Location)
  {
    CompareTo(a, Some(b)) <= 0
  }

  /** Non-decreasing under `compareTo`, neighbour by neighbour. */
  ghost predicate Sorted(s: seq<Location>)
  {
    forall i :: 0 < i < |s| ==> NotAfter(s[i - 1], s[i])
  }

  /** Insert `x` before the first element it is not after. */
  function Insert(x: Location, s: seq<Location>): (r: seq<Location>)
    ensures |r| == |s| + 1
    ensures multiset(r) == multiset(s) + multiset{x}
    ensures r[0] == x || (s != [] && r[0] == s[0])
    ensures Sorted(s) ==> Sorted(r)
  {
    if s == [] then [x]
    else if NotAfter(x, s[0]) then [x] + s
    else
      CompareToAntisymmetric(x, s[0]);
      assert s == [s[0]] + s[1..];
      [s[0]] + Insert(x, s[1..])
  }

  /** `sortResults`: a sorted permutation of its input. The input itself is a
      value and is left as it was. */
  function SortResults(results: seq<Location>): (r: seq<Location>)
    ensures |r| == |results|
    ensures multiset(r) == multiset(results)
    ensures Sorted(r)
  {
    if results == [] then []
    else
      assert results == [results[0]] + results[1..];
      Insert(results[0], SortResults(results[1..]))
  }

  /** Neighbour order extends to every pair, because `compareTo` is transitive. */
  lemma SortedPairwise(s: seq<Location>)
    requires Sorted(s)
    ensures forall i, j :: 0 <= i <= j < |s| ==> NotAfter(s[i], s[j])
  {
    forall i, j | 0 <= i <= j < |s|
      ensures NotAfter(s[i], s[j])
    {
      SortedPair(s, i, j);
    }
  }

  /** One pair at a time, by induction on the distance between the two. */
  lemma {:induction false} SortedPair(s: seq<Location>, i: nat, j: nat)
    requires Sorted(s) && i <= j < |s|
    ensures NotAfter(s[i], s[j])
    decreases j - i
  {
    if i == j {
      CompareToReflexive(s[i]);
    } else {
      SortedPair(s, i, j - 1);
      assert NotAfter(s[j - 1], s[j]);
      CompareToTransitive(s[i], s[j - 1], s[j]);
    }
  }

  /** In a sorted list every record with a display string comes before every
      record without one, and the display strings never descend in UTF-16 code-unit order. */
  lemma SortedDisplayOrder(s: seq<Location>)
    requires Sorted(s)
    ensures forall i, j :: 0 <= i < j < |s| && DisplayString(s[i]).None? ==> DisplayString(s[j]).None?
    ensures forall i, j :: 0 <= i < j < |s| && DisplayString(s[i]).Some? && DisplayString(s[j]).Some? ==>
      !LexLess(Utf16(DisplayString(s[j]).value), Utf16(DisplayString(s[i]).value))
  {
    SortedPairwise(s);
    forall i, j | 0 <= i < j < |s| && DisplayString(s[i]).Some? && DisplayString(s[j]).Some?
      ensures !LexLess(Utf16(DisplayString(s[j]).value), Utf16(DisplayString(s[i]).value))
    {
      var a, b := DisplayString(s[i]).value, DisplayString(s[j]).value;
      assert NotAfter(s[i], s[j]);
      assert StringCompare(a, b) <= 0;
      StringCompareAntisymmetric(a, b);
      assert StringCompare(b, a) >= 0;
    }
  }
}
