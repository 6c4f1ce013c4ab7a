/** Python's `list.sort()` on a list of strings: an in-place sort under
    code-point lexicographic order, specified by a functional insertion sort.
    Any two sorted arrangements of the same strings are equal, so the result
    does not depend on the algorithm or on the original order. */
module StringSort {
  import opened PyString

  predicate Sorted(s: seq<string>) {
    forall p, q :: 0 <= p < q < |s| ==> LexLe(s[p], s[q])
  }

  /** `x` inserted before the first element it does not follow. */
  function Insert(x: string, s: seq<string>): (r: seq<string>)
    ensures multiset(r) == multiset(s) + multiset{x}
    ensures |r| == |s| + 1
  {
    if s == [] || LexLe(x, s[0]) then [x] + s
    else
      assert s == [s[0]] + s[1..];
      [s[0]] + Insert(x, s[1..])
  }

  /** The strings of `s` in ascending order. */
  function SortedCopy(s: seq<string>): (r: seq<string>)
    ensures multiset(r) == multiset(s)
    ensures |r| == |s|
  {
    if s == [] then []
    else
      assert s == s[..|s| - 1] + [s[|s| - 1]];
      Insert(s[|s| - 1], SortedCopy(s[..|s| - 1]))
  }

  /** The first element of a sorted list is below every element. */
  lemma SortedFirst(s: seq<string>, y: string)
    requires Sorted(s) && y in multiset(s)
    ensures LexLe(s[0], y)
  {
    var k :| 0 <= k < |s| && s[k] == y;
    if k == 0 {
      LexLeTotal(y, y);
    }
  }

  lemma {:induction false} InsertSorted(x: string, s: seq<string>)
    requires Sorted(s)
    ensures Sorted(Insert(x, s))
    decreases |s|
  {
    if s == [] {
    } else if LexLe(x, s[0]) {
      forall q | 0 <= q < |s| ensures LexLe(x, s[q]) {
        if q > 0 {
          LexLeTransitive(x, s[0], s[q]);
        }
      }
    } else {
      LexLeTotal(x, s[0]);
      var tail := s[1..];
      assert Sorted(tail);
      InsertSorted(x, tail);
      var r := Insert(x, tail);
      forall y | y in multiset(r) ensures LexLe(s[0], y) {
        if y != x {
          assert y in multiset(tail);
          assert y in multiset(s) by { assert s == [s[0]] + tail; }
          SortedFirst(s, y);
        }
      }
      forall q | 0 <= q < |r| ensures LexLe(s[0], r[q]) {
        assert r[q] in multiset(r);
      }
    }
  }

  /** The functional sort orders its input. */
  lemma {:induction false} SortedCopySorted(s: seq<string>)
    ensures Sorted(SortedCopy(s))
    decreases |s|
  {
    if s != [] {
      SortedCopySorted(s[..|s| - 1]);
      InsertSorted(s[|s| - 1], SortedCopy(s[..|s| - 1]));
    }
  }

  /** A sorted list is determined by its elements. */
  lemma {:induction false} SortedUnique(a: seq<string>, b: seq<string>)
    requires Sorted(a) && Sorted(b) && multiset(a) == multiset(b)
    ensures a == b
    decreases |a|
  {
    assert |a| == |multiset(a)| == |multiset(b)| == |b|;
    if a != [] {
      SortedFirst(b, a[0]);
      SortedFirst(a, b[0]);
      LexLeAntisymmetric(a[0], b[0]);
      SameTail(a, b);
      assert Sorted(a[1..]) && Sorted(b[1..]);
      SortedUnique(a[1..], b[1..]);
    }
  }

  lemma SameTail(a: seq<string>, b: seq<string>)
    requires a != [] && b != [] && a[0] == b[0] && multiset(a) == multiset(b)
    ensures multiset(a[1..]) == multiset(b[1..])
  {
    assert a == [a[0]] + a[1..] && b == [b[0]] + b[1..];
    assert multiset(a[1..]) == multiset(a) - multiset{a[0]};
    assert multiset(b[1..]) == multiset(b) - multiset{b[0]};
  }

  /** Any sorted rearrangement of `s` is the functional sort of `s`. */
  lemma SortedIsSortedCopy(s: seq<string>, r: seq<string>)
    requires Sorted(r) && multiset(r) == multiset(s)
    ensures r == SortedCopy(s)
  {
    SortedCopySorted(s);
    SortedUnique(r, SortedCopy(s));
  }

  /** Sorting forgets the original order. */
  lemma SortedCopyOrderFree(s: seq<string>, t: seq<string>)
    requires multiset(s) == multiset(t)
    ensures SortedCopy(s) == SortedCopy(t)
  {
    SortedCopySorted(s);
    SortedIsSortedCopy(t, SortedCopy(s));
  }

  /** One pass of insertion sort: `a[i]` moved down by adjacent swaps to its
      place in the sorted prefix `a[..i]`. */
  method SinkInto(a: array<string>, i: nat)
    requires i < a.Length
    requires forall p, q :: 0 <= p < q < i ==> LexLe(a[p], a[q])
    modifies a
    ensures forall p, q :: 0 <= p < q <= i ==> LexLe(a[p], a[q])
    ensures multiset(a[..]) == multiset(old(a[..]))
  {
    var j := i;
    while j > 0 && !LexLe(a[j - 1], a[j])
      invariant 0 <= j <= i
      invariant forall p, q :: 0 <= p < q <= i && p != j && q != j ==> LexLe(a[p], a[q])
      invariant forall q :: j < q <= i ==> LexLe(a[j], a[q])
      invariant multiset(a[..]) == multiset(old(a[..]))
    {
      LexLeTotal(a[j - 1], a[j]);
      a[j - 1], a[j] := a[j], a[j - 1];
      j := j - 1;
    }
    if j > 0 {
      forall p | 0 <= p < j - 1 ensures LexLe(a[p], a[j]) {
        LexLeTransitive(a[p], a[j - 1], a[j]);
      }
    }
  }

  /** `a.sort()`: insertion sort by adjacent swaps. */
  method SortInPlace(a: array<string>)
    modifies a
    ensures a[..] == SortedCopy(old(a[..]))
  {
    ghost var original := a[..];
    var i := 0;
    while i < a.Length
      invariant 0 <= i <= a.Length
      invariant forall p, q :: 0 <= p < q < i ==> LexLe(a[p], a[q])
      invariant multiset(a[..]) == multiset(original)
    {
      SinkInto(a, i);
      i := i + 1;
    }
    SortedIsSortedCopy(original, a[..]);
  }
}
