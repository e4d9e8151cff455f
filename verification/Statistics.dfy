/**
 Median by in-place exchange sort, deviation about the median, and the bound on how many values can
 lie beyond a multiple of that deviation (internal/fl/rounds.go).
 */
module Statistics {
  import opened Sums

  ghost predicate Sorted(s: seq<real>) {
    forall i, j :: 0 <= i < j < |s| ==> s[i] <= s[j]
  }

  /** The middle of a sorted sequence: its middle element, or the mean of the two middle ones. */
  function Middle(s: seq<real>): real {
    var mid := |s| / 2;
    if |s| == 0 then 0.0
    else if |s| % 2 == 1 then s[mid]
    else (s[mid - 1] + s[mid]) / 2.0
  }

  // ------------------------------------------------ the sorted rearrangement of a sequence

  function Insert(s: seq<real>, x: real): seq<real> {
    if s == [] || s[|s| - 1] <= x then s + [x]
    else Insert(s[..|s| - 1], x) + [s[|s| - 1]]
  }

  function SortOf(s: seq<real>): seq<real> {
    if s == [] then [] else Insert(SortOf(s[..|s| - 1]), s[|s| - 1])
  }

  lemma LastIsGreatest(s: seq<real>)
    requires Sorted(s) && s != []
    ensures forall x :: x in multiset(s) ==> x <= s[|s| - 1]
  {
    forall x | x in multiset(s)
      ensures x <= s[|s| - 1]
    {
      var i :| 0 <= i < |s| && s[i] == x;
    }
  }

  lemma MembersBelow(r: seq<real>, m: multiset<real>, top: real)
    requires multiset(r) == m && forall x :: x in m ==> x <= top
    ensures forall i :: 0 <= i < |r| ==> r[i] <= top
  {
    forall i | 0 <= i < |r|
      ensures r[i] <= top
    {
      assert r[i] in multiset(r);
    }
  }

  lemma DropLast(s: seq<real>)
    requires Sorted(s) && s != []
    ensures Sorted(s[..|s| - 1]) && multiset(s[..|s| - 1]) == multiset(s) - multiset{s[|s| - 1]}
  {
    assert s == s[..|s| - 1] + [s[|s| - 1]];
  }

  lemma AppendGreatest(r: seq<real>, x: real)
    requires Sorted(r) && forall i :: 0 <= i < |r| ==> r[i] <= x
    ensures Sorted(r + [x]) && multiset(r + [x]) == multiset(r) + multiset{x}
  {
  }

  lemma {:induction false} InsertSorts(s: seq<real>, x: real)
    requires Sorted(s)
    ensures Sorted(Insert(s, x)) && multiset(Insert(s, x)) == multiset(s) + multiset{x}
    decreases |s|
  {
    hide Sorted;
    if s == [] {
      AppendGreatest(s, x);
    } else {
      var n := |s| - 1;
      LastIsGreatest(s);
      DropLast(s);
      if s[n] <= x {
        MembersBelow(s, multiset(s), x);
        AppendGreatest(s, x);
      } else {
        InsertSorts(s[..n], x);
        var r := Insert(s[..n], x);
        MembersBelow(r, multiset(s[..n]) + multiset{x}, s[n]);
        AppendGreatest(r, s[n]);
      }
    }
  }

  lemma {:induction false} SortOfSorts(s: seq<real>)
    ensures Sorted(SortOf(s)) && multiset(SortOf(s)) == multiset(s)
    ensures |SortOf(s)| == |s|
    decreases |s|
  {
    if s != [] {
      var n := |s| - 1;
      SortOfSorts(s[..n]);
      InsertSorts(SortOf(s[..n]), s[n]);
      assert s == s[..n] + [s[n]];
    }
    assert |multiset(SortOf(s))| == |SortOf(s)|;
    assert |multiset(s)| == |s|;
  }

  lemma SameGreatest(s: seq<real>, t: seq<real>)
    requires Sorted(s) && Sorted(t) && multiset(s) == multiset(t)
    ensures |s| == |t| && (s != [] ==> s[|s| - 1] == t[|t| - 1])
  {
    hide Sorted;
    assert |multiset(s)| == |s| && |multiset(t)| == |t|;
    if s != [] {
      LastIsGreatest(s);
      LastIsGreatest(t);
      assert s[|s| - 1] in multiset(t) && t[|t| - 1] in multiset(s);
    }
  }

  /** A multiset of reals has only one sorted arrangement. */
  lemma {:induction false} SortedUnique(s: seq<real>, t: seq<real>)
    requires Sorted(s) && Sorted(t) && multiset(s) == multiset(t)
    ensures s == t
    decreases |s|
  {
    hide Sorted;
    SameGreatest(s, t);
    if s != [] {
      var n := |s| - 1;
      DropLast(s);
      DropLast(t);
      SortedUnique(s[..n], t[..n]);
      assert s == s[..n] + [s[n]] && t == t[..n] + [t[n]];
    }
  }

  function Median(s: seq<real>): real {
    Middle(SortOf(s))
  }

  /** The median does not depend on the order of the values. */
  lemma MedianReordered(s: seq<real>, t: seq<real>)
    requires multiset(s) == multiset(t)
    ensures Median(s) == Median(t)
  {
    SortOfSorts(s);
    SortOfSorts(t);
    SortedUnique(SortOf(s), SortOf(t));
  }

  // ------------------------------------------------ the exchange sort

  /** Nothing before position i exceeds anything from i on. */
  ghost predicate Below(s: seq<real>, i: int) {
    forall p, q :: 0 <= p < i <= q < |s| ==> s[p] <= s[q]
  }

  function Swapped(s: seq<real>, i: int, j: int): seq<real>
    requires 0 <= i < j < |s|
  {
    s[i := s[j]][j := s[i]]
  }

  lemma SwapKeeps(s: seq<real>, i: int, j: int)
    requires 0 <= i < j < |s| && Below(s, i)
    ensures multiset(Swapped(s, i, j)) == multiset(s)
    ensures Below(Swapped(s, i, j), i) && Swapped(s, i, j)[..i] == s[..i]
  {
  }

  method Swap(b: array<real>, i: int, j: int)
    requires 0 <= i < j < b.Length && Below(b[..], i) && b[j] < b[i]
    requires forall q :: i <= q < j ==> b[i] <= b[q]
    modifies b
    ensures b[..][..i] == old(b[..][..i]) && Below(b[..], i) && multiset(b[..]) == multiset(old(b[..]))
    ensures forall q :: i <= q < j + 1 ==> b[i] <= b[q]
  {
    hide Below;
    ghost var s := b[..];
    SwapKeeps(s, i, j);
    b[i], b[j] := b[j], b[i];
    assert b[..] == Swapped(s, i, j);
  }

  /** One pass of the inner loop: position i receives the least of what lies from i on. */
  method SelectInto(b: array<real>, i: int)
    requires 0 <= i < b.Length
    requires Sorted(b[..][..i]) && Below(b[..], i)
    modifies b
    ensures multiset(b[..]) == multiset(old(b[..]))
    ensures Sorted(b[..][..i + 1]) && Below(b[..], i + 1)
  {
    hide Below, Sorted;
    for j := i + 1 to b.Length
      invariant b[..][..i] == old(b[..][..i]) && Below(b[..], i)
      invariant multiset(b[..]) == multiset(old(b[..]))
      invariant forall q :: i <= q < j ==> b[i] <= b[q]
    {
      if b[j] < b[i] {
        Swap(b, i, j);
      }
    }
    ExtendSorted(b[..], i);
  }

  lemma ExtendSorted(s: seq<real>, i: int)
    requires 0 <= i < |s| && Sorted(s[..i]) && Below(s, i)
    requires forall q :: i <= q < |s| ==> s[i] <= s[q]
    ensures Sorted(s[..i + 1]) && Below(s, i + 1)
  {
    assert forall p :: 0 <= p < i ==> s[..i][p] == s[p];
  }

  method ExchangeSort(b: array<real>)
    modifies b
    ensures Sorted(b[..]) && multiset(b[..]) == multiset(old(b[..]))
  {
    for i := 0 to b.Length
      invariant Sorted(b[..][..i]) && Below(b[..], i)
      invariant multiset(b[..]) == multiset(old(b[..]))
    {
      SelectInto(b, i);
    }
    assert b[..][..b.Length] == b[..];
  }

  method Copy(a: array<real>) returns (b: array<real>)
    ensures fresh(b) && b[..] == a[..]
  {
    b := new real[a.Length](_ => 0.0);
    for i := 0 to a.Length
      invariant b[..i] == a[..i]
    {
      b[i] := a[i];
    }
  }

  /** Sorts a copy, so the caller's slice keeps its order. */
  method MedianFloat64(a: array<real>) returns (median: real)
    ensures median == Median(a[..]) && IsMedian(median, a[..])
    ensures a[..] == old(a[..])
  {
    hide IsMedian, SortOf, Sorted;
    MedianIsMedian(a[..]);
    SortOfSorts(a[..]);
    if a.Length == 0 {
      return 0.0;
    }
    var b := Copy(a);
    ExchangeSort(b);
    SortedUnique(b[..], SortOf(a[..]));
    var mid := b.Length / 2;
    if b.Length % 2 == 1 {
      return b[mid];
    }
    return (b[mid - 1] + b[mid]) / 2.0;
  }

  // ------------------------------------------------ how many values the median covers

  function AtMost(m: real): real -> bool {
    x => x <= m
  }

  function Exceeds(m: real): real -> bool {
    x => x > m
  }

  lemma {:induction false} FilterPrefix(s: seq<real>, p: real -> bool, n: nat)
    requires n <= |s| && forall i :: 0 <= i < n ==> p(s[i])
    ensures |Filter(s, p)| >= n
    decreases |s|
  {
    if n > 0 {
      FilterPrefix(s[..|s| - 1], p, if n == |s| then n - 1 else n);
    }
  }

  /** At least half of the values are at or below the median. */
  lemma MedianCoversHalf(s: seq<real>)
    ensures 2 * |Filter(s, AtMost(Median(s)))| >= |s|
  {
    SortOfSorts(s);
    var b, m := SortOf(s), Median(s);
    var n := (|b| + 1) / 2;
    assert forall i :: 0 <= i < n ==> b[i] <= m;
    FilterPrefix(b, AtMost(m), n);
    FilterPermutation(b, s, AtMost(m));
  }

  /** Half or more of the values are at or below lo, and half or more at or above hi. */
  ghost predicate Halves(s: seq<real>, lo: real, hi: real) {
    2 * |Filter(s, x => x <= lo)| >= |s| && 2 * |Filter(s, x => x >= hi)| >= |s|
  }

  /** Of an odd number of values, one that halves them; of an even number, the mean of two that do; zero of none. */
  ghost predicate IsMedian(m: real, s: seq<real>) {
    && (s == [] ==> m == 0.0)
    && (|s| % 2 == 1 ==> m in s && Halves(s, m, m))
    && (s != [] && |s| % 2 == 0 ==> exists lo, hi :: lo in s && hi in s && lo <= hi && 2.0 * m == lo + hi && Halves(s, lo, hi))
  }

  lemma {:induction false} FilterSuffix(s: seq<real>, p: real -> bool, n: nat)
    requires n <= |s| && forall i :: n <= i < |s| ==> p(s[i])
    ensures |Filter(s, p)| >= |s| - n
    decreases |s|
  {
    if n < |s| {
      FilterSuffix(s[..|s| - 1], p, n);
    }
  }

  /** In a sorted sequence the values at positions i and j halve it, if neither is past the middle. */
  lemma SortedHalves(b: seq<real>, s: seq<real>, i: nat, j: nat)
    requires Sorted(b) && multiset(b) == multiset(s) && |b| == |s|
    requires i < |b| && j < |b| && 2 * (i + 1) >= |b| && 2 * (|b| - j) >= |b|
    ensures Halves(s, b[i], b[j]) && b[i] in s && b[j] in s
  {
    var p: real -> bool, q: real -> bool := x => x <= b[i], x => x >= b[j];
    FilterPrefix(b, p, i + 1);
    FilterSuffix(b, q, j);
    FilterPermutation(b, s, p);
    FilterPermutation(b, s, q);
    FilterEqual(s, p, x => x <= b[i]);
    FilterEqual(s, q, x => x >= b[j]);
    assert b[i] in multiset(s) && b[j] in multiset(s);
  }

  lemma MedianIsMedian(s: seq<real>)
    ensures IsMedian(Median(s), s)
  {
    hide Sorted, Halves;
    SortOfSorts(s);
    var b := SortOf(s);
    var mid := |b| / 2;
    if |b| % 2 == 1 {
      SortedHalves(b, s, mid, mid);
    } else if |b| > 0 {
      SortedHalves(b, s, mid - 1, mid);
      assert b[mid - 1] <= b[mid] by { Neighbours(b, mid); }
    }
  }

  lemma Neighbours(b: seq<real>, i: nat)
    requires Sorted(b) && 0 < i < |b|
    ensures b[i - 1] <= b[i]
  {
  }

  // ------------------------------------------------ deviation about a centre

  function DevSq(mean: real): real -> real {
    x => (x - mean) * (x - mean)
  }

  /** The quantity under the root: squared deviations over n - 1. */
  function Variance(s: seq<real>, mean: real): (v: real)
    requires |s| >= 2
    ensures v >= 0.0 && v * (|s| - 1) as real == SumBy(s, DevSq(mean))
  {
    SumByNonNegative(s, DevSq(mean));
    SumBy(s, DevSq(mean)) / (|s| - 1) as real
  }

  method StddevFloat64(a: seq<real>, mean: real, sqrt: real -> real) returns (dev: real)
    requires IsSqrt(sqrt)
    ensures |a| < 2 ==> dev == 0.0
    ensures |a| >= 2 ==> dev == sqrt(Variance(a, mean)) && dev >= 0.0
    ensures |a| >= 2 ==> IsDeviation(dev, a, mean)
  {
    if |a| < 2 {
      return 0.0;
    }
    var sum := 0.0;
    for i := 0 to |a|
      invariant sum == SumBy(a[..i], DevSq(mean))
    {
      assert a[..i + 1] == a[..i] + [a[i]];
      SumByAppend(a[..i], a[i], DevSq(mean));
      var d := a[i] - mean;
      sum := sum + d * d;
    }
    assert a[..|a|] == a;
    VarianceIsDeviation(a, mean, sqrt);
    dev := sqrt(sum / (|a| - 1) as real);
  }

  /** The square of the deviation, times n - 1, is the sum of the squared distances from the centre. */
  ghost predicate IsDeviation(dev: real, s: seq<real>, mean: real) {
    dev >= 0.0 && dev * dev * (|s| - 1) as real == SumBy(s, (x: real) => (x - mean) * (x - mean))
  }

  lemma VarianceIsDeviation(s: seq<real>, mean: real, sqrt: real -> real)
    requires IsSqrt(sqrt) && |s| >= 2
    ensures IsDeviation(sqrt(Variance(s, mean)), s, mean)
  {
    SumByEqual(s, (x: real) => (x - mean) * (x - mean), DevSq(mean));
  }

  lemma VarianceReordered(s: seq<real>, t: seq<real>, mean: real)
    requires multiset(s) == multiset(t) && |s| >= 2
    ensures |t| == |s| && Variance(s, mean) == Variance(t, mean)
  {
    assert |multiset(s)| == |s| && |multiset(t)| == |t|;
    SumByPermutation(s, t, DevSq(mean));
  }

  // ------------------------------------------------ a Chebyshev bound

  lemma {:induction false} FarValues(s: seq<real>, mean: real, d: real)
    requires d >= 0.0
    ensures var r := |Filter(s, Exceeds(mean + d))|;
      SumBy(s, DevSq(mean)) >= r as real * (d * d)
      && (r >= 1 ==> SumBy(s, DevSq(mean)) > r as real * (d * d))
    decreases |s|
  {
    if s != [] {
      var n := |s| - 1;
      FarValues(s[..n], mean, d);
      FarValue(s[n], mean, d, |Filter(s[..n], Exceeds(mean + d))| as real);
    }
  }

  lemma FarValue(x: real, mean: real, d: real, r: real)
    requires d >= 0.0
    ensures DevSq(mean)(x) >= 0.0
    ensures x > mean + d ==> DevSq(mean)(x) > d * d
    ensures (r + 1.0) * (d * d) == r * (d * d) + d * d
  {
    var e := x - mean;
    if x > mean + d {
      SquareOrder(d, e);
    }
  }

  /** The value k deviations above the centre. */
  function Cutoff(mean: real, k: real, dev: real): real {
    mean + k * dev
  }

  /** About any centre, fewer than (n - 1) / k^2 of n values lie more than k deviations above it. */
  lemma FewFarValues(s: seq<real>, mean: real, k: real, dev: real)
    requires |s| >= 2 && k >= 0.0 && dev >= 0.0 && dev * dev == Variance(s, mean)
    ensures var r := |Filter(s, Exceeds(Cutoff(mean, k, dev)))|;
      r >= 1 ==> r as real * (k * k) < (|s| - 1) as real
  {
    hide Filter;
    var d := k * dev;
    assert d >= 0.0;
    FarValues(s, mean, d);
    var r := |Filter(s, Exceeds(mean + d))|;
    if r >= 1 {
      var n := (|s| - 1) as real;
      FarCount(n, r as real, k, dev, Variance(s, mean), d);
    }
  }

  lemma FarCount(n: real, r: real, k: real, dev: real, v: real, d: real)
    requires v == dev * dev && d == k * dev && v * n > r * (d * d)
    ensures r * (k * k) < n
  {
    var q := r * (k * k);
    assert d * d == (k * k) * v;
    assert r * (d * d) == q * v;
    assert v * (n - q) > 0.0;
    assert v >= 0.0;
  }
}
