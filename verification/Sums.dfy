/**
 Finite sums over sequences and sets, filtering, and the square root the coordinator takes
 from Go's math package. Floating point is idealised to `real`: no rounding, NaN or infinity.
 */
module Sums {

  /** `math.Sqrt` over the reals: the non-negative root of every non-negative argument. */
  ghost predicate IsSqrt(f: real -> real) {
    forall v: real :: v >= 0.0 ==> f(v) >= 0.0 && f(v) * f(v) == v
  }

  /** Non-negative reals are ordered as their squares are. */
  lemma SquareOrder(a: real, b: real)
    requires a >= 0.0 && b >= 0.0
    ensures a <= b <==> a * a <= b * b
    ensures a < b <==> a * a < b * b
  {
    var d := b - a;
    assert b * b - a * a == d * (a + b);
    if d > 0.0 {
      assert a + b > 0.0;
      assert d * (a + b) > 0.0;
    } else if d < 0.0 {
      assert (-d) * (a + b) > 0.0;
      assert d * (a + b) < 0.0;
    }
  }

  // ---------------------------------------------------------------- sequences

  /** Sum of f over a sequence, accumulated left to right as the source's loops do. */
  function SumBy<T>(s: seq<T>, f: T -> real): real {
    if s == [] then 0.0 else SumBy(s[..|s| - 1], f) + f(s[|s| - 1])
  }

  lemma SumByAppend<T>(s: seq<T>, x: T, f: T -> real)
    ensures SumBy(s + [x], f) == SumBy(s, f) + f(x)
  {
    assert (s + [x])[..|s|] == s;
  }

  lemma {:induction false} SumByConcat<T>(s: seq<T>, t: seq<T>, f: T -> real)
    ensures SumBy(s + t, f) == SumBy(s, f) + SumBy(t, f)
    decreases |t|
  {
    if t == [] {
      assert s + t == s;
    } else {
      var n := |t| - 1;
      assert s + t == (s + t[..n]) + [t[n]];
      SumByConcat(s, t[..n], f);
      SumByAppend(s + t[..n], t[n], f);
    }
  }

  /** Removing the element at any index removes exactly its term. */
  lemma SumByRemove<T>(s: seq<T>, i: nat, f: T -> real)
    requires i < |s|
    ensures SumBy(s, f) == SumBy(s[..i] + s[i + 1..], f) + f(s[i])
  {
    hide SumBy;
    assert s == s[..i] + [s[i]] + s[i + 1..];
    SumByConcat(s[..i] + [s[i]], s[i + 1..], f);
    SumByAppend(s[..i], s[i], f);
    SumByConcat(s[..i], s[i + 1..], f);
  }

  /** A finite sum does not depend on the order of its terms. */
  lemma {:induction false} SumByPermutation<T>(s: seq<T>, t: seq<T>, f: T -> real)
    requires multiset(s) == multiset(t)
    ensures SumBy(s, f) == SumBy(t, f)
    decreases |s|
  {
    if s == [] {
      assert |multiset(t)| == |t|;
      assert t == [];
    } else {
      var x := s[|s| - 1];
      assert x in multiset(t);
      var i :| 0 <= i < |t| && t[i] == x;
      var s', t' := s[..|s| - 1], t[..i] + t[i + 1..];
      assert s == s' + [x];
      assert t == t[..i] + [x] + t[i + 1..];
      assert multiset(s') == multiset(s) - multiset{x};
      assert multiset(t') == multiset(t) - multiset{x};
      SumByPermutation(s', t', f);
      SumByRemove(t, i, f);
    }
  }

  lemma {:induction false} SumByNonNegative<T>(s: seq<T>, f: T -> real)
    requires forall x :: x in s ==> f(x) >= 0.0
    ensures SumBy(s, f) >= 0.0
    decreases |s|
  {
    if s != [] {
      SumByNonNegative(s[..|s| - 1], f);
    }
  }

  lemma {:induction false} SumByEqual<T>(s: seq<T>, f: T -> real, g: T -> real)
    requires forall x :: x in s ==> f(x) == g(x)
    ensures SumBy(s, f) == SumBy(s, g)
    decreases |s|
  {
    if s != [] {
      SumByEqual(s[..|s| - 1], f, g);
    }
  }

  function Square(x: real): real {
    x * x
  }

  function SumSq(s: seq<real>): (r: real)
    ensures r >= 0.0
  {
    SumByNonNegative(s, Square);
    SumBy(s, Square)
  }

  // ---------------------------------------------------------------- filtering

  function Filter<T>(s: seq<T>, p: T -> bool): seq<T> {
    if s == [] then []
    else Filter(s[..|s| - 1], p) + (if p(s[|s| - 1]) then [s[|s| - 1]] else [])
  }

  lemma FilterAppend<T>(s: seq<T>, x: T, p: T -> bool)
    ensures Filter(s + [x], p) == Filter(s, p) + (if p(x) then [x] else [])
  {
    assert (s + [x])[..|s|] == s;
  }

  /** Filtering keeps every occurrence of an element that passes and none of one that does not. */
  lemma {:induction false} FilterMultiplicity<T>(s: seq<T>, p: T -> bool, x: T)
    ensures multiset(Filter(s, p))[x] == if p(x) then multiset(s)[x] else 0
    decreases |s|
  {
    if s != [] {
      var n := |s| - 1;
      FilterMultiplicity(s[..n], p, x);
      assert s == s[..n] + [s[n]];
    }
  }

  lemma FilterMember<T>(s: seq<T>, p: T -> bool, x: T)
    ensures x in Filter(s, p) <==> x in s && p(x)
  {
    FilterMultiplicity(s, p, x);
    assert x in Filter(s, p) <==> x in multiset(Filter(s, p));
    assert x in s <==> x in multiset(s);
  }

  /** The two halves of a split account for every element. */
  lemma {:induction false} FilterSplit<T>(s: seq<T>, p: T -> bool, q: T -> bool)
    requires forall x :: x in s ==> (p(x) <==> !q(x))
    ensures |Filter(s, p)| + |Filter(s, q)| == |s|
    decreases |s|
  {
    if s != [] {
      FilterSplit(s[..|s| - 1], p, q);
    }
  }

  /** Filtering keeps the order: the kept elements sit at increasing positions of the original. */
  lemma {:induction false} FilterInOrder<T>(s: seq<T>, p: T -> bool) returns (at: seq<nat>)
    ensures |at| == |Filter(s, p)|
    ensures forall i :: 0 <= i < |at| ==> at[i] < |s| && s[at[i]] == Filter(s, p)[i]
    ensures forall i, j :: 0 <= i < j < |at| ==> at[i] < at[j]
    decreases |s|
  {
    at := [];
    if s != [] {
      var n := |s| - 1;
      at := FilterInOrder(s[..n], p);
      if p(s[n]) {
        at := at + [n];
      }
    }
  }

  lemma FilterPermutation<T(!new)>(s: seq<T>, t: seq<T>, p: T -> bool)
    requires multiset(s) == multiset(t)
    ensures multiset(Filter(s, p)) == multiset(Filter(t, p))
    ensures |Filter(s, p)| == |Filter(t, p)|
  {
    forall x: T
      ensures multiset(Filter(s, p))[x] == multiset(Filter(t, p))[x]
    {
      FilterMultiplicity(s, p, x);
      FilterMultiplicity(t, p, x);
    }
    assert |multiset(Filter(s, p))| == |Filter(s, p)|;
    assert |multiset(Filter(t, p))| == |Filter(t, p)|;
  }

  /** Filtering never lengthens, and what keeps its length is unchanged. */
  lemma {:induction false} FilterShorter<T>(s: seq<T>, p: T -> bool)
    ensures |Filter(s, p)| <= |s|
    ensures |Filter(s, p)| == |s| ==> Filter(s, p) == s
    decreases |s|
  {
    if s != [] {
      FilterShorter(s[..|s| - 1], p);
    }
  }

  lemma {:induction false} FilterMonotone<T>(s: seq<T>, p: T -> bool, q: T -> bool)
    requires forall x :: x in s && p(x) ==> q(x)
    ensures |Filter(s, p)| <= |Filter(s, q)|
    decreases |s|
  {
    if s != [] {
      FilterMonotone(s[..|s| - 1], p, q);
    }
  }

  lemma {:induction false} FilterEqual<T>(s: seq<T>, p: T -> bool, q: T -> bool)
    requires forall x :: x in s ==> (p(x) <==> q(x))
    ensures Filter(s, p) == Filter(s, q)
    decreases |s|
  {
    if s != [] {
      FilterEqual(s[..|s| - 1], p, q);
    }
  }

  // ---------------------------------------------------------------- mapping

  function Map<T, U>(s: seq<T>, f: T -> U): (r: seq<U>)
    ensures |r| == |s|
    ensures forall i :: 0 <= i < |s| ==> r[i] == f(s[i])
  {
    seq(|s|, i requires 0 <= i < |s| => f(s[i]))
  }

  /** Mapping a rearrangement gives a rearrangement of the mapping. */
  lemma {:induction false} MapPermutation<T, U>(s: seq<T>, t: seq<T>, f: T -> U)
    requires multiset(s) == multiset(t)
    ensures multiset(Map(s, f)) == multiset(Map(t, f))
    decreases |s|
  {
    if s == [] {
      assert |multiset(t)| == |t|;
      assert t == [];
    } else {
      var n := |s| - 1;
      var x := s[n];
      assert x in multiset(t);
      var i :| 0 <= i < |t| && t[i] == x;
      var s', t' := s[..n], t[..i] + t[i + 1..];
      RemoveMultiset(s, n);
      RemoveMultiset(t, i);
      assert s[..n] + s[n + 1..] == s';
      MapPermutation(s', t', f);
      MapRemove(s, n, f);
      MapRemove(t, i, f);
    }
  }

  lemma MapRemove<T, U>(s: seq<T>, i: nat, f: T -> U)
    requires i < |s|
    ensures multiset(Map(s, f)) == multiset(Map(s[..i] + s[i + 1..], f)) + multiset{f(s[i])}
  {
    RemoveMultiset(Map(s, f), i);
    assert Map(s, f)[..i] + Map(s, f)[i + 1..] == Map(s[..i] + s[i + 1..], f);
  }

  lemma RemoveMultiset<T>(s: seq<T>, i: nat)
    requires i < |s|
    ensures multiset(s) == multiset(s[..i] + s[i + 1..]) + multiset{s[i]}
    ensures multiset(s[..i] + s[i + 1..]) == multiset(s) - multiset{s[i]}
  {
    assert s == s[..i] + [s[i]] + s[i + 1..];
  }

  // ---------------------------------------------------------------- sets

  /** Sum of f over a finite set. Go visits map keys in an unspecified order, and so does this. */
  ghost function SumOver<T>(S: set<T>, f: T -> real): real {
    if S == {} then 0.0 else
      var x :| x in S;
      f(x) + SumOver(S - {x}, f)
  }

  /** Whichever element is visited first, the total is the same. */
  lemma {:induction false} SumOverRemove<T>(S: set<T>, f: T -> real, x: T)
    requires x in S
    ensures SumOver(S, f) == f(x) + SumOver(S - {x}, f)
    decreases S
  {
    var y :| y in S && SumOver(S, f) == f(y) + SumOver(S - {y}, f);
    if y != x {
      SumOverRemove(S - {y}, f, x);
      SumOverRemove(S - {x}, f, y);
      assert S - {y} - {x} == S - {x} - {y};
    }
  }

  lemma SumOverAdd<T>(S: set<T>, f: T -> real, x: T)
    requires x !in S
    ensures SumOver(S + {x}, f) == SumOver(S, f) + f(x)
  {
    SumOverRemove(S + {x}, f, x);
    assert S + {x} - {x} == S;
  }

  /** Terms bounded by a linear combination of two others have a sum so bounded. */
  lemma {:induction false} SumOverDominated<T>(S: set<T>, f: T -> real, g: T -> real, h: T -> real, a: real, b: real)
    requires forall x :: x in S ==> f(x) <= a * g(x) + b * h(x)
    ensures SumOver(S, f) <= a * SumOver(S, g) + b * SumOver(S, h)
    decreases S
  {
    if S != {} {
      var x :| x in S;
      SumOverDominated(S - {x}, f, g, h, a, b);
      SumOverRemove(S, f, x);
      SumOverRemove(S, g, x);
      SumOverRemove(S, h, x);
      var G, H := SumOver(S - {x}, g), SumOver(S - {x}, h);
      assert a * (g(x) + G) == a * g(x) + a * G;
      assert b * (h(x) + H) == b * h(x) + b * H;
    }
  }

  lemma {:induction false} SumOverScaled<T>(S: set<T>, f: T -> real, g: T -> real, a: real)
    requires forall x :: x in S ==> f(x) == a * g(x)
    ensures SumOver(S, f) == a * SumOver(S, g)
    decreases S
  {
    if S != {} {
      var x :| x in S;
      SumOverScaled(S - {x}, f, g, a);
      SumOverRemove(S, f, x);
      SumOverRemove(S, g, x);
      assert a * (g(x) + SumOver(S - {x}, g)) == a * g(x) + a * SumOver(S - {x}, g);
    }
  }

  lemma {:induction false} SumOverAtMost<T>(S: set<T>, f: T -> real, g: T -> real)
    requires forall x :: x in S ==> f(x) <= g(x)
    ensures SumOver(S, f) <= SumOver(S, g)
    decreases S
  {
    if S != {} {
      var x :| x in S;
      SumOverAtMost(S - {x}, f, g);
      SumOverRemove(S, f, x);
      SumOverRemove(S, g, x);
    }
  }

  lemma {:induction false} SumOverEqual<T>(S: set<T>, f: T -> real, g: T -> real)
    requires forall x :: x in S ==> f(x) == g(x)
    ensures SumOver(S, f) == SumOver(S, g)
    decreases S
  {
    if S != {} {
      var x :| x in S;
      SumOverEqual(S - {x}, f, g);
      SumOverRemove(S, f, x);
      SumOverRemove(S, g, x);
    }
  }

  lemma {:induction false} SumOverNonNegative<T>(S: set<T>, f: T -> real)
    requires forall x :: x in S ==> f(x) >= 0.0
    ensures SumOver(S, f) >= 0.0
    decreases S
  {
    if S != {} {
      var x :| x in S;
      SumOverNonNegative(S - {x}, f);
      SumOverRemove(S, f, x);
    }
  }

  /** Elements contributing nothing may be left out. */
  lemma {:induction false} SumOverSupport<T>(S: set<T>, R: set<T>, f: T -> real)
    requires R <= S
    requires forall x :: x in S - R ==> f(x) == 0.0
    ensures SumOver(S, f) == SumOver(R, f)
    decreases S
  {
    if S - R == {} {
      assert S == R + (S - R) == R;
    } else {
      var x :| x in S - R;
      SumOverSupport(S - {x}, R, f);
      SumOverRemove(S, f, x);
    }
  }

  /** Changing the term of one element changes the sum by the difference. */
  lemma SumOverUpdate<T>(S: set<T>, f: T -> real, g: T -> real, x: T)
    requires x in S && forall y :: y in S && y != x ==> f(y) == g(y)
    ensures SumOver(S, g) == SumOver(S, f) - f(x) + g(x)
  {
    SumOverRemove(S, f, x);
    SumOverRemove(S, g, x);
    SumOverEqual(S - {x}, f, g);
  }
}
