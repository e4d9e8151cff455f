/**
 Gradient blobs, their L2 norm and clipping (internal/fl/rounds.go). A decoded msgpack blob is a
 map of dynamically typed values; a gradient is a map of arrays. Maps may have any keys and arrays
 any lengths. Float32 narrowing is not modelled.
 */
module Gradients {
  import opened Options
  import opened Sums

  /** The dynamic types the decoder can produce, as far as `toFloat64` tells them apart. */
  datatype Value =
    | Float64(f: real)
    | Float32(f: real)
    | Int(i: int)
    | Int32(i: int)
    | Array(elems: seq<Value>)
    | Other

  type Blob = map<string, Value>
  type GradMap = map<string, seq<real>>

  function ToFloat64(x: Value): Option<real> {
    match x
    case Float64(f) => Some(f)
    case Float32(f) => Some(f)
    case Int(i) => Some(i as real)
    case Int32(i) => Some(i as real)
    case Array(_) => None
    case Other => None
  }

  /** An element that is not a number stays at the zero its slot was allocated with. */
  function Slot(x: Value): real {
    match ToFloat64(x)
    case Some(f) => f
    case None => 0.0
  }

  function SlotSq(x: Value): real {
    match ToFloat64(x)
    case Some(f) => f * f
    case None => 0.0
  }

  function Slots(elems: seq<Value>): seq<real> {
    seq(|elems|, i requires 0 <= i < |elems| => Slot(elems[i]))
  }

  /** The gradient a blob stands for: its array entries, element by element. */
  function GradOf(raw: Blob): GradMap {
    map k | k in raw && raw[k].Array? :: Slots(raw[k].elems)
  }

  function KeySq(m: GradMap): string -> real {
    k => if k in m then SumSq(m[k]) else 0.0
  }

  function BlobSq(raw: Blob): string -> real {
    k => if k in raw && raw[k].Array? then SumBy(raw[k].elems, SlotSq) else 0.0
  }

  /** Squared L2 norm of a gradient. */
  ghost function NormSq(m: GradMap): (r: real)
    ensures r >= 0.0
  {
    SumOverNonNegative(m.Keys, KeySq(m));
    SumOver(m.Keys, KeySq(m))
  }

  // ------------------------------------------------ what is measured and what is averaged

  lemma {:induction false} SlotsSumSq(elems: seq<Value>)
    ensures SumBy(elems, SlotSq) == SumSq(Slots(elems))
    decreases |elems|
  {
    if elems != [] {
      var n := |elems| - 1;
      SlotsSumSq(elems[..n]);
      assert Slots(elems)[..n] == Slots(elems[..n]);
    }
  }

  /** The sum of squares read off a raw blob is the squared norm of the gradient it decodes to. */
  lemma MeasuredIsAveraged(raw: Blob)
    ensures SumOver(raw.Keys, BlobSq(raw)) == NormSq(GradOf(raw))
  {
    var g := GradOf(raw);
    assert g.Keys <= raw.Keys;
    forall k | k in raw.Keys
      ensures BlobSq(raw)(k) == KeySq(g)(k)
    {
      if raw[k].Array? {
        SlotsSumSq(raw[k].elems);
      }
    }
    SumOverEqual(raw.Keys, BlobSq(raw), KeySq(g));
    SumOverSupport(raw.Keys, g.Keys, KeySq(g));
  }

  /** The inner loop of the norm: adds the squares of the numeric elements to a running sum. */
  method AddSquares(start: real, arr: seq<Value>) returns (sum: real)
    ensures sum == start + SumBy(arr, SlotSq)
  {
    sum := start;
    for i := 0 to |arr|
      invariant sum == start + SumBy(arr[..i], SlotSq)
    {
      assert arr[..i + 1] == arr[..i] + [arr[i]];
      SumByAppend(arr[..i], arr[i], SlotSq);
      match ToFloat64(arr[i])
      case Some(f) => sum := sum + f * f;
      case None =>
    }
    assert arr[..|arr|] == arr;
  }

  /** The outer loop of the norm: keys in any order, entries that are not arrays skipped. */
  method SumSquares(m: Blob) returns (sum: real)
    ensures sum == NormSq(GradOf(m))
  {
    sum := 0.0;
    var keys := m.Keys;
    while keys != {}
      invariant keys <= m.Keys
      invariant sum == SumOver(m.Keys - keys, BlobSq(m))
      decreases keys
    {
      var k :| k in keys;
      if m[k].Array? {
        sum := AddSquares(sum, m[k].elems);
      }
      SumOverAdd(m.Keys - keys, BlobSq(m), k);
      assert m.Keys - (keys - {k}) == m.Keys - keys + {k};
      keys := keys - {k};
    }
    assert m.Keys - {} == m.Keys;
    MeasuredIsAveraged(m);
  }

  /** The norm the anomaly filter measures is the norm of the gradient that will be averaged. */
  method L2NormFromMap(m: Blob, sqrt: real -> real) returns (norm: real)
    requires IsSqrt(sqrt)
    ensures norm == sqrt(NormSq(GradOf(m)))
    ensures norm >= 0.0 && norm * norm == NormSq(GradOf(m))
  {
    hide NormSq, GradOf;
    var sum := SumSquares(m);
    norm := sqrt(sum);
  }

  // ------------------------------------------------ gradients held in arrays

  type GradArrays = map<string, array<real>>

  ghost function Arrays(m: GradArrays): set<object> {
    set k | k in m :: m[k]
  }

  /** No array is stored under two keys. */
  ghost predicate Separate(m: GradArrays) {
    forall k, k' :: k in m && k' in m && k != k' ==> m[k] != m[k']
  }

  ghost function View(m: GradArrays): GradMap
    reads Arrays(m)
  {
    map k | k in m :: m[k][..]
  }

  /** Allocates one array per array entry of the blob; other entries are dropped. */
  method ToGradMap(raw: Blob) returns (out: GradArrays)
    ensures fresh(Arrays(out)) && Separate(out)
    ensures View(out) == GradOf(raw)
    ensures forall k :: k in out <==> k in raw && raw[k].Array?
    ensures forall k :: k in out ==> out[k].Length == |raw[k].elems|
    ensures forall k, i :: k in out && 0 <= i < out[k].Length ==> Stands(out[k][i], raw[k].elems[i])
  {
    hide Stands, Slot;
    var keys := raw.Keys;
    out := map[];
    while keys != {}
      invariant keys <= raw.Keys
      invariant fresh(Arrays(out)) && Separate(out)
      invariant out.Keys == set k | k in raw.Keys - keys && raw[k].Array?
      invariant forall k :: k in out ==> out[k][..] == Slots(raw[k].elems)
      decreases keys
    {
      var k :| k in keys;
      if raw[k].Array? {
        var fs := FillSlots(raw[k].elems);
        assert forall k' :: k' in out ==> out[k'] in Arrays(out);
        out := out[k := fs];
      }
      keys := keys - {k};
    }
    assert View(out).Keys == GradOf(raw).Keys;
    SlotsStand(raw);
    assert forall k, i :: k in out && 0 <= i < out[k].Length ==> out[k][i] == out[k][..][i];
  }

  lemma SlotsStand(raw: Blob)
    ensures forall k, i :: k in raw && raw[k].Array? && 0 <= i < |raw[k].elems| ==> Stands(Slots(raw[k].elems)[i], raw[k].elems[i])
  {
  }

  /** The number an element stands for: its own value for every numeric type, and otherwise zero. */
  ghost predicate Stands(r: real, x: Value) {
    && (forall f :: x == Float64(f) || x == Float32(f) ==> r == f)
    && (forall n: int :: x == Int(n) || x == Int32(n) ==> r == n as real)
    && (x.Array? || x.Other? ==> r == 0.0)
  }

  method FillSlots(elems: seq<Value>) returns (fs: array<real>)
    ensures fresh(fs) && fs[..] == Slots(elems)
  {
    fs := new real[|elems|](_ => 0.0);
    for i := 0 to |elems|
      invariant forall j :: 0 <= j < i ==> fs[j] == Slot(elems[j])
      invariant forall j :: i <= j < |elems| ==> fs[j] == 0.0
    {
      match ToFloat64(elems[i])
      case Some(f) => fs[i] := f;
      case None =>
    }
  }

  // ------------------------------------------------ clipping

  function Times(x: real, c: real): real {
    x * c
  }

  function ScaleSeq(s: seq<real>, c: real): (r: seq<real>)
    ensures |r| == |s|
    ensures forall i :: 0 <= i < |s| ==> r[i] == Times(s[i], c)
  {
    seq(|s|, i requires 0 <= i < |s| => Times(s[i], c))
  }

  function Scale(m: GradMap, c: real): GradMap {
    map k | k in m :: ScaleSeq(m[k], c)
  }

  /** The gradient as it is averaged: scaled down to norm c when its norm exceeds c. */
  ghost function Clipped(m: GradMap, c: real, sqrt: real -> real): GradMap {
    var norm := sqrt(NormSq(m));
    if norm <= c || norm == 0.0 then m else Scale(m, c / norm)
  }

  lemma TimesSq(x: real, c: real, rest: real)
    ensures Square(Times(x, c)) == c * c * Square(x)
    ensures c * c * (rest + Square(x)) == c * c * rest + c * c * Square(x)
  {
    assert (x * c) * (x * c) == (c * c) * (x * x);
  }

  lemma {:induction false} ScaleSumSq(s: seq<real>, c: real)
    ensures SumSq(ScaleSeq(s, c)) == c * c * SumSq(s)
    decreases |s|
  {
    if s != [] {
      var n := |s| - 1;
      ScaleSumSq(s[..n], c);
      assert ScaleSeq(s, c)[..n] == ScaleSeq(s[..n], c);
      TimesSq(s[n], c, SumSq(s[..n]));
    }
  }

  lemma ScaleKey(m: GradMap, c: real, a: real, k: string)
    requires a == c * c && k in m
    ensures KeySq(Scale(m, c))(k) == a * KeySq(m)(k)
  {
    ScaleSumSq(m[k], c);
  }

  lemma {:induction false} ScaleKeys(K: set<string>, m: GradMap, c: real, a: real)
    requires a == c * c && K <= m.Keys
    ensures SumOver(K, KeySq(Scale(m, c))) == a * SumOver(K, KeySq(m))
    decreases K
  {
    hide Scale, KeySq, Square;
    if K != {} {
      var k :| k in K;
      var f, g := KeySq(Scale(m, c)), KeySq(m);
      ScaleKeys(K - {k}, m, c, a);
      SumOverRemove(K, f, k);
      SumOverRemove(K, g, k);
      ScaleKey(m, c, a, k);
      AddScaled(a, g(k), SumOver(K - {k}, g));
    }
  }

  lemma AddScaled(a: real, x: real, y: real)
    ensures a * (x + y) == a * x + a * y
  {
  }

  lemma SameKeys(z: GradMap, m: GradMap, a: real)
    requires z.Keys == m.Keys
    requires SumOver(m.Keys, KeySq(z)) == a * SumOver(m.Keys, KeySq(m))
    ensures NormSq(z) == a * NormSq(m)
  {
  }

  lemma ScaleNormSq(m: GradMap, c: real, a: real)
    requires a == c * c
    ensures NormSq(Scale(m, c)) == a * NormSq(m)
  {
    ScaleKeys(m.Keys, m, c, a);
    SameKeys(Scale(m, c), m, a);
  }

  /** Clipping leaves a gradient within the bound alone. */
  lemma ClippedInside(m: GradMap, c: real, sqrt: real -> real)
    requires IsSqrt(sqrt) && c >= 0.0 && NormSq(m) <= c * c
    ensures Clipped(m, c, sqrt) == m
  {
    SquareOrder(sqrt(NormSq(m)), c);
  }

  /** Clipping shrinks a gradient outside the bound along its own direction, exactly onto the bound. */
  lemma ClippedOutside(m: GradMap, c: real, sqrt: real -> real) returns (t: real)
    requires IsSqrt(sqrt) && c >= 0.0 && NormSq(m) > c * c
    ensures 0.0 <= t <= 1.0 && t * sqrt(NormSq(m)) == c && Clipped(m, c, sqrt) == Scale(m, t)
    ensures NormSq(Clipped(m, c, sqrt)) == c * c
  {
    hide Scale, NormSq;
    var norm := sqrt(NormSq(m));
    SquareOrder(norm, c);
    t := c / norm;
    var a := ClipFactor(NormSq(m), norm, c);
    ScaleNormSq(m, t, a);
  }

  /** z is m if that is within norm c, and otherwise m scaled by c over its norm, entry by entry. */
  ghost predicate IsClipping(z: GradMap, m: GradMap, c: real, norm: real) {
    && z.Keys == m.Keys
    && (forall k :: k in m ==> |z[k]| == |m[k]|)
    && (norm <= c ==> z == m)
    && (norm > c ==> forall k, j :: k in m && 0 <= j < |m[k]| ==> z[k][j] * norm == m[k][j] * c)
  }

  lemma ScaledEntry(x: real, t: real, norm: real, c: real)
    requires t * norm == c
    ensures Times(x, t) * norm == x * c
  {
    assert (x * t) * norm == x * (t * norm);
  }

  /** What clipping computes, entry by entry. */
  lemma ClippedIsClipping(m: GradMap, c: real, sqrt: real -> real)
    requires IsSqrt(sqrt) && c >= 0.0
    ensures IsClipping(Clipped(m, c, sqrt), m, c, sqrt(NormSq(m)))
  {
    hide NormSq, Times;
    var norm := sqrt(NormSq(m));
    SquareOrder(norm, c);
    if norm > c {
      var t := ClippedOutside(m, c, sqrt);
      var z := Clipped(m, c, sqrt);
      forall k, j | k in m && 0 <= j < |m[k]|
        ensures z[k][j] * norm == m[k][j] * c
      {
        ScaledEntry(m[k][j], t, norm, c);
      }
    }
  }

  /** A clipped gradient is within the bound and no longer than before; clipping it again changes
      nothing. */
  lemma ClippedBound(m: GradMap, c: real, sqrt: real -> real)
    requires IsSqrt(sqrt) && c >= 0.0
    ensures NormSq(Clipped(m, c, sqrt)) <= c * c
    ensures NormSq(Clipped(m, c, sqrt)) <= NormSq(m)
    ensures Clipped(Clipped(m, c, sqrt), c, sqrt) == Clipped(m, c, sqrt)
  {
    if NormSq(m) <= c * c {
      ClippedInside(m, c, sqrt);
    } else {
      var _ := ClippedOutside(m, c, sqrt);
      ClippedInside(Clipped(m, c, sqrt), c, sqrt);
    }
  }

  lemma ClipFactor(sq: real, norm: real, c: real) returns (a: real)
    requires norm > c >= 0.0 && norm * norm == sq
    ensures 0.0 <= c / norm <= 1.0
    ensures a == (c / norm) * (c / norm)
    ensures a * sq == c * c
  {
    var t := c / norm;
    a := t * t;
    assert t * norm == c;
    assert t * t * sq == (t * norm) * (t * norm);
  }

  method AddArraySquares(start: real, arr: array<real>) returns (norm: real)
    ensures norm == start + SumSq(arr[..])
  {
    norm := start;
    for i := 0 to arr.Length
      invariant norm == start + SumSq(arr[..i])
    {
      assert arr[..i + 1] == arr[..i] + [arr[i]];
      SumByAppend(arr[..i], arr[i], Square);
      norm := norm + arr[i] * arr[i];
    }
    assert arr[..arr.Length] == arr[..];
  }

  /** The norm loop of clipping, over keys in any order. */
  method ArraysNormSq(m: GradArrays) returns (norm: real)
    ensures norm == NormSq(View(m))
  {
    hide SumOver, SumBy;
    ghost var g := View(m);
    norm := 0.0;
    var keys := m.Keys;
    EmptySum(KeySq(g));
    assert m.Keys - keys == {};
    while keys != {}
      invariant keys <= m.Keys
      invariant norm == SumOver(m.Keys - keys, KeySq(g))
      decreases keys
    {
      var k :| k in keys;
      assert m[k][..] == g[k];
      norm := AddArraySquares(norm, m[k]);
      SumOverAdd(m.Keys - keys, KeySq(g), k);
      assert m.Keys - (keys - {k}) == m.Keys - keys + {k};
      keys := keys - {k};
    }
    assert m.Keys - keys == g.Keys;
    assert View(m) == g;
  }

  lemma EmptySum<T>(f: T -> real)
    ensures SumOver({}, f) == 0.0
  {
  }

  /** Clips a gradient in place, array by array. */
  method ClipL2(m: GradArrays, maxNorm: real, sqrt: real -> real)
    requires IsSqrt(sqrt) && Separate(m)
    modifies Arrays(m)
    ensures View(m) == Clipped(old(View(m)), maxNorm, sqrt)
    ensures maxNorm >= 0.0 ==> IsClipping(View(m), old(View(m)), maxNorm, sqrt(NormSq(old(View(m)))))
  {
    hide NormSq, Scale, IsClipping;
    if maxNorm >= 0.0 {
      ClippedIsClipping(View(m), maxNorm, sqrt);
    }
    var sum := ArraysNormSq(m);
    var norm := sqrt(sum);
    if norm <= maxNorm || norm == 0.0 {
      return;
    }
    var scale := maxNorm / norm;
    ScaleInPlace(m, scale);
  }

  method ScaleInPlace(m: GradArrays, scale: real)
    requires Separate(m)
    modifies Arrays(m)
    ensures View(m) == Scale(old(View(m)), scale)
  {
    ghost var was := View(m);
    var keys := m.Keys;
    while keys != {}
      invariant keys <= m.Keys
      invariant forall k :: k in m ==> m[k].Length == |was[k]|
      invariant forall k :: k in keys ==> m[k][..] == was[k]
      invariant forall k :: k in m && k !in keys ==> m[k][..] == ScaleSeq(was[k], scale)
      decreases keys
    {
      var k :| k in keys;
      assert m[k] in Arrays(m);
      ScaleArray(m[k], scale);
      keys := keys - {k};
    }
  }

  method ScaleArray(arr: array<real>, scale: real)
    modifies arr
    ensures arr[..] == ScaleSeq(old(arr[..]), scale)
  {
    for i := 0 to arr.Length
      invariant forall j :: 0 <= j < i ==> arr[j] == Times(old(arr[j]), scale)
      invariant forall j :: i <= j < arr.Length ==> arr[j] == old(arr[j])
    {
      arr[i] := Times(arr[i], scale);
    }
  }
}
