/**
 What clipping buys: the aggregate stays within the clip norm whatever the participants sent, one
 participant can move it only in proportion to its weight, and the order of participants matters
 exactly when two of them disagree about the length of an array.
 */
module AggregateBounds {
  import opened Sums
  import opened Gradients
  import opened Averaging

  // ------------------------------------------------ comparing norms position by position

  ghost predicate SameShape(x: GradMap, y: GradMap) {
    x.Keys == y.Keys && forall k :: k in x ==> |x[k]| == |y[k]|
  }

  lemma AddDominated(z: real, x: real, y: real, z': real, x': real, y': real, a: real, b: real)
    requires z <= a * x + b * y && z' <= a * x' + b * y'
    ensures z + z' <= a * (x + x') + b * (y + y')
  {
    assert a * (x + x') == a * x + a * x';
    assert b * (y + y') == b * y + b * y';
  }

  lemma {:induction false} DominatedSeq(z: seq<real>, x: seq<real>, y: seq<real>, a: real, b: real)
    requires |z| == |x| == |y|
    requires forall j :: 0 <= j < |z| ==> Square(z[j]) <= a * Square(x[j]) + b * Square(y[j])
    ensures SumSq(z) <= a * SumSq(x) + b * SumSq(y)
    decreases |z|
  {
    hide Square;
    if z != [] {
      var n := |z| - 1;
      DominatedSeq(z[..n], x[..n], y[..n], a, b);
      AddDominated(SumSq(z[..n]), SumSq(x[..n]), SumSq(y[..n]), Square(z[n]), Square(x[n]), Square(y[n]), a, b);
    }
  }

  lemma DominatedKey(z: GradMap, x: GradMap, y: GradMap, a: real, b: real, k: string)
    requires SameShape(z, x) && SameShape(z, y) && k in z
    requires forall j :: 0 <= j < |z[k]| ==> Square(z[k][j]) <= a * Square(x[k][j]) + b * Square(y[k][j])
    ensures KeySq(z)(k) <= a * KeySq(x)(k) + b * KeySq(y)(k)
  {
    hide Square, SumSq;
    DominatedSeq(z[k], x[k], y[k], a, b);
  }

  /** A gradient dominated at every position is dominated in norm. */
  lemma DominatedNorm(z: GradMap, x: GradMap, y: GradMap, a: real, b: real)
    requires SameShape(z, x) && SameShape(z, y)
    requires forall k, j :: k in z && 0 <= j < |z[k]| ==> Square(z[k][j]) <= a * Square(x[k][j]) + b * Square(y[k][j])
    ensures NormSq(z) <= a * NormSq(x) + b * NormSq(y)
  {
    hide Square, KeySq, SumOver;
    var K := z.Keys;
    forall k | k in K
      ensures KeySq(z)(k) <= a * KeySq(x)(k) + b * KeySq(y)(k)
    {
      DominatedKey(z, x, y, a, b, k);
    }
    SumOverDominated(K, KeySq(z), KeySq(x), KeySq(y), a, b);
  }

  lemma EntryBound(m: GradMap, k: string, j: int)
    requires k in m && 0 <= j < |m[k]|
    ensures Square(m[k][j]) <= NormSq(m)
  {
    SumByRemove(m[k], j, Square);
    assert SumSq(m[k][..j] + m[k][j + 1..]) >= 0.0;
    SumOverRemove(m.Keys, KeySq(m), k);
    SumOverNonNegative(m.Keys - {k}, KeySq(m));
  }

  // ------------------------------------------------ the shape of the result

  function PadTo(g: GradMap, k: string, len: nat): (r: seq<real>)
    ensures |r| == len
    ensures forall j :: 0 <= j < len ==> r[j] == At(g, k, j)
  {
    seq(len, j => At(g, k, j))
  }

  /** A participant's gradient cut or padded to the shape of the result. */
  function Padded(ps: seq<Part>, g: GradMap): GradMap {
    map k | k in AllKeys(ps) :: PadTo(g, k, FirstLen(ps, k))
  }

  lemma {:induction false} PadSumSq(g: GradMap, k: string, len: nat)
    ensures SumSq(PadTo(g, k, len)) <= KeySq(g)(k)
    ensures k in g && len <= |g[k]| ==> SumSq(PadTo(g, k, len)) == SumSq(g[k][..len])
    decreases len
  {
    if len > 0 {
      PadSumSq(g, k, len - 1);
      assert PadTo(g, k, len)[..len - 1] == PadTo(g, k, len - 1);
      if k in g && len <= |g[k]| {
        var s := g[k];
        assert PadTo(g, k, len) == s[..len];
        SumByConcat(s[..len], s[len..], Square);
        assert s == s[..len] + s[len..];
        assert SumSq(s[len..]) >= 0.0;
      }
    } else {
      assert k in g ==> PadTo(g, k, 0) == g[k][..0];
    }
  }

  /** Cutting and padding never lengthens a participant's gradient. */
  lemma PaddedNorm(ps: seq<Part>, i: nat)
    requires i < |ps|
    ensures NormSq(Padded(ps, ps[i].grad)) <= NormSq(ps[i].grad)
  {
    hide SumSq, SumOver;
    var g, K := ps[i].grad, AllKeys(ps);
    var z := Padded(ps, g);
    assert forall k :: k in g ==> k in K;
    forall k | k in K
      ensures KeySq(z)(k) <= KeySq(g)(k)
    {
      PadSumSq(g, k, FirstLen(ps, k));
    }
    SumOverAtMost(K, KeySq(z), KeySq(g));
    SumOverSupport(K, g.Keys, KeySq(g));
    assert z.Keys == K;
  }

  // ------------------------------------------------ the norm of the aggregate

  /** The aggregate after the first n participants, in its final shape. */
  function Partial(ps: seq<Part>, n: nat, total: Positive): GradMap
    requires n <= |ps|
  {
    map k | k in AllKeys(ps) :: Column(ps[..n], total, k, FirstLen(ps, k))
  }

  ghost function Share(ps: seq<Part>, n: nat, total: Positive): real
    requires n <= |ps|
  {
    SumBy(ps[..n], WeightOf) / total
  }

  /** The quadratic inequality behind the convexity step. */
  lemma ConvexPoint(x: real, y: real, w: real, W: real)
    requires w >= 0.0 && W > 0.0
    ensures Square(x + Times(y, w)) <= (1.0 + w / W) * Square(x) + (w * w + w * W) * Square(y)
  {
    var q := w / W;
    assert q * W == w;
    var d := x - W * y;
    assert q >= 0.0 && d * d >= 0.0;
    assert q * (d * d) >= 0.0;
    calc {
      q * (d * d);
      q * (x * x) - 2.0 * (q * W) * (x * y) + (q * W) * W * (y * y);
      q * (x * x) - 2.0 * w * (x * y) + w * W * (y * y);
    }
    calc {
      (x + y * w) * (x + y * w);
      x * x + 2.0 * w * (x * y) + w * w * (y * y);
    <=
      x * x + q * (x * x) + w * W * (y * y) + w * w * (y * y);
      (1.0 + q) * (x * x) + (w * w + w * W) * (y * y);
    }
  }

  lemma ConvexTotal(n: real, m: real, w: real, W: real, c: real)
    requires w >= 0.0 && W > 0.0 && n <= (W * c) * (W * c) && m <= c * c
    ensures (1.0 + w / W) * n + (w * w + w * W) * m <= ((W + w) * c) * ((W + w) * c)
  {
    var q, C := w / W, c * c;
    assert q * W == w;
    assert n <= W * W * C;
    assert (1.0 + q) * n <= (1.0 + q) * (W * W * C);
    assert (1.0 + q) * (W * W * C) == W * W * C + w * W * C;
    assert w * w >= 0.0 && w * W >= 0.0;
    assert (w * w + w * W) * m <= (w * w + w * W) * C;
    assert ((W + w) * c) * ((W + w) * c) == (W + w) * (W + w) * C;
  }

  lemma PartialStep(ps: seq<Part>, n: nat, total: Positive)
    requires n < |ps|
    ensures var x, z, y, w := Partial(ps, n, total), Partial(ps, n + 1, total), Padded(ps, ps[n].grad), ps[n].weight / total;
      SameShape(z, x) && SameShape(z, y)
      && forall k, j :: k in z && 0 <= j < |z[k]| ==> z[k][j] == x[k][j] + Times(y[k][j], w)
  {
    hide SumBy, Times;
    var z := Partial(ps, n + 1, total);
    forall k, j | k in z && 0 <= j < |z[k]|
      ensures z[k][j] == Partial(ps, n, total)[k][j] + Times(Padded(ps, ps[n].grad)[k][j], ps[n].weight / total)
    {
      ColumnStep(ps, n, total, k, FirstLen(ps, k));
    }
  }

  lemma ShareStep(ps: seq<Part>, n: nat, total: Positive)
    requires n < |ps|
    ensures Share(ps, n + 1, total) == Share(ps, n, total) + ps[n].weight / total
  {
    assert ps[..n + 1] == ps[..n] + [ps[n]];
    SumByAppend(ps[..n], ps[n], WeightOf);
  }

  /** One step of the convexity argument, on gradients of one shape. */
  lemma ConvexStep(z: GradMap, x: GradMap, y: GradMap, w: real, W: real, c: real)
    requires SameShape(z, x) && SameShape(z, y) && w >= 0.0 && W >= 0.0
    requires forall k, j :: k in z && 0 <= j < |z[k]| ==> z[k][j] == x[k][j] + Times(y[k][j], w)
    requires NormSq(x) <= (W * c) * (W * c) && NormSq(y) <= c * c
    ensures NormSq(z) <= ((W + w) * c) * ((W + w) * c)
  {
    hide NormSq, Square, Times;
    if W > 0.0 {
      var a, b := 1.0 + w / W, w * w + w * W;
      forall k, j | k in z && 0 <= j < |z[k]|
        ensures Square(z[k][j]) <= a * Square(x[k][j]) + b * Square(y[k][j])
      {
        ConvexPoint(x[k][j], y[k][j], w, W);
      }
      DominatedNorm(z, x, y, a, b);
      ConvexTotal(NormSq(x), NormSq(y), w, W, c);
    } else {
      var b := w * w;
      assert NormSq(x) <= 0.0;
      forall k, j | k in z && 0 <= j < |z[k]|
        ensures Square(z[k][j]) <= 0.0 * Square(x[k][j]) + b * Square(y[k][j])
      {
        EntryBound(x, k, j);
        ZeroPoint(x[k][j], y[k][j], w);
      }
      DominatedNorm(z, x, y, 0.0, b);
      ScaledBound(b, NormSq(y), c * c);
      assert b * (c * c) == (w * c) * (w * c);
    }
  }

  lemma ZeroPoint(x: real, y: real, w: real)
    requires Square(x) <= 0.0
    ensures Square(x + Times(y, w)) == (w * w) * Square(y)
  {
    if x != 0.0 {
      assert x * x > 0.0;
    }
  }

  lemma ScaledBound(b: real, n: real, m: real)
    requires b >= 0.0 && n <= m
    ensures b * n <= b * m
  {
  }

  ghost predicate Bounded(ps: seq<Part>, c: real) {
    forall i :: 0 <= i < |ps| ==> ps[i].weight >= 0.0 && NormSq(ps[i].grad) <= c * c
  }

  lemma {:induction false} PartialNorm(ps: seq<Part>, n: nat, total: Positive, c: real)
    requires n <= |ps| && Bounded(ps, c)
    ensures Share(ps, n, total) >= 0.0
    ensures NormSq(Partial(ps, n, total)) <= (Share(ps, n, total) * c) * (Share(ps, n, total) * c)
    decreases n
  {
    hide NormSq, Partial, Padded, Share;
    if n == 0 {
      EmptyPartial(ps, total);
    } else {
      var i := n - 1;
      PartialNorm(ps, i, total, c);
      PartialStep(ps, i, total);
      ShareStep(ps, i, total);
      PaddedNorm(ps, i);
      var w := ps[i].weight / total;
      assert w >= 0.0;
      ConvexStep(Partial(ps, n, total), Partial(ps, i, total), Padded(ps, ps[i].grad), w, Share(ps, i, total), c);
    }
  }

  lemma EmptyPartial(ps: seq<Part>, total: Positive)
    ensures Share(ps, 0, total) == 0.0
    ensures NormSq(Partial(ps, 0, total)) == 0.0
  {
    var z := Partial(ps, 0, total);
    forall k, j | k in z && 0 <= j < |z[k]|
      ensures Square(z[k][j]) <= 0.0 * Square(z[k][j]) + 0.0 * Square(z[k][j])
    {
    }
    DominatedNorm(z, z, z, 0.0, 0.0);
  }

  /** However many participants there are, whatever their non-negative weights, keys and array
      lengths: gradients within norm c aggregate to one within norm c. */
  lemma AverageWithinClip(ps: seq<Part>, c: real)
    requires Bounded(ps, c)
    ensures NormSq(Average(ps, TotalWeight(ps))) <= c * c
  {
    hide NormSq, SumBy;
    var total, n := TotalWeight(ps), |ps|;
    assert ps[..n] == ps;
    assert Partial(ps, n, total) == Average(ps, total);
    PartialNorm(ps, n, total, c);
    FullShare(SumBy(ps, WeightOf), total, c);
  }

  lemma FullShare(sum: real, total: Positive, c: real)
    requires total == if sum <= 0.0 then 1.0 else sum
    requires sum / total >= 0.0
    ensures (sum / total * c) * (sum / total * c) <= c * c
  {
    assert sum / total == 0.0 || sum / total == 1.0;
  }

  // ------------------------------------------------ the influence of one participant

  function MinusSeq(a: seq<real>, b: seq<real>): (r: seq<real>)
    requires |a| == |b|
    ensures |r| == |a| && forall j :: 0 <= j < |a| ==> r[j] == a[j] - b[j]
  {
    seq(|a|, j requires 0 <= j < |a| => a[j] - b[j])
  }

  function Minus(x: GradMap, y: GradMap): GradMap
    requires SameShape(x, y)
  {
    map k | k in x :: MinusSeq(x[k], y[k])
  }

  lemma {:induction false} FirstLenReplaced(ps: seq<Part>, p: nat, q: Part, k: string)
    requires p < |ps| && SameShape(ps[p].grad, q.grad)
    ensures FirstLen(ps[p := q], k) == FirstLen(ps, k)
    decreases p
  {
    if p > 0 {
      assert ps[p := q][1..] == ps[1..][p - 1 := q];
      FirstLenReplaced(ps[1..], p - 1, q, k);
    } else {
      assert ps[p := q][1..] == ps[1..];
    }
  }

  lemma KeysReplaced(ps: seq<Part>, p: nat, q: Part)
    requires p < |ps| && SameShape(ps[p].grad, q.grad)
    ensures AllKeys(ps[p := q]) == AllKeys(ps)
  {
    var qs := ps[p := q];
    assert forall i :: 0 <= i < |ps| ==> qs[i].grad.Keys == ps[i].grad.Keys;
  }

  lemma SumReplaced(ps: seq<Part>, p: nat, q: Part, f: Part -> real)
    requires p < |ps|
    ensures SumBy(ps[p := q], f) - SumBy(ps, f) == f(q) - f(ps[p])
  {
    var qs := ps[p := q];
    SumByRemove(ps, p, f);
    SumByRemove(qs, p, f);
    assert qs[..p] + qs[p + 1..] == ps[..p] + ps[p + 1..];
  }

  lemma DifferencePoint(x: real, y: real, w: real)
    ensures Square(Times(x, w) - Times(y, w)) <= (2.0 * w * w) * Square(x) + (2.0 * w * w) * Square(y)
  {
    var s := x + y;
    assert w * w >= 0.0 && s * s >= 0.0;
    assert (w * w) * (s * s) >= 0.0;
    calc {
      (x * w - y * w) * (x * w - y * w);
      2.0 * w * w * (x * x) + 2.0 * w * w * (y * y) - (w * w) * (s * s);
    }
  }

  lemma TwiceBound(n: real, m: real, w: real, c: real)
    requires n <= c * c && m <= c * c
    ensures (2.0 * w * w) * n + (2.0 * w * w) * m <= (2.0 * c * w) * (2.0 * c * w)
  {
    var b := 2.0 * w * w;
    assert w * w >= 0.0;
    ScaledBound(b, n, c * c);
    ScaledBound(b, m, c * c);
    assert b * (c * c) + b * (c * c) == (2.0 * c * w) * (2.0 * c * w);
  }

  ghost predicate ReplacedAt(z: GradMap, x: GradMap, y: GradMap, w: real) {
    SameShape(z, x) && SameShape(z, y)
    && forall k, j :: k in z && 0 <= j < |z[k]| ==> z[k][j] == Times(x[k][j], w) - Times(y[k][j], w)
  }

  lemma ReplacedShape(ps: seq<Part>, p: nat, q: Part, total: Positive)
    requires p < |ps| && SameShape(ps[p].grad, q.grad)
    ensures SameShape(Average(ps[p := q], total), Average(ps, total))
    ensures Padded(ps[p := q], q.grad) == Padded(ps, q.grad)
    ensures Padded(ps, q.grad).Keys == AllKeys(ps)
  {
    hide SumBy, Times, FirstLen;
    KeysReplaced(ps, p, q);
    forall k | k in AllKeys(ps)
      ensures FirstLen(ps[p := q], k) == FirstLen(ps, k)
    {
      FirstLenReplaced(ps, p, q, k);
    }
  }

  lemma ReplacedEntry(ps: seq<Part>, p: nat, q: Part, total: Positive, k: string, j: int)
    requires p < |ps| && SameShape(ps[p].grad, q.grad) && q.weight == ps[p].weight
    requires k in AllKeys(ps) && k in AllKeys(ps[p := q])
    requires 0 <= j < FirstLen(ps, k) && j < FirstLen(ps[p := q], k)
    ensures Average(ps[p := q], total)[k][j] - Average(ps, total)[k][j]
      == Times(At(q.grad, k, j), q.weight / total) - Times(At(ps[p].grad, k, j), q.weight / total)
  {
    hide SumBy, Times, FirstLen, AllKeys;
    SumReplaced(ps, p, q, Term(total, k, j));
  }

  lemma ReplacedDifference(ps: seq<Part>, p: nat, q: Part, total: Positive)
    requires p < |ps| && SameShape(ps[p].grad, q.grad) && q.weight == ps[p].weight
    ensures var a, b := Average(ps, total), Average(ps[p := q], total);
      SameShape(b, a) && Padded(ps[p := q], q.grad) == Padded(ps, q.grad)
      && ReplacedAt(Minus(b, a), Padded(ps, q.grad), Padded(ps, ps[p].grad), q.weight / total)
  {
    hide Times, SumBy, FirstLen, AllKeys, At;
    var a, b := Average(ps, total), Average(ps[p := q], total);
    ReplacedShape(ps, p, q, total);
    forall k, j | k in a && 0 <= j < |a[k]|
      ensures Minus(b, a)[k][j] == Times(At(q.grad, k, j), q.weight / total) - Times(At(ps[p].grad, k, j), q.weight / total)
    {
      ReplacedEntry(ps, p, q, total, k, j);
    }
  }

  /** Replacing one participant's gradient by any other of the same shape moves the aggregate by at
      most 2 * c * (its weight / total weight), when both are within norm c. Nothing is asked of the
      other participants. */
  lemma OneParticipantInfluence(ps: seq<Part>, p: nat, g: GradMap, total: Positive, c: real)
    requires p < |ps| && SameShape(ps[p].grad, g)
    requires NormSq(ps[p].grad) <= c * c && NormSq(g) <= c * c
    ensures var qs := ps[p := Part(g, ps[p].weight)];
      var a, b := Average(ps, total), Average(qs, total);
      var reach := 2.0 * c * (ps[p].weight / total);
      SameShape(b, a) && NormSq(Minus(b, a)) <= reach * reach
  {
    hide Average, Minus, Padded, NormSq, Square, Times;
    var w := ps[p].weight / total;
    var qs := ps[p := Part(g, ps[p].weight)];
    ReplacedDifference(ps, p, Part(g, ps[p].weight), total);
    PaddedNorm(ps, p);
    PaddedNorm(qs, p);
    var z, x, y := Minus(Average(qs, total), Average(ps, total)), Padded(ps, g), Padded(ps, ps[p].grad);
    forall k, j | k in z && 0 <= j < |z[k]|
      ensures Square(z[k][j]) <= (2.0 * w * w) * Square(x[k][j]) + (2.0 * w * w) * Square(y[k][j])
    {
      DifferencePoint(x[k][j], y[k][j], w);
    }
    DominatedNorm(z, x, y, 2.0 * w * w, 2.0 * w * w);
    TwiceBound(NormSq(x), NormSq(y), w, c);
  }

  // ------------------------------------------------ the order of participants

  /** Participants that both have a key agree on the length of its array. */
  ghost predicate Aligned(ps: seq<Part>) {
    forall p, q, k :: p in ps && q in ps && k in p.grad && k in q.grad ==> |p.grad[k]| == |q.grad[k]|
  }

  lemma {:induction false} FirstLenWitness(ps: seq<Part>, k: string)
    requires k in AllKeys(ps)
    ensures exists p :: p in ps && k in p.grad && FirstLen(ps, k) == |p.grad[k]|
    decreases |ps|
  {
    if k in ps[0].grad {
      assert ps[0] in ps;
    } else {
      var i :| 0 <= i < |ps| && k in ps[i].grad;
      assert ps[1..][i - 1] == ps[i];
      FirstLenWitness(ps[1..], k);
      var p :| p in ps[1..] && k in p.grad && FirstLen(ps[1..], k) == |p.grad[k]|;
      assert p in ps;
    }
  }

  lemma KeysReordered(ps: seq<Part>, qs: seq<Part>)
    requires multiset(ps) == multiset(qs)
    ensures AllKeys(ps) <= AllKeys(qs)
  {
    forall k | k in AllKeys(ps)
      ensures k in AllKeys(qs)
    {
      var i :| 0 <= i < |ps| && k in ps[i].grad;
      assert ps[i] in multiset(ps);
      assert ps[i] in qs;
      var j :| 0 <= j < |qs| && qs[j] == ps[i];
      assert k in qs[j].grad;
    }
  }

  lemma FirstLenReordered(ps: seq<Part>, qs: seq<Part>, k: string)
    requires multiset(ps) == multiset(qs) && Aligned(ps) && k in AllKeys(ps) && k in AllKeys(qs)
    ensures FirstLen(ps, k) == FirstLen(qs, k)
  {
    FirstLenWitness(ps, k);
    FirstLenWitness(qs, k);
    var p :| p in ps && k in p.grad && FirstLen(ps, k) == |p.grad[k]|;
    var q :| q in qs && k in q.grad && FirstLen(qs, k) == |q.grad[k]|;
    assert q in multiset(qs);
    assert q in ps;
  }

  lemma AlignedReordered(ps: seq<Part>, qs: seq<Part>, total: Positive)
    requires multiset(ps) == multiset(qs) && Aligned(ps)
    ensures Average(ps, total) == Average(qs, total)
  {
    hide SumBy, FirstLen, Term, Aligned;
    KeysReordered(ps, qs);
    KeysReordered(qs, ps);
    forall k | k in AllKeys(ps)
      ensures Average(ps, total)[k] == Average(qs, total)[k]
    {
      FirstLenReordered(ps, qs, k);
      forall j | 0 <= j < FirstLen(ps, k)
        ensures SumBy(ps, Term(total, k, j)) == SumBy(qs, Term(total, k, j))
      {
        SumByPermutation(ps, qs, Term(total, k, j));
      }
    }
  }

  function ToFront(ps: seq<Part>, i: nat): seq<Part>
    requires i < |ps|
  {
    [ps[i]] + (ps[..i] + ps[i + 1..])
  }

  lemma ToFrontReorders(ps: seq<Part>, i: nat)
    requires i < |ps|
    ensures multiset(ToFront(ps, i)) == multiset(ps)
  {
    assert ps == ps[..i] + [ps[i]] + ps[i + 1..];
  }

  lemma MisalignedReordered(ps: seq<Part>, total: Positive) returns (qs: seq<Part>)
    requires !Aligned(ps)
    ensures multiset(qs) == multiset(ps) && Average(qs, total) != Average(ps, total)
  {
    var p, q, k :| p in ps && q in ps && k in p.grad && k in q.grad && |p.grad[k]| != |q.grad[k]|;
    var r := if |p.grad[k]| != FirstLen(ps, k) then p else q;
    var i :| 0 <= i < |ps| && ps[i] == r;
    qs := ToFront(ps, i);
    ToFrontReorders(ps, i);
    assert k in ps[i].grad && k in qs[0].grad;
    assert k in AllKeys(ps) && k in AllKeys(qs);
    assert |Average(qs, total)[k]| == |r.grad[k]| != |Average(ps, total)[k]|;
  }

  /** The order in which participants' rows are fetched is irrelevant to the aggregate exactly when
      the participants agree on the length of every array they share; gradients of one shape do. */
  lemma OrderIrrelevantIffAligned(ps: seq<Part>, total: Positive)
    ensures Aligned(ps) <==>
      forall qs :: multiset(qs) == multiset(ps) ==> Average(qs, total) == Average(ps, total)
  {
    if Aligned(ps) {
      forall qs | multiset(qs) == multiset(ps)
        ensures Average(qs, total) == Average(ps, total)
      {
        AlignedReordered(ps, qs, total);
      }
    } else {
      var qs := MisalignedReordered(ps, total);
    }
  }

  /** Neither does the divisor depend on the order. */
  lemma TotalWeightReordered(ps: seq<Part>, qs: seq<Part>)
    requires multiset(ps) == multiset(qs)
    ensures TotalWeight(ps) == TotalWeight(qs)
  {
    SumByPermutation(ps, qs, WeightOf);
  }
}
