/**
 The weighted average of clipped gradients (internal/fl/rounds.go). Participants may disagree on
 keys and on array lengths; the first participant holding a key fixes the length of its result.
 */
module Averaging {
  import opened Sums
  import opened Gradients

  /** One participant's clipped gradient and its weight. */
  datatype Part = Part(grad: GradMap, weight: real)

  type Positive = x: real | x > 0.0 witness 1.0

  function WeightOf(p: Part): real {
    p.weight
  }

  /** The divisor of the average: the weight sum, or 1 when that is not positive. */
  function TotalWeight(ps: seq<Part>): Positive {
    var sum := SumBy(ps, WeightOf);
    if sum <= 0.0 then 1.0 else sum
  }

  function AllKeys(ps: seq<Part>): set<string> {
    set i, k | 0 <= i < |ps| && k in ps[i].grad :: k
  }

  function FirstLen(ps: seq<Part>, k: string): nat {
    if ps == [] then 0
    else if k in ps[0].grad then |ps[0].grad[k]|
    else FirstLen(ps[1..], k)
  }

  /** The value a gradient has at a position, or zero where it has none. */
  function At(g: GradMap, k: string, j: int): real {
    if k in g && 0 <= j < |g[k]| then g[k][j] else 0.0
  }

  /** What one participant adds to the result at a position. */
  function Term(total: Positive, k: string, j: int): Part -> real {
    (p: Part) => Times(At(p.grad, k, j), p.weight / total)
  }

  function Column(ps: seq<Part>, total: Positive, k: string, len: nat): (r: seq<real>)
    ensures |r| == len
    ensures forall j :: 0 <= j < len ==> r[j] == SumBy(ps, Term(total, k, j))
  {
    seq(len, j => SumBy(ps, Term(total, k, j)))
  }

  /** The aggregate, position by position. */
  function Average(ps: seq<Part>, total: Positive): GradMap {
    map k | k in AllKeys(ps) :: Column(ps, total, k, FirstLen(ps, k))
  }

  // ------------------------------------------------ the source's loops

  function Zip(grads: seq<GradMap>, weights: seq<real>): (ps: seq<Part>)
    requires |grads| == |weights|
    ensures |ps| == |grads|
    ensures forall i :: 0 <= i < |ps| ==> ps[i] == Part(grads[i], weights[i])
  {
    seq(|grads|, i requires 0 <= i < |grads| => Part(grads[i], weights[i]))
  }

  lemma {:induction false} FirstLenPrefix(ps: seq<Part>, n: nat, k: string)
    requires n < |ps| && k in ps[n].grad
    requires forall i :: 0 <= i < n ==> k !in ps[i].grad
    ensures FirstLen(ps, k) == |ps[n].grad[k]|
    decreases n
  {
    if n > 0 {
      FirstLenPrefix(ps[1..], n - 1, k);
    }
  }

  /** Adds one participant's array into the buffer, ignoring positions the buffer lacks. */
  method Accumulate(sum: array<real>, g: GradMap, k: string, w: real)
    requires k in g
    modifies sum
    ensures forall j :: 0 <= j < sum.Length ==> sum[j] == old(sum[j]) + Times(At(g, k, j), w)
  {
    var arr := g[k];
    for j := 0 to |arr|
      invariant forall i :: 0 <= i < sum.Length && i < j ==> sum[i] == old(sum[i]) + Times(At(g, k, i), w)
      invariant forall i :: j <= i < sum.Length ==> sum[i] == old(sum[i])
    {
      if j < sum.Length {
        sum[j] := sum[j] + w * arr[j];
      }
    }
  }

  lemma ColumnStep(ps: seq<Part>, i: nat, total: Positive, k: string, len: nat)
    requires i < |ps|
    ensures forall j :: 0 <= j < len ==>
      Column(ps[..i + 1], total, k, len)[j] == Column(ps[..i], total, k, len)[j] + Term(total, k, j)(ps[i])
  {
    assert ps[..i + 1] == ps[..i] + [ps[i]];
    forall j | 0 <= j < len
      ensures SumBy(ps[..i + 1], Term(total, k, j)) == SumBy(ps[..i], Term(total, k, j)) + Term(total, k, j)(ps[i])
    {
      SumByAppend(ps[..i], ps[i], Term(total, k, j));
    }
  }

  lemma AbsentColumn(ps: seq<Part>, total: Positive, k: string, len: nat)
    requires forall i :: 0 <= i < |ps| ==> k !in ps[i].grad
    ensures forall j :: 0 <= j < len ==> Column(ps, total, k, len)[j] == 0.0
  {
    forall j | 0 <= j < len
      ensures SumBy(ps, Term(total, k, j)) == 0.0
    {
      AbsentSum(ps, total, k, j);
    }
  }

  /** The result for one key: allocated at the first participant that has it, then accumulated. */
  method AverageKey(ps: seq<Part>, total: Positive, k: string) returns (r: seq<real>)
    requires k in AllKeys(ps)
    ensures r == Column(ps, total, k, FirstLen(ps, k))
  {
    hide SumBy, Column;
    var sum: array?<real> := null;
    for i := 0 to |ps|
      invariant sum == null ==> forall n :: 0 <= n < i ==> k !in ps[n].grad
      invariant sum != null ==> fresh(sum) && sum.Length == FirstLen(ps, k)
      invariant sum != null ==> sum[..] == Column(ps[..i], total, k, sum.Length)
    {
      if k in ps[i].grad && sum == null {
        FirstLenPrefix(ps, i, k);
        sum := new real[|ps[i].grad[k]|](_ => 0.0);
        AbsentColumn(ps[..i], total, k, sum.Length);
      }
      if sum != null {
        ghost var was := sum[..];
        ColumnStep(ps, i, total, k, sum.Length);
        if k in ps[i].grad {
          Accumulate(sum, ps[i].grad, k, ps[i].weight / total);
          assert forall j :: 0 <= j < sum.Length ==> sum[j] == was[j] + Term(total, k, j)(ps[i]);
        }
        assert sum[..] == Column(ps[..i + 1], total, k, sum.Length);
      }
    }
    assert ps[..|ps|] == ps;
    r := sum[..];
  }

  lemma {:induction false} AbsentSum(ps: seq<Part>, total: Positive, k: string, j: int)
    requires forall i :: 0 <= i < |ps| ==> k !in ps[i].grad
    ensures SumBy(ps, Term(total, k, j)) == 0.0
    decreases |ps|
  {
    if ps != [] {
      AbsentSum(ps[..|ps| - 1], total, k, j);
    }
  }

  /** Averages key by key, in any order of keys. */
  method WeightedAverage(grads: seq<GradMap>, weights: seq<real>, total: Positive) returns (out: GradMap)
    requires |grads| == |weights|
    ensures out == Average(Zip(grads, weights), total)
  {
    var ps := Zip(grads, weights);
    out := map[];
    var keysSeen: set<string> := {};
    for i := 0 to |grads|
      invariant keysSeen == AllKeys(ps[..i])
    {
      assert ps[..i + 1] == ps[..i] + [ps[i]];
      keysSeen := keysSeen + grads[i].Keys;
      KeysAppend(ps[..i], ps[i]);
    }
    assert ps[..|ps|] == ps;
    var keys := keysSeen;
    while keys != {}
      invariant keys <= AllKeys(ps)
      invariant out.Keys == AllKeys(ps) - keys
      invariant forall k :: k in out ==> out[k] == Column(ps, total, k, FirstLen(ps, k))
      decreases keys
    {
      var k :| k in keys;
      var sum := AverageKey(ps, total, k);
      out := out[k := sum];
      keys := keys - {k};
    }
  }

  lemma KeysAppend(ps: seq<Part>, p: Part)
    ensures AllKeys(ps + [p]) == AllKeys(ps) + p.grad.Keys
  {
    var qs := ps + [p];
    forall k | k in AllKeys(ps)
      ensures k in AllKeys(qs)
    {
      var i :| 0 <= i < |ps| && k in ps[i].grad;
      assert k in qs[i].grad;
    }
    forall k | k in p.grad
      ensures k in AllKeys(qs)
    {
      assert k in qs[|ps|].grad;
    }
  }

  // ------------------------------------------------ what an average is

  function Weighted(k: string, j: int): Part -> real {
    (p: Part) => p.weight * At(p.grad, k, j)
  }

  /** The sum of the weights, or 1 where that is not positive. */
  ghost predicate IsDivisor(d: real, ps: seq<Part>) {
    var sum := SumBy(ps, WeightOf);
    (sum > 0.0 ==> d == sum) && (sum <= 0.0 ==> d == 1.0)
  }

  /** The keys of avg are those of the participants; each of its arrays is as long as that of the first one to
      have the key; and each entry times the sum of the weights is the weighted sum of the entries there, with
      zero for a participant that has none. */
  ghost predicate IsWeightedMean(avg: GradMap, ps: seq<Part>) {
    && (forall k :: k in avg <==> exists i :: 0 <= i < |ps| && k in ps[i].grad)
    && (forall k, i :: k in avg && 0 <= i < |ps| && k in ps[i].grad && (forall h :: 0 <= h < i ==> k !in ps[h].grad) ==>
          |avg[k]| == |ps[i].grad[k]|)
    && forall k, j, d :: k in avg && 0 <= j < |avg[k]| && IsDivisor(d, ps) ==> avg[k][j] * d == SumBy(ps, Weighted(k, j))
  }

  lemma DivisorIs(ps: seq<Part>, d: real)
    requires IsDivisor(d, ps)
    ensures d == TotalWeight(ps)
  {
  }

  lemma TermTimes(p: Part, total: Positive, k: string, j: int)
    ensures Term(total, k, j)(p) * total == Weighted(k, j)(p)
  {
    var x, w, q := At(p.grad, k, j), p.weight, p.weight / total;
    assert q * total == w;
    assert (x * q) * total == x * (q * total);
    assert x * w == w * x;
  }

  lemma {:induction false} TermsTimes(ps: seq<Part>, total: Positive, k: string, j: int)
    ensures SumBy(ps, Term(total, k, j)) * total == SumBy(ps, Weighted(k, j))
    decreases |ps|
  {
    hide Term, Weighted;
    if ps != [] {
      var n := |ps| - 1;
      TermsTimes(ps[..n], total, k, j);
      TermTimes(ps[n], total, k, j);
      var a, b := SumBy(ps[..n], Term(total, k, j)), Term(total, k, j)(ps[n]);
      assert (a + b) * total == a * total + b * total;
    }
  }

  /** The average is the weighted mean. */
  lemma AverageIsMean(ps: seq<Part>)
    ensures IsWeightedMean(Average(ps, TotalWeight(ps)), ps)
  {
    hide SumBy, IsDivisor, TotalWeight, Term, Weighted;
    var total := TotalWeight(ps);
    var avg := Average(ps, total);
    forall k, i | k in avg && 0 <= i < |ps| && k in ps[i].grad && forall h :: 0 <= h < i ==> k !in ps[h].grad
      ensures |avg[k]| == |ps[i].grad[k]|
    {
      FirstLenPrefix(ps, i, k);
    }
    forall k, j, d | k in avg && 0 <= j < |avg[k]| && IsDivisor(d, ps)
      ensures avg[k][j] * d == SumBy(ps, Weighted(k, j))
    {
      DivisorIs(ps, d);
      TermsTimes(ps, total, k, j);
    }
  }

  lemma MeanEntry(a: GradMap, ps: seq<Part>, d: real, k: string, j: int)
    requires IsWeightedMean(a, ps) && IsDivisor(d, ps) && k in a && 0 <= j < |a[k]|
    ensures a[k][j] * d == SumBy(ps, Weighted(k, j))
  {
    hide SumBy, Weighted, IsDivisor;
  }

  lemma MeanShape(a: GradMap, b: GradMap, ps: seq<Part>, k: string)
    requires IsWeightedMean(a, ps) && IsWeightedMean(b, ps) && k in a
    ensures k in b && |a[k]| == |b[k]|
  {
    hide SumBy, Weighted, IsDivisor;
    var i := FirstHolder(ps, k);
    assert |a[k]| == |ps[i].grad[k]|;
    assert |b[k]| == |ps[i].grad[k]|;
  }

  lemma MeanKeyUnique(a: GradMap, b: GradMap, ps: seq<Part>, d: real, k: string)
    requires IsWeightedMean(a, ps) && IsWeightedMean(b, ps) && IsDivisor(d, ps) && d > 0.0 && k in a
    ensures k in b && a[k] == b[k]
  {
    hide IsWeightedMean, SumBy, IsDivisor, Weighted;
    MeanShape(a, b, ps, k);
    forall j | 0 <= j < |a[k]|
      ensures a[k][j] == b[k][j]
    {
      MeanEntry(a, ps, d, k, j);
      MeanEntry(b, ps, d, k, j);
      Cancel(a[k][j], b[k][j], d);
    }
  }

  /** There is only one weighted mean. */
  lemma MeanUnique(a: GradMap, b: GradMap, ps: seq<Part>)
    requires IsWeightedMean(a, ps) && IsWeightedMean(b, ps)
    ensures a == b
  {
    hide IsWeightedMean, IsDivisor, TotalWeight;
    TotalIsDivisor(ps);
    var d := TotalWeight(ps);
    forall k | k in a
      ensures k in b && a[k] == b[k]
    {
      MeanKeyUnique(a, b, ps, d, k);
    }
    forall k | k in b
      ensures k in a
    {
      MeanKeyUnique(b, a, ps, d, k);
    }
  }

  lemma TotalIsDivisor(ps: seq<Part>)
    ensures IsDivisor(TotalWeight(ps), ps)
  {
  }

  lemma Cancel(x: real, y: real, d: real)
    requires x * d == y * d && d > 0.0
    ensures x == y
  {
    assert (x - y) * d == 0.0;
  }

  lemma FirstHolder(ps: seq<Part>, k: string) returns (i: nat)
    requires exists i :: 0 <= i < |ps| && k in ps[i].grad
    ensures i < |ps| && k in ps[i].grad && forall h :: 0 <= h < i ==> k !in ps[h].grad
  {
    i := 0;
    while k !in ps[i].grad
      invariant i < |ps| && forall h :: 0 <= h < i ==> k !in ps[h].grad
      decreases |ps| - i
    {
      i := i + 1;
    }
  }

  lemma {:induction false} CommonSum(ps: seq<Part>, k: string, j: int, x: real)
    requires forall p :: p in ps ==> At(p.grad, k, j) == x
    ensures SumBy(ps, Weighted(k, j)) == SumBy(ps, WeightOf) * x
    decreases |ps|
  {
    if ps != [] {
      var n := |ps| - 1;
      CommonSum(ps[..n], k, j, x);
      var w := SumBy(ps[..n], WeightOf);
      assert (w + ps[n].weight) * x == w * x + ps[n].weight * x;
    }
  }

  /** Participants that agree, with weights that sum to something positive, average to what they agree on. */
  lemma AgreedMean(ps: seq<Part>, avg: GradMap, g: GradMap)
    requires IsWeightedMean(avg, ps) && ps != [] && forall p :: p in ps ==> p.grad == g
    requires SumBy(ps, WeightOf) > 0.0
    ensures avg == g
  {
    hide SumBy, Weighted;
    var d := SumBy(ps, WeightOf);
    assert ps[0] in ps;
    assert forall i :: 0 <= i < |ps| ==> ps[i] in ps;
    assert IsDivisor(d, ps);
    assert avg.Keys == g.Keys;
    forall k | k in g
      ensures avg[k] == g[k]
    {
      assert |avg[k]| == |ps[0].grad[k]|;
      forall j | 0 <= j < |g[k]|
        ensures avg[k][j] == g[k][j]
      {
        MeanEntry(avg, ps, d, k, j);
        CommonSum(ps, k, j, g[k][j]);
        Cancel(avg[k][j], g[k][j], d);
      }
    }
  }
}
