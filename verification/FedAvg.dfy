/**
 Federated averaging end to end (internal/fl/rounds.go): fetch, clip, weight and average the accepted
 gradients. The checkpoint's serialisation and hash are foreign and enter as parameters, as does the
 weight query, whose failure leaves the default weight 1.
 */
module FedAvg {
  import opened Options
  import opened Sums
  import opened Gradients
  import opened Averaging
  import opened AggregateBounds
  import opened Anomaly

  datatype Outcome =
    | Placeholder                                  // no object storage configured
    | Checkpoint(average: GradMap, hash: string)
    | Error

  function ClipNorm(configured: real): (c: real)
    ensures c > 0.0
  {
    if configured <= 0.0 then 1.0 else configured
  }

  /** The participant a record contributes, if its gradient can be fetched and decoded. */
  ghost function PartOf(fetch: Fetch, weightOf: NodeId -> real, c: real, sqrt: real -> real): Record -> Part {
    (r: Record) => match fetch(r)
           case None => Part(map[], 0.0)
           case Some(raw) => Part(Clipped(GradOf(raw), c, sqrt), weightOf(r.node))
  }

  ghost function Parts(records: seq<Record>, fetch: Fetch, weightOf: NodeId -> real, c: real, sqrt: real -> real): seq<Part> {
    Map(records, PartOf(fetch, weightOf, c, sqrt))
  }

  ghost predicate AllFetched(records: seq<Record>, fetch: Fetch) {
    forall r :: r in records ==> fetch(r).Some?
  }

  ghost function Aggregate(records: seq<Record>, fetch: Fetch, weightOf: NodeId -> real, c: real, sqrt: real -> real): GradMap {
    var ps := Parts(records, fetch, weightOf, c, sqrt);
    Average(ps, TotalWeight(ps))
  }

  /** The average is the weighted mean of the records' uploads, each clipped to norm c. */
  ghost predicate AveragesClipped(avg: GradMap, records: seq<Record>, fetch: Fetch, weightOf: NodeId -> real, c: real, sqrt: real -> real) {
    AllFetched(records, fetch)
    && exists ps: seq<Part> ::
         && |ps| == |records|
         && (forall i :: 0 <= i < |ps| ==> ps[i].weight == weightOf(records[i].node))
         && (forall i :: 0 <= i < |ps| ==>
               (var m := GradOf(fetch(records[i]).value); IsClipping(ps[i].grad, m, c, sqrt(NormSq(m)))))
         && IsWeightedMean(avg, ps)
  }

  lemma AggregateAverages(records: seq<Record>, fetch: Fetch, weightOf: NodeId -> real, c: real, sqrt: real -> real)
    requires IsSqrt(sqrt) && c >= 0.0 && AllFetched(records, fetch)
    ensures AveragesClipped(Aggregate(records, fetch, weightOf, c, sqrt), records, fetch, weightOf, c, sqrt)
  {
    hide Clipped, NormSq, IsClipping, Average, IsWeightedMean;
    var ps := Parts(records, fetch, weightOf, c, sqrt);
    AverageIsMean(ps);
    forall i | 0 <= i < |ps|
      ensures var m := GradOf(fetch(records[i]).value); IsClipping(ps[i].grad, m, c, sqrt(NormSq(m)))
    {
      ClippedIsClipping(GradOf(fetch(records[i]).value), c, sqrt);
    }
  }

  function WeightAt(weightOf: NodeId -> real): Record -> real {
    (x: Record) => weightOf(x.node)
  }

  lemma {:induction false} SameWeights(records: seq<Record>, weightOf: NodeId -> real, ps: seq<Part>)
    requires |ps| == |records| && forall i :: 0 <= i < |ps| ==> ps[i].weight == weightOf(records[i].node)
    ensures SumBy(ps, WeightOf) == SumBy(records, WeightAt(weightOf))
    decreases |ps|
  {
    if ps != [] {
      SameWeights(records[..|ps| - 1], weightOf, ps[..|ps| - 1]);
    }
  }

  lemma SameQuotient(x: real, y: real, d: real, v: real)
    requires x * d == v && y * d == v && d > 0.0
    ensures x == y
  {
    assert (x - y) * d == 0.0;
  }

  lemma ClippingUnique(z: GradMap, y: GradMap, m: GradMap, c: real, norm: real)
    requires IsClipping(z, m, c, norm) && IsClipping(y, m, c, norm) && norm >= 0.0 && c >= 0.0
    ensures z == y
  {
    if norm > c {
      forall k | k in m
        ensures z[k] == y[k]
      {
        forall j | 0 <= j < |m[k]|
          ensures z[k][j] == y[k][j]
        {
          SameQuotient(z[k][j], y[k][j], norm, m[k][j] * c);
        }
      }
    }
  }

  /** Where all the uploads are of one gradient and their weights sum to something positive, the checkpoint is
      that gradient clipped. */
  lemma AgreeingUploads(avg: GradMap, records: seq<Record>, fetch: Fetch, weightOf: NodeId -> real, c: real, sqrt: real -> real, m: GradMap)
    requires IsSqrt(sqrt) && c >= 0.0 && AveragesClipped(avg, records, fetch, weightOf, c, sqrt)
    requires records != [] && (forall x :: x in records ==> GradOf(fetch(x).value) == m)
    requires SumBy(records, WeightAt(weightOf)) > 0.0
    ensures IsClipping(avg, m, c, sqrt(NormSq(m)))
  {
    hide SumBy, NormSq, IsClipping, IsWeightedMean, IsSqrt;
    var ps: seq<Part> :| |ps| == |records|
      && (forall i :: 0 <= i < |ps| ==> ps[i].weight == weightOf(records[i].node))
      && (forall i :: 0 <= i < |ps| ==>
            (var m := GradOf(fetch(records[i]).value); IsClipping(ps[i].grad, m, c, sqrt(NormSq(m)))))
      && IsWeightedMean(avg, ps);
    SameWeights(records, weightOf, ps);
    RootNonNegative(m, sqrt);
    var g := ps[0].grad;
    forall i | 0 <= i < |ps|
      ensures IsClipping(ps[i].grad, m, c, sqrt(NormSq(m)))
    {
      assert records[i] in records;
    }
    forall p | p in ps
      ensures p.grad == g
    {
      var i :| 0 <= i < |ps| && ps[i] == p;
      ClippingUnique(ps[i].grad, g, m, c, sqrt(NormSq(m)));
    }
    AgreedMean(ps, avg, g);
  }

  lemma RootNonNegative(m: GradMap, sqrt: real -> real)
    requires IsSqrt(sqrt)
    ensures sqrt(NormSq(m)) >= 0.0
  {
  }

  /** Fetches and clips one gradient. */
  method ClippedGradient(raw: Blob, c: real, sqrt: real -> real) returns (g: GradMap)
    requires IsSqrt(sqrt)
    ensures g == Clipped(GradOf(raw), c, sqrt)
  {
    var m := ToGradMap(raw);
    ClipL2(m, c, sqrt);
    g := map k | k in m :: m[k][..];
  }

  method FedAverage(storage: Option<Fetch>, records: seq<Record>, weightOf: NodeId -> real, configured: real,
                    sqrt: real -> real, hashOf: GradMap -> string, uploadOk: bool) returns (r: Outcome)
    requires IsSqrt(sqrt)
    ensures storage.None? <==> r.Placeholder?
    ensures storage.Some? ==> (r.Checkpoint? <==> AllFetched(records, storage.value) && uploadOk)
    ensures r.Checkpoint? ==>
      r.average == Aggregate(records, storage.value, weightOf, ClipNorm(configured), sqrt)
      && r.hash == hashOf(r.average)
    ensures r.Checkpoint? ==> AveragesClipped(r.average, records, storage.value, weightOf, if configured > 0.0 then configured else 1.0, sqrt)
  {
    hide Clipped, Average, NormSq, AveragesClipped;
    if storage.Some? && AllFetched(records, storage.value) {
      AggregateAverages(records, storage.value, weightOf, ClipNorm(configured), sqrt);
    }
    if storage.None? {
      return Placeholder;
    }
    var fetch, c := storage.value, ClipNorm(configured);
    ghost var ps := Parts(records, fetch, weightOf, c, sqrt);
    var weights: seq<real>, grads: seq<GradMap> := [], [];
    for i := 0 to |records|
      invariant |weights| == |grads| == i
      invariant forall j :: 0 <= j < i ==> fetch(records[j]).Some?
      invariant forall j :: 0 <= j < i ==> Part(grads[j], weights[j]) == ps[j]
    {
      match fetch(records[i])
      case None => return Error;
      case Some(raw) =>
        var g := ClippedGradient(raw, c, sqrt);
        grads := grads + [g];
        weights := weights + [weightOf(records[i].node)];
    }
    assert Zip(grads, weights) == ps;
    var totalWeight := SumWeights(grads, weights);
    if totalWeight <= 0.0 {
      totalWeight := 1.0;
    }
    var avg := WeightedAverage(grads, weights, totalWeight);
    if !uploadOk {
      return Error;
    }
    return Checkpoint(avg, hashOf(avg));
  }

  method SumWeights(grads: seq<GradMap>, weights: seq<real>) returns (sum: real)
    requires |grads| == |weights|
    ensures sum == SumBy(Zip(grads, weights), WeightOf)
  {
    ghost var ps := Zip(grads, weights);
    sum := 0.0;
    for i := 0 to |weights|
      invariant sum == SumBy(ps[..i], WeightOf)
    {
      assert ps[..i + 1] == ps[..i] + [ps[i]];
      SumByAppend(ps[..i], ps[i], WeightOf);
      sum := sum + weights[i];
    }
    assert ps[..|ps|] == ps;
  }

  // ------------------------------------------------ what a round's aggregate guarantees

  lemma PartsBounded(records: seq<Record>, fetch: Fetch, weightOf: NodeId -> real, c: real, sqrt: real -> real)
    requires IsSqrt(sqrt) && c >= 0.0 && forall n :: weightOf(n) >= 0.0
    ensures Bounded(Parts(records, fetch, weightOf, c, sqrt), c)
  {
    hide NormSq, Clipped;
    var ps := Parts(records, fetch, weightOf, c, sqrt);
    EmptyNorm();
    forall i | 0 <= i < |ps|
      ensures ps[i].weight >= 0.0 && NormSq(ps[i].grad) <= c * c
    {
      match fetch(records[i])
      case None =>
      case Some(raw) => ClippedBound(GradOf(raw), c, sqrt);
    }
  }

  lemma EmptyNorm()
    ensures NormSq(map[]) == 0.0
  {
  }

  /** Whatever the participants uploaded, the aggregate is within the clip norm. */
  lemma AggregateWithinClip(records: seq<Record>, fetch: Fetch, weightOf: NodeId -> real, configured: real, sqrt: real -> real)
    requires IsSqrt(sqrt) && forall n :: weightOf(n) >= 0.0
    ensures var c := ClipNorm(configured);
      NormSq(Aggregate(records, fetch, weightOf, c, sqrt)) <= c * c
  {
    hide NormSq, Average, Parts;
    var c := ClipNorm(configured);
    PartsBounded(records, fetch, weightOf, c, sqrt);
    AverageWithinClip(Parts(records, fetch, weightOf, c, sqrt), c);
  }

  /** One participant uploading a different blob of the same shape moves the aggregate by at most
      twice the clip norm times its share of the weight. */
  lemma UploadInfluence(records: seq<Record>, p: nat, fetch: Fetch, other: Fetch, weightOf: NodeId -> real, c: real, sqrt: real -> real)
    requires IsSqrt(sqrt) && c >= 0.0 && p < |records|
    requires forall i :: 0 <= i < |records| && i != p ==> other(records[i]) == fetch(records[i])
    requires fetch(records[p]).Some? && other(records[p]).Some?
    requires SameShape(GradOf(fetch(records[p]).value), GradOf(other(records[p]).value))
    ensures var a, b := Aggregate(records, fetch, weightOf, c, sqrt), Aggregate(records, other, weightOf, c, sqrt);
      var total := TotalWeight(Parts(records, fetch, weightOf, c, sqrt));
      var reach := 2.0 * c * (weightOf(records[p].node) / total);
      SameShape(b, a) && NormSq(Minus(b, a)) <= reach * reach
  {
    hide NormSq, Average, Clipped, Minus, SumBy;
    var ps, qs := Parts(records, fetch, weightOf, c, sqrt), Parts(records, other, weightOf, c, sqrt);
    var raw, raw' := fetch(records[p]).value, other(records[p]).value;
    var g := Clipped(GradOf(raw'), c, sqrt);
    assert qs == ps[p := Part(g, ps[p].weight)];
    SumReplaced(ps, p, qs[p], WeightOf);
    ClippedBound(GradOf(raw), c, sqrt);
    ClippedBound(GradOf(raw'), c, sqrt);
    ClippedShape(GradOf(raw), c, sqrt);
    ClippedShape(GradOf(raw'), c, sqrt);
    OneParticipantInfluence(ps, p, g, TotalWeight(ps), c);
  }

  lemma ClippedShape(m: GradMap, c: real, sqrt: real -> real)
    ensures SameShape(Clipped(m, c, sqrt), m)
  {
  }

  /** The order of the accepted records is irrelevant to the aggregate, when the participants agree on the
      lengths of the arrays they share. */
  lemma AggregateReordered(s: seq<Record>, t: seq<Record>, fetch: Fetch, weightOf: NodeId -> real, c: real, sqrt: real -> real)
    requires multiset(s) == multiset(t) && Aligned(Parts(s, fetch, weightOf, c, sqrt))
    ensures Aggregate(s, fetch, weightOf, c, sqrt) == Aggregate(t, fetch, weightOf, c, sqrt)
  {
    hide Average, Aligned, PartOf;
    MapPermutation(s, t, PartOf(fetch, weightOf, c, sqrt));
    var ps, qs := Parts(s, fetch, weightOf, c, sqrt), Parts(t, fetch, weightOf, c, sqrt);
    TotalWeightReordered(ps, qs);
    AlignedReordered(ps, qs, TotalWeight(ps));
  }

  lemma {:induction false} AllMeasuredNorms(records: seq<Record>, measure: Record -> Option<real>)
    requires forall r :: r in records ==> measure(r).Some?
    ensures |Norms(records, measure)| == |records|
    decreases |records|
  {
    if records != [] {
      AllMeasuredNorms(records[..|records| - 1], measure);
    }
  }

  /** When storage answers the averaging step as it answered the filter, an averaged record was measured
      exactly when it names an object: the filter passes over an empty URL and the average does not. Every
      measured one lies within the threshold; and where two or more are averaged and each names an object,
      there was a threshold and all of them lie within it. */
  lemma AveragedWereMeasured(records: seq<Record>, fetch: Fetch, k: real, sqrt: real -> real)
    requires AllFetched(Accepted(records, Measure(fetch, sqrt), k, sqrt), fetch)
    ensures var measure := Measure(fetch, sqrt);
      var norms, accepted := Norms(records, measure), Accepted(records, measure, k, sqrt);
      && (forall r :: r in accepted ==> (measure(r).Some? <==> r.url != ""))
      && (|norms| >= 2 ==> forall r :: r in accepted && r.url != "" ==> measure(r).value <= Threshold(norms, k, sqrt))
      && (|accepted| >= 2 && (forall r :: r in accepted ==> r.url != "") ==> |norms| >= 2)
  {
    hide Threshold, NormSq;
    var measure := Measure(fetch, sqrt);
    var norms, accepted := Norms(records, measure), Accepted(records, measure, k, sqrt);
    if |norms| < 2 {
      if forall r :: r in accepted ==> r.url != "" {
        AllMeasuredNorms(records, measure);
      }
    } else {
      var limit := Threshold(norms, k, sqrt);
      forall r | r in accepted && r.url != ""
        ensures measure(r).value <= limit
      {
        FilterMember(records, Keeps(measure, limit), r);
      }
    }
  }
}
