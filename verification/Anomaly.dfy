/**
 The anomaly filter of a federated-learning round (internal/fl/rounds.go): measure the gradients
 that can be fetched, and drop those whose norm exceeds the median by more than k deviations.
 */
module Anomaly {
  import opened Options
  import opened Sums
  import opened Gradients
  import opened Statistics

  type NodeId = nat

  /** One row of fl_participants. */
  datatype Record = Record(node: NodeId, hash: string, url: string)

  /** What reading a record's object from storage and decoding it gives; either may fail. Records that name the
      same object may be read at different times and so differently. */
  type Fetch = Record -> Option<Blob>

  /** (round_id, node_id) is the primary key of fl_participants. */
  ghost predicate DistinctNodes(records: seq<Record>) {
    forall i, j :: 0 <= i < j < |records| ==> records[i].node != records[j].node
  }

  // ------------------------------------------------ what the filter computes

  /** The norm measured for a record, if its gradient can be fetched and decoded. */
  ghost function Measure(fetch: Fetch, sqrt: real -> real): Record -> Option<real> {
    (r: Record) =>
      if r.url == "" then None
      else match fetch(r)
           case None => None
           case Some(raw) => Some(sqrt(NormSq(GradOf(raw))))
  }

  function Norms(records: seq<Record>, measure: Record -> Option<real>): seq<real> {
    if records == [] then []
    else
      var n := |records| - 1;
      Norms(records[..n], measure) + (match measure(records[n]) case Some(x) => [x] case None => [])
  }

  function Threshold(norms: seq<real>, k: real, sqrt: real -> real): real
    requires |norms| >= 2
  {
    Cutoff(Median(norms), k, sqrt(Variance(norms, Median(norms))))
  }

  predicate Over(norm: Option<real>, limit: real) {
    norm.Some? && norm.value > limit
  }

  function Rejects(measure: Record -> Option<real>, limit: real): Record -> bool {
    (r: Record) => Over(measure(r), limit)
  }

  function Keeps(measure: Record -> Option<real>, limit: real): Record -> bool {
    (r: Record) => !Over(measure(r), limit)
  }

  /** The records that go on to be averaged. Fewer than two norms are never compared. */
  function Accepted(records: seq<Record>, measure: Record -> Option<real>, k: real, sqrt: real -> real): seq<Record> {
    var norms := Norms(records, measure);
    if |norms| < 2 then records else Filter(records, Keeps(measure, Threshold(norms, k, sqrt)))
  }

  /** The records the filter flags. */
  function Rejected(records: seq<Record>, measure: Record -> Option<real>, k: real, sqrt: real -> real): seq<Record> {
    var norms := Norms(records, measure);
    if |norms| < 2 then [] else Filter(records, Rejects(measure, Threshold(norms, k, sqrt)))
  }

  // ------------------------------------------------ the source's loops

  lemma NormsAppend(records: seq<Record>, i: nat, measure: Record -> Option<real>)
    requires i < |records|
    ensures Norms(records[..i + 1], measure)
      == Norms(records[..i], measure) + (match measure(records[i]) case Some(x) => [x] case None => [])
  {
    assert records[..i + 1][..i] == records[..i];
  }

  /** What the node-to-norm table holds once the first i records have been measured. */
  ghost predicate Tabulates(table: map<NodeId, real>, records: seq<Record>, i: nat, measure: Record -> Option<real>)
    requires i <= |records|
  {
    && (forall j :: 0 <= j < i ==>
          (records[j].node in table <==> measure(records[j]).Some?)
          && (measure(records[j]).Some? ==> table[records[j].node] == measure(records[j]).value))
    && (forall j :: i <= j < |records| ==> records[j].node !in table)
  }

  /** The measuring loop: collects the norms in row order and tabulates them by node. */
  method MeasureAll(records: seq<Record>, fetch: Fetch, sqrt: real -> real)
      returns (norms: seq<real>, normByNode: map<NodeId, real>)
    requires IsSqrt(sqrt) && DistinctNodes(records)
    ensures norms == Norms(records, Measure(fetch, sqrt))
    ensures Tabulates(normByNode, records, |records|, Measure(fetch, sqrt))
  {
    ghost var measure := Measure(fetch, sqrt);
    norms := [];
    normByNode := map[];
    for i := 0 to |records|
      invariant norms == Norms(records[..i], measure)
      invariant Tabulates(normByNode, records, i, measure)
    {
      var r := records[i];
      NormsAppend(records, i, measure);
      if r.url == "" {
        continue;
      }
      match fetch(r)
      case None =>
      case Some(raw) =>
        var norm := L2NormFromMap(raw, sqrt);
        norms := norms + [norm];
        normByNode := normByNode[r.node := norm];
    }
    assert records[..|records|] == records;
  }

  /** The accepting loop: keeps unmeasured records and those within the threshold, flags the rest. */
  method AcceptAll(records: seq<Record>, normByNode: map<NodeId, real>, threshold: real,
                   ghost measure: Record -> Option<real>)
      returns (accepted: seq<Record>, flagged: seq<Record>)
    requires Tabulates(normByNode, records, |records|, measure)
    ensures accepted == Filter(records, Keeps(measure, threshold))
    ensures flagged == Filter(records, Rejects(measure, threshold))
  {
    accepted, flagged := [], [];
    for i := 0 to |records|
      invariant accepted == Filter(records[..i], Keeps(measure, threshold))
      invariant flagged == Filter(records[..i], Rejects(measure, threshold))
    {
      var r := records[i];
      assert records[..i + 1] == records[..i] + [r];
      FilterAppend(records[..i], r, Keeps(measure, threshold));
      FilterAppend(records[..i], r, Rejects(measure, threshold));
      if r.node !in normByNode {
        accepted := accepted + [r];
        continue;
      }
      if normByNode[r.node] > threshold {
        flagged := flagged + [r];
        continue;
      }
      accepted := accepted + [r];
    }
    assert records[..|records|] == records;
  }

  method AnomalyFilter(storage: Option<Fetch>, records: seq<Record>, k: real, sqrt: real -> real)
      returns (accepted: seq<Record>, flagged: seq<Record>)
    requires IsSqrt(sqrt) && DistinctNodes(records)
    ensures storage.None? ==> accepted == records && flagged == []
    ensures storage.Some? ==>
      var measure := Measure(storage.value, sqrt);
      accepted == Accepted(records, measure, k, sqrt) && flagged == Rejected(records, measure, k, sqrt)
    ensures storage.Some? ==>
      var measure := Measure(storage.value, sqrt);
      var norms := Norms(records, measure);
      (|norms| < 2 ==> accepted == records) && (|norms| >= 2 ==> IsCut(accepted, records, norms, measure, k))
  {
    if storage.Some? && |Norms(records, Measure(storage.value, sqrt))| >= 2 {
      hide *;
      AcceptedIsCut(records, Measure(storage.value, sqrt), k, sqrt);
    }
    hide IsCut, IsMedian, IsDeviation, Norms, Median, Variance, Filter, Measure, Keeps, Rejects, NormSq, Cutoff;
    if storage.None? {
      return records, [];
    }
    var norms, normByNode := MeasureAll(records, storage.value, sqrt);
    if |norms| < 2 {
      return records, [];
    }
    var slice := new real[|norms|](i requires 0 <= i < |norms| => norms[i]);
    assert slice[..] == norms;
    var median := MedianFloat64(slice);
    var stddev := StddevFloat64(norms, median, sqrt);
    var threshold := Cutoff(median, k, stddev);
    accepted, flagged := AcceptAll(records, normByNode, threshold, Measure(storage.value, sqrt));
  }

  // ------------------------------------------------ what the filter guarantees

  lemma {:induction false} RejectedNorms(records: seq<Record>, measure: Record -> Option<real>, limit: real)
    ensures |Filter(records, Rejects(measure, limit))| == |Filter(Norms(records, measure), Exceeds(limit))|
    ensures |Norms(records, measure)| <= |records|
    decreases |records|
  {
    if records != [] {
      var n := |records| - 1;
      var r := records[n];
      RejectedNorms(records[..n], measure, limit);
      if measure(r).Some? {
        FilterAppend(Norms(records[..n], measure), measure(r).value, Exceeds(limit));
      } else {
        assert Norms(records, measure) == Norms(records[..n], measure);
      }
    }
  }

  /** The cut, in terms of what was measured: with two or more norms, a record is accepted exactly when it was not
      measured or lies at most k deviations about the median above the median. */
  ghost predicate IsCut(accepted: seq<Record>, records: seq<Record>, norms: seq<real>, measure: Record -> Option<real>, k: real) {
    exists mid, dev ::
      && IsMedian(mid, norms) && IsDeviation(dev, norms, mid)
      && forall r :: r in accepted <==> r in records && (measure(r).Some? ==> measure(r).value <= mid + k * dev)
  }

  lemma AcceptedIsCut(records: seq<Record>, measure: Record -> Option<real>, k: real, sqrt: real -> real)
    requires IsSqrt(sqrt) && |Norms(records, measure)| >= 2
    ensures IsCut(Accepted(records, measure, k, sqrt), records, Norms(records, measure), measure, k)
  {
    hide Norms, Median, Variance, Filter, IsMedian, IsDeviation;
    var norms := Norms(records, measure);
    var mid := Median(norms);
    var dev := sqrt(Variance(norms, mid));
    MedianIsMedian(norms);
    VarianceIsDeviation(norms, mid, sqrt);
    var limit := Threshold(norms, k, sqrt);
    assert limit == mid + k * dev;
    forall r: Record
      ensures r in Accepted(records, measure, k, sqrt) <==> r in records && (measure(r).Some? ==> measure(r).value <= mid + k * dev)
    {
      FilterMember(records, Keeps(measure, limit), r);
    }
  }

  /** Every record is accepted or rejected, in the order of the rows; every record that could not be
      measured is accepted. */
  lemma FilterPartitions(records: seq<Record>, measure: Record -> Option<real>, k: real, sqrt: real -> real)
    ensures |Accepted(records, measure, k, sqrt)| + |Rejected(records, measure, k, sqrt)| == |records|
    ensures forall r :: r in Accepted(records, measure, k, sqrt) ==> r in records
    ensures forall r :: r in records && measure(r).None? ==> r in Accepted(records, measure, k, sqrt)
  {
    var norms := Norms(records, measure);
    if |norms| >= 2 {
      var limit := Threshold(norms, k, sqrt);
      FilterSplit(records, Keeps(measure, limit), Rejects(measure, limit));
      forall r: Record
        ensures r in Accepted(records, measure, k, sqrt) <==> r in records && Keeps(measure, limit)(r)
      {
        FilterMember(records, Keeps(measure, limit), r);
      }
    }
  }

  /** Accepted records keep the order of the rows. */
  lemma AcceptedInRowOrder(records: seq<Record>, measure: Record -> Option<real>, k: real, sqrt: real -> real) returns (at: seq<nat>)
    ensures |at| == |Accepted(records, measure, k, sqrt)|
    ensures forall i :: 0 <= i < |at| ==> at[i] < |records| && records[at[i]] == Accepted(records, measure, k, sqrt)[i]
    ensures forall i, j :: 0 <= i < j < |at| ==> at[i] < at[j]
  {
    hide Norms, Filter, Threshold, Keeps;
    var norms := Norms(records, measure);
    if |norms| < 2 {
      at := seq(|records|, i => i);
    } else {
      at := FilterInOrder(records, Keeps(measure, Threshold(norms, k, sqrt)));
    }
  }

  /** Of n measured gradients the number r rejected at threshold k satisfies r * k^2 < n - 1. */
  lemma FewRejected(records: seq<Record>, measure: Record -> Option<real>, k: real, sqrt: real -> real)
    requires IsSqrt(sqrt) && k >= 0.0
    ensures var r, n := |Rejected(records, measure, k, sqrt)|, |Norms(records, measure)|;
      n <= |records| && (r >= 1 ==> r as real * (k * k) < (n - 1) as real)
  {
    hide Norms, Median, Variance, Filter, Exceeds, Rejects, Cutoff;
    var norms := Norms(records, measure);
    RejectedNorms(records, measure, 0.0);
    if |norms| >= 2 {
      var m := Median(norms);
      var dev := sqrt(Variance(norms, m));
      RejectedNorms(records, measure, Threshold(norms, k, sqrt));
      FewFarValues(norms, m, k, dev);
    }
  }

  /** At the default threshold of three deviations, ten or fewer measured gradients are all kept. */
  lemma DefaultKeepsTen(records: seq<Record>, measure: Record -> Option<real>, sqrt: real -> real)
    requires IsSqrt(sqrt) && |Norms(records, measure)| <= 10
    ensures Accepted(records, measure, 3.0, sqrt) == records
  {
    FewRejected(records, measure, 3.0, sqrt);
    FilterPartitions(records, measure, 3.0, sqrt);
    var norms := Norms(records, measure);
    if |norms| >= 2 {
      FilterShorter(records, Keeps(measure, Threshold(norms, 3.0, sqrt)));
    }
  }

  /** For every non-negative threshold at least half of the measured gradients are kept. */
  lemma KeepsHalf(records: seq<Record>, measure: Record -> Option<real>, k: real, sqrt: real -> real)
    requires IsSqrt(sqrt) && k >= 0.0
    ensures 2 * |Rejected(records, measure, k, sqrt)| <= |Norms(records, measure)|
  {
    hide Norms, Filter, Median, Variance;
    var norms := Norms(records, measure);
    if |norms| >= 2 {
      var m, limit := Median(norms), Threshold(norms, k, sqrt);
      assert limit >= m;
      MedianCoversHalf(norms);
      FilterSplit(norms, AtMost(limit), Exceeds(limit));
      FilterMonotone(norms, AtMost(m), AtMost(limit));
      RejectedNorms(records, measure, limit);
    }
  }

  // ------------------------------------------------ how many records are left

  /** The threshold k leaves at least m of any m or more records. */
  predicate Suffices(k: real, m: nat) {
    if m <= 1 then true
    else if m == 2 then 2.0 * (k * k) >= 1.0
    else k * k >= (m - 1) as real
  }

  lemma RejectedLeaves(r: nat, n: nat, m: nat, q: real)
    requires m >= 2 && q >= (m - 1) as real && r >= 1 && r as real * q < (n - 1) as real
    ensures n - r >= m
  {
    var p := m - 1;
    assert r as real * p as real <= r as real * q;
    assert (r * p) as real == r as real * p as real;
    assert r * p < n - 1;
    assert r * p == (r - 1) * p + p;
    assert (r - 1) * p >= r - 1 by {
      assert (r - 1) * (p - 1) >= 0;
    }
  }

  lemma PairMedian(a: real, b: real)
    ensures Median([a, b]) == (a + b) / 2.0
  {
    hide SortOf;
    var s := [a, b];
    var t := if a <= b then [a, b] else [b, a];
    SortOfSorts(s);
    assert multiset(t) == multiset(s);
    SortedUnique(SortOf(s), t);
  }

  lemma PairVariance(a: real, b: real)
    ensures var d := (b - a) / 2.0;
      Variance([a, b], (a + b) / 2.0) == 2.0 * (d * d)
  {
    var m, d := (a + b) / 2.0, (b - a) / 2.0;
    SumByAppend([], a, DevSq(m));
    SumByAppend([a], b, DevSq(m));
    assert [] + [a] == [a] && [a] + [b] == [a, b];
    assert a - m == -d && b - m == d;
    assert (-d) * (-d) == d * d;
  }

  /** Neither of two values lies above the threshold, if 2 k^2 >= 1. */
  lemma PairWithin(e: real, k: real, dev: real)
    requires e >= 0.0 && k >= 0.0 && dev >= 0.0 && 2.0 * (k * k) >= 1.0 && dev * dev == 2.0 * (e * e)
    ensures e <= k * dev
  {
    var p, q, f := k * dev, 2.0 * (k * k), e * e;
    assert f >= 0.0;
    assert p * p == (k * k) * (dev * dev);
    assert (k * k) * (2.0 * f) == q * f;
    assert q * f >= 1.0 * f;
    assert p >= 0.0;
    SquareOrder(e, p);
  }

  lemma PairDeviation(a: real, b: real, k: real, dev: real)
    requires k >= 0.0 && dev >= 0.0 && 2.0 * (k * k) >= 1.0
    requires var d := (b - a) / 2.0; dev * dev == 2.0 * (d * d)
    ensures var limit := Cutoff((a + b) / 2.0, k, dev); a <= limit && b <= limit
  {
    var m, d := (a + b) / 2.0, (b - a) / 2.0;
    var e := if d >= 0.0 then d else -d;
    assert (-d) * (-d) == d * d;
    PairWithin(e, k, dev);
    assert a == m - d && b == m + d;
  }

  lemma PairKept(norms: seq<real>, k: real, sqrt: real -> real)
    requires IsSqrt(sqrt) && |norms| == 2 && k >= 0.0 && 2.0 * (k * k) >= 1.0
    ensures Filter(norms, Exceeds(Threshold(norms, k, sqrt))) == []
  {
    hide Median, Variance, Cutoff;
    var a, b := norms[0], norms[1];
    var m := (a + b) / 2.0;
    assert norms == [a, b];
    PairMedian(a, b);
    PairVariance(a, b);
    var dev := sqrt(Variance(norms, m));
    PairDeviation(a, b, k, dev);
    var limit := Threshold(norms, k, sqrt);
    assert limit == Cutoff(m, k, dev);
    FilterAppend([], a, Exceeds(limit));
    FilterAppend([a], b, Exceeds(limit));
    assert [] + [a] == [a] && [a] + [b] == norms;
  }

  lemma TwoLeft(records: seq<Record>, measure: Record -> Option<real>, k: real, sqrt: real -> real)
    requires IsSqrt(sqrt) && k >= 0.0 && 2.0 * (k * k) >= 1.0 && |records| >= 2
    ensures |Accepted(records, measure, k, sqrt)| >= 2
  {
    hide Norms, Filter, Threshold;
    FilterPartitions(records, measure, k, sqrt);
    KeepsHalf(records, measure, k, sqrt);
    var norms := Norms(records, measure);
    RejectedNorms(records, measure, 0.0);
    if |norms| == 2 {
      PairKept(norms, k, sqrt);
      RejectedNorms(records, measure, Threshold(norms, k, sqrt));
    }
  }

  /** A threshold that suffices for m leaves m or more of any m or more records. */
  lemma KeepsEnough(records: seq<Record>, measure: Record -> Option<real>, k: real, sqrt: real -> real, m: nat)
    requires IsSqrt(sqrt) && k >= 0.0 && Suffices(k, m) && |records| >= m
    ensures |Accepted(records, measure, k, sqrt)| >= m
  {
    hide Accepted, Rejected, Norms, IsSqrt;
    FilterPartitions(records, measure, k, sqrt);
    var r, n := |Rejected(records, measure, k, sqrt)|, |Norms(records, measure)|;
    FewRejected(records, measure, k, sqrt);
    if m <= 1 {
      KeepsHalf(records, measure, k, sqrt);
    } else if m == 2 {
      TwoLeft(records, measure, k, sqrt);
    } else if r >= 1 {
      RejectedLeaves(r, n, m, k * k);
    }
  }

  // ------------------------------------------------ uploads that leave too few

  /** m uploads: empty gradients, and a last one of norm one. */
  function Uploads(m: nat): seq<Record> {
    seq(m, i requires 0 <= i < m => Record(i, "", if i == m - 1 then "outlier" else "empty"))
  }

  function OneOutlier(): Fetch {
    (x: Record) => Some(if x.url == "outlier" then map["w" := Array([Int(1)])] else map[])
  }

  lemma UploadsDistinct(m: nat)
    ensures DistinctNodes(Uploads(m))
  {
  }

  lemma SmallNorms()
    ensures NormSq(GradOf(map[])) == 0.0 && NormSq(GradOf(map["w" := Array([Int(1)])])) == 1.0
  {
    var raw: Blob := map["w" := Array([Int(1)])];
    var g := GradOf(raw);
    assert g.Keys == {"w"} && g["w"] == [1.0];
    SumByAppend([], 1.0, Square);
    assert [] + [1.0] == [1.0];
    SumOverAdd({}, KeySq(g), "w");
    assert {} + {"w"} == {"w"};
    assert GradOf(map[]) == map[];
  }

  lemma OutlierMeasured(sqrt: real -> real, x: Record)
    requires IsSqrt(sqrt) && x.url != ""
    ensures Measure(OneOutlier(), sqrt)(x) == Some(if x.url == "outlier" then 1.0 else 0.0)
  {
    hide NormSq;
    SmallNorms();
    assert sqrt(0.0) * sqrt(0.0) == 0.0 && sqrt(1.0) * sqrt(1.0) == 1.0;
    SquareOrder(sqrt(0.0), 0.0);
    SquareOrder(sqrt(1.0), 1.0);
  }

  function Zeros(n: nat): seq<real> {
    seq(n, i => 0.0)
  }

  lemma {:induction false} UploadNorms(m: nat, i: nat, sqrt: real -> real)
    requires IsSqrt(sqrt) && i <= m
    ensures Norms(Uploads(m)[..i], Measure(OneOutlier(), sqrt)) == if i < m || m == 0 then Zeros(i) else Zeros(m - 1) + [1.0]
    decreases i
  {
    hide Measure, IsSqrt;
    if i > 0 {
      UploadNorms(m, i - 1, sqrt);
      NormsAppend(Uploads(m), i - 1, Measure(OneOutlier(), sqrt));
      OutlierMeasured(sqrt, Uploads(m)[i - 1]);
    }
  }

  lemma OutlierMedian(m: nat)
    requires m >= 3
    ensures Median(Zeros(m - 1) + [1.0]) == 0.0
  {
    hide SortOf;
    var s := Zeros(m - 1) + [1.0];
    SortOfSorts(s);
    SortedUnique(SortOf(s), s);
  }

  lemma {:induction false} ZerosDeviation(n: nat)
    ensures SumBy(Zeros(n), DevSq(0.0)) == 0.0
    decreases n
  {
    if n > 0 {
      ZerosDeviation(n - 1);
      assert Zeros(n)[..n - 1] == Zeros(n - 1);
    }
  }

  lemma OutlierVariance(m: nat)
    requires m >= 2
    ensures Variance(Zeros(m - 1) + [1.0], 0.0) * (m - 1) as real == 1.0
  {
    ZerosDeviation(m - 1);
    SumByAppend(Zeros(m - 1), 1.0, DevSq(0.0));
  }

  lemma SmallProduct(k: real, dev: real, p: real)
    requires k >= 0.0 && dev >= 0.0 && p > 0.0 && k * k < p && (dev * dev) * p == 1.0
    ensures k * dev < 1.0
  {
    var x, q, e := k * dev, k * k, dev * dev;
    assert x * x == q * e;
    assert e > 0.0;
    assert q * e < p * e;
    assert x >= 0.0;
    SquareOrder(x, 1.0);
  }

  lemma HalfProduct(k: real, dev: real)
    requires k >= 0.0 && dev >= 0.0 && 2.0 * (k * k) < 1.0 && dev * dev == 0.5
    ensures Cutoff(0.5, k, dev) < 1.0
  {
    var x, q, e := k * dev, k * k, dev * dev;
    assert x * x == q * e;
    assert q * e == q * 0.5;
    assert x >= 0.0;
    SquareOrder(x, 0.5);
  }

  lemma PairOver(k: real, sqrt: real -> real)
    requires IsSqrt(sqrt) && k >= 0.0 && 2.0 * (k * k) < 1.0
    ensures Threshold([0.0, 1.0], k, sqrt) < 1.0
  {
    hide Median, Variance, Cutoff;
    var s := [0.0, 1.0];
    PairMedian(0.0, 1.0);
    PairVariance(0.0, 1.0);
    var mid := Median(s);
    assert mid == 0.5 && Variance(s, mid) == 0.5;
    var dev := sqrt(Variance(s, mid));
    assert dev >= 0.0 && dev * dev == 0.5;
    HalfProduct(k, dev);
    assert Threshold(s, k, sqrt) == Cutoff(0.5, k, dev);
  }

  /** The last of m uploads lies above the threshold, if that is too low for m. */
  lemma OutlierOver(m: nat, k: real, sqrt: real -> real)
    requires IsSqrt(sqrt) && k >= 0.0 && !Suffices(k, m)
    ensures m >= 2 && Threshold(Zeros(m - 1) + [1.0], k, sqrt) < 1.0
  {
    hide Median, Variance;
    var s := Zeros(m - 1) + [1.0];
    if m == 2 {
      assert s == [0.0, 1.0];
      PairOver(k, sqrt);
    } else {
      OutlierMedian(m);
      OutlierVariance(m);
      var dev := sqrt(Variance(s, 0.0));
      SmallProduct(k, dev, (m - 1) as real);
    }
  }

  lemma OutlierRejected(m: nat, k: real, sqrt: real -> real)
    requires IsSqrt(sqrt) && k >= 0.0 && !Suffices(k, m)
    ensures |Uploads(m)| == m && |Accepted(Uploads(m), Measure(OneOutlier(), sqrt), k, sqrt)| < m
  {
    hide Norms, Filter, Measure, Threshold, IsSqrt;
    OutlierOver(m, k, sqrt);
    var records, measure, last := Uploads(m), Measure(OneOutlier(), sqrt), Uploads(m)[m - 1];
    UploadNorms(m, m, sqrt);
    assert records[..m] == records;
    OutlierMeasured(sqrt, last);
    var limit := Threshold(Norms(records, measure), k, sqrt);
    assert Rejects(measure, limit)(last);
    FilterMember(records, Rejects(measure, limit), last);
    FilterPartitions(records, measure, k, sqrt);
  }

  /** For every m, the filter leaves m of any m or more participants' rows, whatever storage holds, exactly when
      its threshold suffices for m: always for one, if 2 k^2 >= 1 for two, if k^2 >= m - 1 for more. */
  lemma KeepsEnoughIff(k: real, sqrt: real -> real, m: nat)
    requires IsSqrt(sqrt) && k >= 0.0
    ensures Suffices(k, m) <==>
      forall records: seq<Record>, fetch: Fetch ::
        DistinctNodes(records) && |records| >= m ==> |Accepted(records, Measure(fetch, sqrt), k, sqrt)| >= m
  {
    hide Accepted, Measure, Suffices, IsSqrt;
    if Suffices(k, m) {
      forall records: seq<Record>, fetch: Fetch | DistinctNodes(records) && |records| >= m
        ensures |Accepted(records, Measure(fetch, sqrt), k, sqrt)| >= m
      {
        KeepsEnough(records, Measure(fetch, sqrt), k, sqrt, m);
      }
    } else {
      OutlierRejected(m, k, sqrt);
      UploadsDistinct(m);
    }
  }

  // ------------------------------------------------ the order of rows

  lemma {:induction false} NormsMultiset(records: seq<Record>, measure: Record -> Option<real>)
    ensures multiset(Norms(records, measure)) == multiset(Map(Filter(records, Measured(measure)), NormValue(measure)))
    decreases |records|
  {
    if records != [] {
      var n := |records| - 1;
      NormsMultiset(records[..n], measure);
      var kept := Filter(records[..n], Measured(measure));
      if measure(records[n]).Some? {
        assert Map(kept + [records[n]], NormValue(measure)) == Map(kept, NormValue(measure)) + [measure(records[n]).value];
      } else {
        assert kept + [] == kept;
      }
    }
  }

  function Measured(measure: Record -> Option<real>): Record -> bool {
    (r: Record) => measure(r).Some?
  }

  function NormValue(measure: Record -> Option<real>): Record -> real {
    (r: Record) => match measure(r) case Some(x) => x case None => 0.0
  }

  lemma NormsReordered(records: seq<Record>, other: seq<Record>, measure: Record -> Option<real>)
    requires multiset(records) == multiset(other)
    ensures multiset(Norms(records, measure)) == multiset(Norms(other, measure))
  {
    NormsMultiset(records, measure);
    NormsMultiset(other, measure);
    FilterPermutation(records, other, Measured(measure));
    MapPermutation(Filter(records, Measured(measure)), Filter(other, Measured(measure)), NormValue(measure));
  }

  /** The accepted records do not depend on the order in which rows are fetched. */
  lemma AcceptedReordered(records: seq<Record>, other: seq<Record>, measure: Record -> Option<real>, k: real, sqrt: real -> real)
    requires multiset(records) == multiset(other)
    ensures multiset(Accepted(records, measure, k, sqrt)) == multiset(Accepted(other, measure, k, sqrt))
  {
    hide Norms, Filter, Keeps, Median, Cutoff, Variance;
    NormsReordered(records, other, measure);
    var s, t := Norms(records, measure), Norms(other, measure);
    assert |multiset(s)| == |s| && |multiset(t)| == |t|;
    if |s| >= 2 {
      MedianReordered(s, t);
      VarianceReordered(s, t, Median(s));
      FilterPermutation(records, other, Keeps(measure, Threshold(s, k, sqrt)));
    }
  }
}
