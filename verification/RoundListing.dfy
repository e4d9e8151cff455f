/**
 The rows a SELECT returns come in any order, each once (internal/fl/rounds.go): two listings of the same
 rows are rearrangements of one another.
 */
module RoundListing {
  import opened Anomaly
  import opened RoundProtocol

  function NodesOf(records: seq<Record>): set<NodeId> {
    set x | x in records :: x.node
  }

  lemma {:induction false} DistinctCount(records: seq<Record>)
    requires DistinctNodes(records)
    ensures |NodesOf(records)| == |records|
    ensures forall x :: x in records ==> multiset(records)[x] == 1
    decreases |records|
  {
    if records != [] {
      var n := |records| - 1;
      var rest, last := records[..n], records[n];
      DistinctCount(rest);
      assert records == rest + [last];
      assert NodesOf(records) == NodesOf(rest) + {last.node};
      assert last.node !in NodesOf(rest);
    }
  }

  lemma SubsetOfSameSize<T>(a: set<T>, b: set<T>)
    requires a <= b && |a| == |b|
    ensures a == b
  {
    assert |b| == |a| + |b - a| by { assert b == a + (b - a); }
  }

  function RowCount(x: Record, rows: map<NodeId, Row>): nat {
    if x.node in rows && x.hash == rows[x.node].hash && x.url == rows[x.node].url then 1 else 0
  }

  lemma ListedNodes(records: seq<Record>, rows: map<NodeId, Row>)
    requires IsListing(records, rows)
    ensures NodesOf(records) == rows.Keys
    ensures forall x :: multiset(records)[x] == RowCount(x, rows)
  {
    DistinctCount(records);
    assert |rows.Keys| == |rows|;
    SubsetOfSameSize(NodesOf(records), rows.Keys);
    forall x: Record | RowCount(x, rows) == 1
      ensures x in records
    {
      assert x.node in NodesOf(records);
      var y :| y in records && y.node == x.node;
      assert y == x;
    }
    assert forall x :: x in records <==> x in multiset(records);
  }

  /** Two listings of the same rows differ only in their order. */
  lemma ListingsReorder(records: seq<Record>, other: seq<Record>, rows: map<NodeId, Row>)
    requires IsListing(records, rows) && IsListing(other, rows)
    ensures multiset(records) == multiset(other)
  {
    hide IsListing;
    ListedNodes(records, rows);
    ListedNodes(other, rows);
  }

  lemma ListingIsDistinct(records: seq<Record>, rows: map<NodeId, Row>)
    requires IsListing(records, rows)
    ensures DistinctNodes(records)
  {
  }

  /** The rows that submitting these records one after the other leaves. */
  function RowsOf(records: seq<Record>): map<NodeId, Row> {
    if records == [] then map[]
    else
      var x := records[|records| - 1];
      RowsOf(records[..|records| - 1])[x.node := Row(x.hash, x.url, false)]
  }

  lemma OneRowMore(records: seq<Record>, rows: map<NodeId, Row>, x: Record, flagged: bool)
    requires IsListing(records, rows) && x.node !in rows
    ensures IsListing(records + [x], rows[x.node := Row(x.hash, x.url, flagged)])
  {
    assert forall i :: 0 <= i < |records| ==> records[i] in records;
    assert |rows[x.node := Row(x.hash, x.url, flagged)]| == |rows| + 1;
  }

  lemma {:induction false} RowsOfListed(records: seq<Record>)
    requires DistinctNodes(records)
    ensures IsListing(records, RowsOf(records))
    ensures forall n :: n in RowsOf(records) ==> n in NodesOf(records) && !RowsOf(records)[n].flagged
    decreases |records|
  {
    if records != [] {
      var n := |records| - 1;
      var rest, last := records[..n], records[n];
      hide IsListing;
      RowsOfListed(rest);
      assert records == rest + [last];
      assert last.node !in NodesOf(rest);
      OneRowMore(rest, RowsOf(rest), last, false);
    }
  }

  /** Every table of rows has a listing. */
  lemma {:induction false} ListingExists(rows: map<NodeId, Row>) returns (records: seq<Record>)
    ensures IsListing(records, rows)
    decreases |rows|
  {
    if rows == map[] {
      records := [];
    } else {
      var n :| n in rows;
      var rest := rows - {n};
      assert |rest| == |rows| - 1;
      records := ListingExists(rest);
      var x := Record(n, rows[n].hash, rows[n].url);
      OneRowMore(records, rest, x, rows[n].flagged);
      assert rest[n := Row(x.hash, x.url, rows[n].flagged)] == rows;
      records := records + [x];
    }
  }
}
