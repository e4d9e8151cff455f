/**
 What one TryAggregate call should compute of its round (internal/fl/rounds.go), given what storage, the
 weight query and each statement answered; and what follows for the round.
 */
module RoundAttempt {
  import opened Options
  import opened Sums
  import opened Gradients
  import opened AggregateBounds
  import opened Anomaly
  import opened RoundProtocol
  import opened RoundListing
  import FedAvg
  import Messages

  /** The records the filter keeps of those fetched. */
  ghost function Chosen(cfg: Config, records: seq<Record>, fetch: Fetch): seq<Record> {
    if cfg.hasStorage then Accepted(records, Measure(fetch, cfg.sqrt), cfg.anomalyThreshold, cfg.sqrt) else records
  }

  /** The records it flags. */
  ghost function Outliers(cfg: Config, records: seq<Record>, fetch: Fetch): seq<Record> {
    if cfg.hasStorage then Rejected(records, Measure(fetch, cfg.sqrt), cfg.anomalyThreshold, cfg.sqrt) else []
  }

  /** The hash recorded for a round: that of the aggregate, or a placeholder without storage. */
  ghost function CheckpointOf(cfg: Config, r: RoundNo, accepted: seq<Record>, fetch: Fetch, weightOf: NodeId -> real): string {
    if cfg.hasStorage
    then cfg.hashOf(FedAvg.Aggregate(accepted, fetch, weightOf, FedAvg.ClipNorm(cfg.clipNorm), cfg.sqrt))
    else "fedavg-placeholder-round-" + Messages.Decimal(r)
  }

  // ------------------------------------------------ what the world answers

  /** Which statements of a call fail: the i-th flagging UPDATE for `flag(i)`. */
  datatype Faults = Faults(resolve: bool, count: bool, cas: bool, fetch: bool, flag: nat -> bool, complete: bool, fail: bool)

  /** What storage answers the filter and the average, the weight query, the upload, and the failing statements. */
  datatype Inputs = Inputs(filterFetch: Fetch, averageFetch: Fetch, weightOf: NodeId -> real, uploadOk: bool, faults: Faults)

  ghost predicate Faultless(f: Faults) {
    !f.resolve && !f.count && !f.cas && !f.fetch && (forall i :: !f.flag(i)) && !f.complete && !f.fail
  }

  ghost predicate ValidInputs(cfg: Config, x: Inputs) {
    (cfg.dbFails || Faultless(x.faults)) && forall n :: x.weightOf(n) >= 0.0
  }

  // ------------------------------------------------ what a call makes of its round

  /** An open round with enough participants. */
  ghost predicate Ready(cfg: Config, was: Round) {
    |was.rows| >= cfg.minParticipants && was.status == Open
  }

  /** The call reaches the CAS and wins it. */
  ghost predicate Claims(cfg: Config, was: Round, f: Faults) {
    Ready(cfg, was) && !f.resolve && !f.count && !f.cas
  }

  /** What a call that does not win returns. */
  ghost function Refusal(cfg: Config, was: Round, f: Faults): Result {
    if f.resolve || f.count then Error
    else if |was.rows| < cfg.minParticipants then Nothing
    else if f.cas then Error
    else Nothing
  }

  ghost predicate CanAverage(cfg: Config, accepted: seq<Record>, x: Inputs) {
    |accepted| >= cfg.minParticipants && (cfg.hasStorage ==> FedAvg.AllFetched(accepted, x.averageFetch) && x.uploadOk)
  }

  /** The i-th of the given participants is n, and its UPDATE did not fail. */
  predicate FlaggedAt(flags: seq<Record>, lost: nat -> bool, n: NodeId, i: nat) {
    i < |flags| && flags[i].node == n && !lost(i)
  }

  /** Rows of the given participants flagged, the others as they were. */
  ghost function FlagRows(rows: map<NodeId, Row>, flags: seq<Record>, lost: nat -> bool): map<NodeId, Row> {
    map n | n in rows :: rows[n].(flagged := rows[n].flagged || exists i :: FlaggedAt(flags, lost, n, i))
  }

  function Fails(was: Round, f: Faults): Round {
    if f.fail then was else was.(status := Failed)
  }

  /** The round once its outliers are flagged. */
  ghost function Selected(cfg: Config, was: Round, records: seq<Record>, x: Inputs): Round {
    was.(status := Aggregating, rows := FlagRows(was.rows, Outliers(cfg, records, x.filterFetch), x.faults.flag))
  }

  /** The round from the accepted records on. */
  ghost function Published(cfg: Config, was: Round, r: RoundNo, accepted: seq<Record>, x: Inputs): (Round, Result) {
    if !CanAverage(cfg, accepted, x) then (Fails(was, x.faults), Error)
    else if x.faults.complete then (was, Error)
    else (was.(status := Complete, checkpoint := Some(CheckpointOf(cfg, r, accepted, x.averageFetch, x.weightOf))), Summary)
  }

  /** The round after a whole call, and what the call returns. */
  ghost function Attempt(cfg: Config, was: Round, r: RoundNo, records: seq<Record>, x: Inputs): (Round, Result) {
    if !Claims(cfg, was, x.faults) then (was, Refusal(cfg, was, x.faults))
    else if x.faults.fetch then (Fails(was.(status := Aggregating), x.faults), Error)
    else Published(cfg, Selected(cfg, was, records, x), r, Chosen(cfg, records, x.filterFetch), x)
  }

  /** A call that does not win leaves its round alone. One that wins ends it complete exactly when it returns
      a summary, and leaves it aggregating exactly when the statement that was to end it failed; what can
      still become of such a round is in RoundOutlook. */
  lemma AttemptVerdict(cfg: Config, was: Round, r: RoundNo, records: seq<Record>, x: Inputs)
    ensures var (now, result) := Attempt(cfg, was, r, records, x);
      var won := Claims(cfg, was, x.faults);
      var averages := !x.faults.fetch && CanAverage(cfg, Chosen(cfg, records, x.filterFetch), x);
      && now.rows.Keys == was.rows.Keys && now.startedAt == was.startedAt
      && (!won ==> now == was && !result.Summary?)
      && (won ==> (now.status == Complete <==> result.Summary?))
      && (won ==> (now.status == Aggregating <==> if averages then x.faults.complete else x.faults.fail))
      && (won ==> now.status != Open)
      && (!result.Summary? ==> now.checkpoint == was.checkpoint)
  {
    hide CanAverage, Chosen, Outliers, CheckpointOf;
  }

  /** What a summary records: with storage, the hash of the weighted mean of the accepted uploads, each clipped to
      the configured norm, or to 1 if that is not positive; without, a placeholder naming the round. */
  lemma RecordedCheckpoint(cfg: Config, was: Round, r: RoundNo, records: seq<Record>, x: Inputs)
    requires ValidConfig(cfg) && Attempt(cfg, was, r, records, x).1.Summary?
    ensures var accepted, checkpoint := Chosen(cfg, records, x.filterFetch), Attempt(cfg, was, r, records, x).0.checkpoint;
      if cfg.hasStorage
      then exists average :: checkpoint == Some(cfg.hashOf(average))
             && FedAvg.AveragesClipped(average, accepted, x.averageFetch, x.weightOf, if cfg.clipNorm > 0.0 then cfg.clipNorm else 1.0, cfg.sqrt)
      else checkpoint == Some("fedavg-placeholder-round-" + Messages.Decimal(r))
  {
    hide FedAvg.Aggregate, FedAvg.AveragesClipped, Messages.Decimal, Chosen, Outliers;
    var accepted := Chosen(cfg, records, x.filterFetch);
    if cfg.hasStorage {
      FedAvg.AggregateAverages(accepted, x.averageFetch, x.weightOf, FedAvg.ClipNorm(cfg.clipNorm), cfg.sqrt);
    }
  }

  /** What the filter keeps of the rows: those not measured, and those within k deviations of the median. */
  lemma ChosenIsCut(cfg: Config, records: seq<Record>, fetch: Fetch)
    requires ValidConfig(cfg)
    ensures !cfg.hasStorage ==> Chosen(cfg, records, fetch) == records
    ensures cfg.hasStorage ==>
      var measure := Measure(fetch, cfg.sqrt);
      var norms := Norms(records, measure);
      (|norms| < 2 ==> Chosen(cfg, records, fetch) == records)
      && (|norms| >= 2 ==> IsCut(Chosen(cfg, records, fetch), records, norms, measure, cfg.anomalyThreshold))
  {
    hide IsCut, Measure, Norms, Filter;
    if cfg.hasStorage && |Norms(records, Measure(fetch, cfg.sqrt))| >= 2 {
      AcceptedIsCut(records, Measure(fetch, cfg.sqrt), cfg.anomalyThreshold, cfg.sqrt);
    }
  }

  /** Without failing statements an open round with enough participants ends complete or failed. */
  lemma FaultlessAttemptEnds(cfg: Config, was: Round, r: RoundNo, records: seq<Record>, x: Inputs)
    requires Faultless(x.faults) && Ready(cfg, was)
    ensures Attempt(cfg, was, r, records, x).0.status == if Attempt(cfg, was, r, records, x).1.Summary? then Complete else Failed
  {
    AttemptVerdict(cfg, was, r, records, x);
  }

  lemma IsFilterOutcome(cfg: Config, records: seq<Record>, fetch: Fetch, accepted: seq<Record>, flagged: seq<Record>)
    requires cfg.hasStorage ==>
      accepted == Accepted(records, Measure(fetch, cfg.sqrt), cfg.anomalyThreshold, cfg.sqrt)
      && flagged == Rejected(records, Measure(fetch, cfg.sqrt), cfg.anomalyThreshold, cfg.sqrt)
    requires !cfg.hasStorage ==> accepted == records && flagged == []
    ensures FilterOutcome(cfg, records, accepted, flagged)
  {
    hide Accepted, Rejected;
    MeasureIsReading(fetch, cfg.sqrt);
  }

  lemma MeasureIsReading(fetch: Fetch, sqrt: real -> real)
    ensures IsReading(Measure(fetch, sqrt), sqrt)
  {
    hide NormSq, GradOf;
    var measure := Measure(fetch, sqrt);
    forall x: Record | measure(x).Some?
      ensures x.url != "" && exists raw: Blob :: measure(x).value == sqrt(NormSq(GradOf(raw)))
    {
      var raw := fetch(x).value;
      assert measure(x).value == sqrt(NormSq(GradOf(raw)));
    }
  }

  lemma IsProduced(cfg: Config, accepted: seq<Record>, fetch: Fetch, weightOf: NodeId -> real, outcome: FedAvg.Outcome, hash: string)
    requires forall n :: weightOf(n) >= 0.0
    requires cfg.hasStorage ==>
      outcome.Checkpoint? && FedAvg.AllFetched(accepted, fetch) && hash == cfg.hashOf(outcome.average)
      && outcome.average == FedAvg.Aggregate(accepted, fetch, weightOf, FedAvg.ClipNorm(cfg.clipNorm), cfg.sqrt)
    ensures Produced(cfg, accepted, hash)
  {
    hide FedAvg.Aggregate, FedAvg.AllFetched;
  }

  /** From rows to checkpoint, the order in which the database returns the rows is irrelevant, when the
      accepted gradients agree on the lengths of the arrays they share. */
  lemma CheckpointIgnoresRowOrder(cfg: Config, r: RoundNo, rows: map<NodeId, Row>, records: seq<Record>, other: seq<Record>,
                                  filterFetch: Fetch, averageFetch: Fetch, weightOf: NodeId -> real)
    requires IsListing(records, rows) && IsListing(other, rows)
    requires cfg.hasStorage ==>
      Aligned(FedAvg.Parts(Chosen(cfg, records, filterFetch), averageFetch, weightOf, FedAvg.ClipNorm(cfg.clipNorm), cfg.sqrt))
    ensures multiset(Chosen(cfg, records, filterFetch)) == multiset(Chosen(cfg, other, filterFetch))
    ensures CheckpointOf(cfg, r, Chosen(cfg, records, filterFetch), averageFetch, weightOf)
         == CheckpointOf(cfg, r, Chosen(cfg, other, filterFetch), averageFetch, weightOf)
  {
    hide IsListing, Accepted, Measure, FedAvg.Aggregate, Aligned, FedAvg.Parts, Messages.Decimal;
    ListingsReorder(records, other, rows);
    if cfg.hasStorage {
      AcceptedReordered(records, other, Measure(filterFetch, cfg.sqrt), cfg.anomalyThreshold, cfg.sqrt);
      FedAvg.AggregateReordered(Chosen(cfg, records, filterFetch), Chosen(cfg, other, filterFetch),
                                averageFetch, weightOf, FedAvg.ClipNorm(cfg.clipNorm), cfg.sqrt);
    }
  }
}
