/**
 Runs of the round protocol (internal/fl/rounds.go) that end badly: an expiry pass that lost the CAS fails a
 round another call completed, or fails one that its winner then completes, under every configuration; and a
 round failed for too many outliers, under every configuration whose threshold is too low.
 */
module RoundScenarios {
  import opened Options
  import opened Sums
  import opened Anomaly
  import opened RoundProtocol
  import opened RoundListing
  import opened RoundTraces
  import opened RoundAttempt
  import opened RoundSafety
  import FedAvg

  /** A run and its actions. */
  datatype Story = Story(run: seq<State>, acts: seq<Action>)

  ghost predicate Happens(cfg: Config, t: Story) {
    IsRun(cfg, t.run, t.acts)
  }

  ghost function Now(t: Story): State
    requires t.run != []
  {
    End(t.run)
  }

  // ------------------------------------------------ continuing a story

  lemma Begin(cfg: Config) returns (t: Story)
    ensures Happens(cfg, t) && t.run != [] && Now(t) == State(map[0 := Round(Open, None, 0, map[])], map[], [])
  {
    var s := State(map[], map[], []);
    var open := s.(rounds := s.rounds[0 := Round(Open, None, 0, map[])]);
    t := Story([s, open], [OpenRound(0, 0)]);
    assert open.rounds == map[0 := Round(Open, None, 0, map[])];
    assert Does(cfg, s, OpenRound(0, 0), open);
  }

  /** A new call starts and takes the steps of a trace. */
  lemma Enter(cfg: Config, t: Story, c: CallId, steps: Trace) returns (t': Story)
    requires Happens(cfg, t) && IsTrace(cfg, c, steps) && c !in Now(t).calls
    requires Initial(steps[0].call) && steps[0].rounds == Now(t).rounds
    ensures Happens(cfg, t') && t'.run != []
    ensures Now(t').rounds == Last(steps).rounds && Now(t').calls == Now(t).calls[c := Last(steps).call]
  {
    hide Does, IsTrace;
    var s := Now(t).(calls := Now(t).calls[c := steps[0].call]);
    assert Does(cfg, Now(t), Start(c, steps[0].call), s) by { StartDoes(cfg, Now(t), c, steps[0].call); }
    DoesExtend(cfg, t.run, t.acts, Start(c, steps[0].call), s);
    t' := Resume(cfg, Story(t.run + [s], t.acts + [Start(c, steps[0].call)]), c, steps);
    assert s.calls[c := Last(steps).call] == Now(t).calls[c := Last(steps).call];
  }

  lemma StartDoes(cfg: Config, s: State, c: CallId, call: Call)
    requires c !in s.calls && Initial(call)
    ensures Does(cfg, s, Start(c, call), s.(calls := s.calls[c := call]))
  {
  }

  /** A call under way takes the steps of a trace; the states before stay part of the story. */
  lemma Resume(cfg: Config, t: Story, c: CallId, steps: Trace) returns (t': Story)
    requires Happens(cfg, t) && IsTrace(cfg, c, steps)
    requires c in Now(t).calls && steps[0] == Point(Now(t).rounds, Now(t).calls[c])
    ensures Happens(cfg, t') && |t.run| <= |t'.run| && t'.run[..|t.run|] == t.run
    ensures Now(t').rounds == Last(steps).rounds && Now(t').calls == Now(t).calls[c := Last(steps).call]
  {
    hide Does, IsTrace;
    var run, acts := TraceContinuesRun(cfg, t.run, t.acts, c, steps);
    t' := Story(run, acts);
  }

  // ------------------------------------------------ submissions

  lemma SubmitTrace(cfg: Config, rs: Rounds, c: CallId, r: RoundNo, x: Record) returns (steps: Trace)
    requires r in rs && rs[r].status == Open
    ensures IsTrace(cfg, c, steps) && steps[0] == Point(rs, SubmitCheck(r, x)) && Last(steps) == Point(Upsert(rs, r, x), SubmitDone(true))
  {
    hide IsTrace, Last, TryStep;
    steps := [Point(rs, SubmitCheck(r, x))];
    StartTrace(cfg, c, steps[0]);
    steps := Step(cfg, c, steps, Point(rs, SubmitWrite(r, x)), []);
    steps := Step(cfg, c, steps, Point(Upsert(rs, r, x), SubmitDone(true)), []);
  }

  /** Round 0, open, once the given records have been submitted by calls 0, 1, and so on. */
  lemma {:induction false} Submitted(cfg: Config, records: seq<Record>) returns (t: Story)
    requires DistinctNodes(records)
    ensures Happens(cfg, t) && t.run != []
    ensures Now(t).rounds == map[0 := Round(Open, None, 0, RowsOf(records))]
    ensures forall c :: c in Now(t).calls ==> c < |records|
    decreases |records|
  {
    hide IsTrace, Last, IsRun, Upsert, RowsOf;
    if records == [] {
      t := Begin(cfg);
      NoRows();
    } else {
      var n := |records| - 1;
      t := Submitted(cfg, records[..n]);
      var rs, x := Now(t).rounds, records[n];
      UpsertAdds(records);
      var steps := SubmitTrace(cfg, rs, n, 0, x);
      t := Enter(cfg, t, n, steps);
    }
  }

  lemma NoRows()
    ensures RowsOf([]) == map[]
  {
  }

  lemma UpsertAdds(records: seq<Record>)
    requires DistinctNodes(records) && records != []
    ensures var n := |records| - 1;
      Upsert(map[0 := Round(Open, None, 0, RowsOf(records[..n]))], 0, records[n]) == map[0 := Round(Open, None, 0, RowsOf(records))]
  {
    var n := |records| - 1;
    RowsOfListed(records[..n]);
    assert records[n].node !in NodesOf(records[..n]);
  }

  // ------------------------------------------------ an expiry pass that is about to lose the CAS

  lemma PassTrace(cfg: Config, rs: Rounds, c: CallId) returns (steps: Trace)
    requires rs.Keys == {0} && rs[0].status == Open && |rs[0].rows| >= cfg.minParticipants
    ensures IsTrace(cfg, c, steps) && steps[0] == Point(rs, CloseQuery) && Last(steps) == Point(rs, CloseInner([], 0, Cas(0)))
  {
    hide IsTrace, Last, FilterOutcome, Produced, IsListing;
    steps := [Point(rs, CloseQuery)];
    StartTrace(cfg, c, steps[0]);
    assert IsExpiredListing([0], rs, cfg.duration, rs[0].startedAt + cfg.duration + 1);
    steps := Step(cfg, c, steps, Point(rs, CloseLoop([0], 0)), []);
    assert [0][1..] == [];
    var ctx := Inside([], 0);
    steps := Step(cfg, c, steps, Point(rs, At(ctx, Resolve(0))), []);
    steps := TryTo(cfg, c, ctx, steps, Resolve(0), rs, Count(0), []);
    steps := TryTo(cfg, c, ctx, steps, Count(0), rs, Cas(0), []);
  }

  lemma LostTrace(cfg: Config, rs: Rounds, c: CallId) returns (steps: Trace)
    requires 0 in rs && rs[0].status != Open
    ensures IsTrace(cfg, c, steps) && steps[0] == Point(rs, CloseInner([], 0, Cas(0)))
    ensures Last(steps) == Point(SetStatus(rs, 0, Failed), CloseLoop([], 1))
  {
    hide IsTrace, Last, FilterOutcome, Produced, IsListing, IsExpiredListing;
    var ctx := Inside([], 0);
    steps := [Point(rs, At(ctx, Cas(0)))];
    StartTrace(cfg, c, steps[0]);
    steps := TryTo(cfg, c, ctx, steps, Cas(0), rs, Return(0, Nothing), []);
    steps := Step(cfg, c, steps, Point(rs, CloseFail(0, [], 0)), []);
    steps := Step(cfg, c, steps, Point(SetStatus(rs, 0, Failed), CloseLoop([], 1)), []);
  }

  // ------------------------------------------------ a winner

  /** Up to the fetched rows. */
  lemma WinTrace(cfg: Config, rs: Rounds, c: CallId, records: seq<Record>) returns (steps: Trace)
    requires 0 in rs && rs[0].status == Open && |rs[0].rows| >= cfg.minParticipants && IsListing(records, rs[0].rows)
    ensures IsTrace(cfg, c, steps) && steps[0] == Point(rs, Try(Resolve(0)))
    ensures Last(steps) == Point(SetStatus(rs, 0, Aggregating), Try(Filtering(0, records)))
  {
    hide IsTrace, Last, FilterOutcome, Produced, IsListing;
    var rs' := SetStatus(rs, 0, Aggregating);
    steps := [Point(rs, Try(Resolve(0)))];
    StartTrace(cfg, c, steps[0]);
    steps := TryTo(cfg, c, Alone, steps, Resolve(0), rs, Count(0), []);
    steps := TryTo(cfg, c, Alone, steps, Count(0), rs, Cas(0), []);
    steps := TryTo(cfg, c, Alone, steps, Cas(0), rs', Fetching(0), [Won(c, 0)]);
    steps := TryTo(cfg, c, Alone, steps, Fetching(0), rs', Filtering(0, records), [Fetched(c, 0, records)]);
  }

  /** A filter that could measure nothing keeps everything. */
  lemma UnmeasuredOutcome(cfg: Config, records: seq<Record>)
    ensures FilterOutcome(cfg, records, records, [])
  {
    if cfg.hasStorage {
      var none: Record -> Option<real> := x => None;
      NothingMeasured(records, none);
      assert IsReading(none, cfg.sqrt);
      assert Accepted(records, none, cfg.anomalyThreshold, cfg.sqrt) == records;
    }
  }

  lemma {:induction false} NothingMeasured(records: seq<Record>, none: Record -> Option<real>)
    requires forall x :: none(x) == None
    ensures Norms(records, none) == []
    decreases |records|
  {
    if records != [] {
      NothingMeasured(records[..|records| - 1], none);
    }
  }

  /** Uploads of empty gradients, equally weighted. */
  lemma SomeHash(cfg: Config, records: seq<Record>) returns (hash: string)
    ensures Produced(cfg, records, hash)
  {
    hide FedAvg.Aggregate, FedAvg.ClipNorm;
    var fetch: Fetch, weightOf: NodeId -> real := x => Some(map[]), n => 1.0;
    hash := cfg.hashOf(FedAvg.Aggregate(records, fetch, weightOf, FedAvg.ClipNorm(cfg.clipNorm), cfg.sqrt));
    assert FedAvg.AllFetched(records, fetch);
  }

  lemma ReadyTrace(cfg: Config, rs: Rounds, c: CallId, records: seq<Record>) returns (steps: Trace, hash: string)
    requires 0 in rs && rs[0].status == Open && |rs[0].rows| >= cfg.minParticipants && IsListing(records, rs[0].rows)
    ensures IsTrace(cfg, c, steps) && steps[0] == Point(rs, Try(Resolve(0)))
    ensures Last(steps) == Point(SetStatus(rs, 0, Aggregating), Try(Completing(0, records, hash)))
  {
    hide IsTrace, Last, FilterOutcome, Produced;
    var rs' := SetStatus(rs, 0, Aggregating);
    steps := WinTrace(cfg, rs, c, records);
    UnmeasuredOutcome(cfg, records);
    steps := TryTo(cfg, c, Alone, steps, Filtering(0, records), rs', Flagging(0, records, []), []);
    steps := TryTo(cfg, c, Alone, steps, Flagging(0, records, []), rs', Averaging(0, records), []);
    hash := SomeHash(cfg, records);
    steps := TryTo(cfg, c, Alone, steps, Averaging(0, records), rs', Completing(0, records, hash), []);
  }

  lemma CompleteTrace(cfg: Config, rs: Rounds, c: CallId, records: seq<Record>, hash: string) returns (steps: Trace)
    requires 0 in rs
    ensures IsTrace(cfg, c, steps) && steps[0] == Point(rs, Try(Completing(0, records, hash)))
    ensures Last(steps) == Point(SetComplete(rs, 0, hash), Try(Return(0, Summary)))
  {
    hide IsTrace, Last, FilterOutcome, Produced, IsListing;
    steps := [Point(rs, Try(Completing(0, records, hash)))];
    StartTrace(cfg, c, steps[0]);
    steps := TryTo(cfg, c, Alone, steps, Completing(0, records, hash), SetComplete(rs, 0, hash), Return(0, Summary), [Wrote(c, 0, hash, records)]);
  }

  // ------------------------------------------------ endings that are not final

  function Participant(i: nat): Record {
    Record(i, "", "")
  }

  /** Enough participants, a pass just before its CAS, and a winner just before its checkpoint. */
  lemma Standoff(cfg: Config) returns (t: Story, pass: CallId, winner: CallId, records: seq<Record>, hash: string)
    ensures Happens(cfg, t) && t.run != [] && pass != winner && pass in Now(t).calls && winner in Now(t).calls
    ensures Now(t).rounds.Keys == {0} && Now(t).rounds[0].status == Aggregating
    ensures Now(t).calls[pass] == CloseInner([], 0, Cas(0)) && Now(t).calls[winner] == Try(Completing(0, records, hash))
  {
    hide IsTrace, Last, IsListing;
    var n := cfg.minParticipants;
    records := seq(n, i requires 0 <= i < n => Participant(i));
    pass, winner := n, n + 1;
    t := Submitted(cfg, records);
    RowsOfListed(records);
    var rs := Now(t).rounds;
    ListingSize(records, rs[0].rows);
    var steps := PassTrace(cfg, rs, pass);
    t := Enter(cfg, t, pass, steps);
    steps, hash := ReadyTrace(cfg, rs, winner, records);
    t := Enter(cfg, t, winner, steps);
  }

  lemma ListingSize(records: seq<Record>, rows: map<NodeId, Row>)
    requires IsListing(records, rows)
    ensures |rows| == |records|
  {
  }

  /** Under every configuration there is a run in which a complete round becomes failed. */
  lemma CompleteCanFail(cfg: Config) returns (t: Story, i: nat)
    ensures Happens(cfg, t) && i < |t.run|
    ensures 0 in t.run[i].rounds && t.run[i].rounds[0].status == Complete
    ensures 0 in Now(t).rounds && Now(t).rounds[0].status == Failed && Now(t).rounds[0].checkpoint.Some?
  {
    hide IsTrace, Last, Does;
    var pass, winner, records, hash;
    t, pass, winner, records, hash := Standoff(cfg);
    var steps := CompleteTrace(cfg, Now(t).rounds, winner, records, hash);
    t := Resume(cfg, t, winner, steps);
    i := |t.run| - 1;
    var done := t.run;
    steps := LostTrace(cfg, Now(t).rounds, pass);
    t := Resume(cfg, t, pass, steps);
    assert t.run[i] == done[i];
  }

  /** Under every configuration there is a run in which a failed round becomes complete. */
  lemma FailedCanComplete(cfg: Config) returns (t: Story, i: nat)
    ensures Happens(cfg, t) && i < |t.run|
    ensures 0 in t.run[i].rounds && t.run[i].rounds[0].status == Failed
    ensures 0 in Now(t).rounds && Now(t).rounds[0].status == Complete
  {
    hide IsTrace, Last, Does;
    var pass, winner, records, hash;
    t, pass, winner, records, hash := Standoff(cfg);
    var steps := LostTrace(cfg, Now(t).rounds, pass);
    t := Resume(cfg, t, pass, steps);
    i := |t.run| - 1;
    var done := t.run;
    steps := CompleteTrace(cfg, Now(t).rounds, winner, records, hash);
    t := Resume(cfg, t, winner, steps);
    assert t.run[i] == done[i];
  }

  // ------------------------------------------------ too many outliers

  lemma RejectingTrace(cfg: Config, rs: Rounds, c: CallId) returns (steps: Trace)
    requires ValidConfig(cfg) && cfg.hasStorage && !Lenient(cfg)
    requires 0 in rs && rs[0].status == Open && IsListing(Uploads(cfg.minParticipants), rs[0].rows)
    ensures IsTrace(cfg, c, steps) && steps[0] == Point(rs, Try(Resolve(0))) && Last(steps).call == Try(Failing(0, true))
  {
    hide IsTrace, Last, FilterOutcome, Produced, Accepted, Rejected, Measure, IsSqrt, Suffices;
    var records := Uploads(cfg.minParticipants);
    ListingSize(records, rs[0].rows);
    steps := WinTrace(cfg, rs, c, records);
    var measure, k := Measure(OneOutlier(), cfg.sqrt), cfg.anomalyThreshold;
    var accepted, flags := Accepted(records, measure, k, cfg.sqrt), Rejected(records, measure, k, cfg.sqrt);
    OutlierRejected(cfg.minParticipants, k, cfg.sqrt);
    OutlierOutcome(cfg, records);
    var rs' := SetStatus(rs, 0, Aggregating);
    steps := TryTo(cfg, c, Alone, steps, Filtering(0, records), rs', Flagging(0, accepted, flags), []);
    var i := 0;
    while i < |flags|
      invariant 0 <= i <= |flags| && IsTrace(cfg, c, steps) && steps[0] == Point(rs, Try(Resolve(0)))
      invariant Last(steps).call == Try(Flagging(0, accepted, flags[i..]))
    {
      var now := Last(steps).rounds;
      assert flags[i..][1..] == flags[i + 1..];
      steps := TryTo(cfg, c, Alone, steps, Flagging(0, accepted, flags[i..]), SetFlag(now, 0, flags[i].node), Flagging(0, accepted, flags[i + 1..]), []);
      i := i + 1;
    }
    steps := TryTo(cfg, c, Alone, steps, Flagging(0, accepted, []), Last(steps).rounds, Failing(0, true), []);
  }

  lemma OutlierOutcome(cfg: Config, records: seq<Record>)
    requires cfg.hasStorage
    ensures var measure, k := Measure(OneOutlier(), cfg.sqrt), cfg.anomalyThreshold;
      FilterOutcome(cfg, records, Accepted(records, measure, k, cfg.sqrt), Rejected(records, measure, k, cfg.sqrt))
  {
    hide Accepted, Rejected;
    MeasureIsReading(OneOutlier(), cfg.sqrt);
  }

  /** Round failures for too many outliers. */
  ghost predicate TooManyAnomalous(s: State) {
    exists c :: c in s.calls && PcOf(s.calls[c]).Some? && PcOf(s.calls[c]).value.Failing? && PcOf(s.calls[c]).value.tooManyAnomalous
  }

  lemma OutlierStory(cfg: Config) returns (t: Story)
    requires ValidConfig(cfg) && cfg.hasStorage && !Lenient(cfg)
    ensures Happens(cfg, t) && t.run != [] && TooManyAnomalous(Now(t))
  {
    hide IsTrace, Last, IsSqrt, IsListing, Suffices;
    var m := cfg.minParticipants;
    UploadsDistinct(m);
    t := Submitted(cfg, Uploads(m));
    RowsOfListed(Uploads(m));
    var steps := RejectingTrace(cfg, Now(t).rounds, m);
    t := Enter(cfg, t, m, steps);
    assert Now(t).calls[m] == Try(Failing(0, true));
  }

  /** With storage, for every number of required participants, some run takes the "too many anomalous gradients"
      failure exactly when the threshold does not suffice for that number. */
  lemma TooManyAnomalousIff(cfg: Config)
    requires ValidConfig(cfg) && cfg.hasStorage
    ensures Suffices(cfg.anomalyThreshold, cfg.minParticipants) <==>
      forall run: seq<State>, acts: seq<Action>, i: nat :: IsRun(cfg, run, acts) && i < |run| ==> !TooManyAnomalous(run[i])
  {
    hide IsRun, IsSqrt, Suffices;
    if Lenient(cfg) {
      forall run: seq<State>, acts: seq<Action>, i: nat | IsRun(cfg, run, acts) && i < |run|
        ensures !TooManyAnomalous(run[i])
      {
        forall c | c in run[i].calls && PcOf(run[i].calls[c]).Some?
          ensures !(PcOf(run[i].calls[c]).value.Failing? && PcOf(run[i].calls[c]).value.tooManyAnomalous)
        {
          NeverTooManyAnomalous(cfg, run, acts, i, c);
        }
      }
    } else {
      var t := OutlierStory(cfg);
      assert IsRun(cfg, t.run, t.acts) && TooManyAnomalous(t.run[|t.run| - 1]);
    }
  }
}
