/**
 Safety of the round protocol over every run: at most one winner per round, no reopening, one
 checkpoint per round and only the winner's, and no winner ever starved by the anomaly filter.
 */
module RoundSafety {
  import opened Options
  import opened Sums
  import opened Gradients
  import opened Anomaly
  import opened RoundProtocol
  import opened RoundListing
  import FedAvg

  // ------------------------------------------------ the invariant

  /** The TryAggregate a call is executing, on its own or inside CloseExpired. */
  function PcOf(call: Call): Option<Pc> {
    match call
    case Try(pc) => Some(pc)
    case CloseInner(_, _, pc) => Some(pc)
    case _ => None
  }

  /** Past a successful CAS and not yet returned. */
  predicate Holding(pc: Pc) {
    pc.Fetching? || pc.Filtering? || pc.Flagging? || pc.Averaging? || pc.Completing? || pc.Failing?
  }

  ghost predicate Enough(cfg: Config, rs: Rounds, r: RoundNo) {
    r in rs && |rs[r].rows| >= cfg.minParticipants
  }

  /** The threshold suffices for the participants required. */
  ghost predicate Lenient(cfg: Config) {
    Suffices(cfg.anomalyThreshold, cfg.minParticipants)
  }

  /** The accepted records come from rows that call c fetched for round r, each node once. */
  ghost predicate FromFetch(log: seq<Event>, c: CallId, r: RoundNo, accepted: seq<Record>) {
    DistinctNodes(accepted)
    && exists records :: Fetched(c, r, records) in log && forall x :: x in accepted ==> x in records
  }

  ghost predicate PcInv(cfg: Config, rs: Rounds, log: seq<Event>, c: CallId, pc: Pc) {
    && (Holding(pc) ==> Won(c, pc.r) in log && forall e :: e in log && e.Wrote? ==> e.r != pc.r)
    && match pc
       case Cas(r) => Enough(cfg, rs, r)
       case Fetching(r) => Enough(cfg, rs, r)
       case Filtering(r, records) =>
         Fetched(c, r, records) in log && DistinctNodes(records) && |records| >= cfg.minParticipants
       case Flagging(r, accepted, _) =>
         FromFetch(log, c, r, accepted) && (Lenient(cfg) ==> |accepted| >= cfg.minParticipants)
       case Averaging(r, accepted) =>
         FromFetch(log, c, r, accepted) && |accepted| >= cfg.minParticipants
       case Completing(r, accepted, hash) =>
         FromFetch(log, c, r, accepted) && |accepted| >= cfg.minParticipants && Produced(cfg, accepted, hash)
       case Failing(r, tooMany) => Lenient(cfg) ==> !tooMany
       case _ => true
  }

  ghost predicate CallsInv(cfg: Config, s: State) {
    forall c :: c in s.calls && PcOf(s.calls[c]).Some? ==> PcInv(cfg, s.rounds, s.log, c, PcOf(s.calls[c]).value)
  }

  /** At most one CAS ever matches a given round. */
  ghost predicate OneWinner(log: seq<Event>) {
    forall i, j :: 0 <= i < j < |log| && log[i].Won? && log[j].Won? ==> log[i].r != log[j].r
  }

  /** The checkpoint of a round is written at most once, by its winner, over enough of its records. */
  ghost predicate OneCheckpoint(cfg: Config, log: seq<Event>) {
    && (forall i, j :: 0 <= i < j < |log| && log[i].Wrote? && log[j].Wrote? ==> log[i].r != log[j].r)
    && forall e :: e in log && e.Wrote? ==> WriteInv(cfg, log, e)
  }

  ghost predicate WriteInv(cfg: Config, log: seq<Event>, e: Event)
    requires e.Wrote?
  {
    && Won(e.c, e.r) in log
    && FromFetch(log, e.c, e.r, e.accepted)
    && |e.accepted| >= cfg.minParticipants
    && Produced(cfg, e.accepted, e.hash)
  }

  ghost predicate WonClosed(rs: Rounds, log: seq<Event>) {
    forall e :: e in log && e.Won? ==> e.r in rs && rs[e.r].status != Open
  }

  /** A checkpoint in the database is one the log shows being written; a complete round has one. */
  ghost predicate Recorded(rs: Rounds, log: seq<Event>) {
    forall r :: r in rs ==> RoundRecorded(rs[r], r, log)
  }

  ghost predicate RoundRecorded(round: Round, r: RoundNo, log: seq<Event>) {
    && (round.status == Complete ==> round.checkpoint.Some?)
    && (round.checkpoint.Some? ==> exists e :: e in log && e.Wrote? && e.r == r && e.hash == round.checkpoint.value)
  }

  ghost predicate Inv(cfg: Config, s: State) {
    && OneWinner(s.log) && OneCheckpoint(cfg, s.log)
    && WonClosed(s.rounds, s.log) && Recorded(s.rounds, s.log)
    && CallsInv(cfg, s)
  }

  // ------------------------------------------------ how the database may change

  /** Rounds stay, closed rounds stay closed, participant rows stay. */
  ghost predicate Grows(rs: Rounds, rs': Rounds) {
    forall r :: r in rs ==>
      && r in rs' && (rs[r].status != Open ==> rs'[r].status != Open)
      && rs[r].rows.Keys <= rs'[r].rows.Keys && |rs[r].rows| <= |rs'[r].rows|
  }

  lemma TryGrows(cfg: Config, c: CallId, rs: Rounds, pc: Pc, rs': Rounds, pc': Pc, events: seq<Event>)
    requires TryStep(cfg, c, rs, pc, rs', pc', events)
    ensures Grows(rs, rs')
  {
    hide FilterOutcome, Produced, IsListing;
  }

  lemma StepGrows(cfg: Config, c: CallId, rs: Rounds, call: Call, rs': Rounds, call': Call, events: seq<Event>)
    requires CallStep(cfg, c, rs, call, rs', call', events)
    ensures Grows(rs, rs')
  {
    hide TryStep, IsExpiredListing;
    match call
    case Try(pc) => TryGrows(cfg, c, rs, pc, rs', call'.pc, events);
    case CloseInner(todo, closed, pc) =>
      if !pc.Return? {
        TryGrows(cfg, c, rs, pc, rs', call'.pc, events);
      }
    case _ =>
  }

  lemma ActionGrows(cfg: Config, s: State, a: Action, s': State)
    requires Does(cfg, s, a, s')
    ensures Grows(s.rounds, s'.rounds)
    ensures |s.log| <= |s'.log| && s'.log[..|s.log|] == s.log
  {
    hide CallStep;
    match a
    case Advance(c) => StepGrows(cfg, c, s.rounds, s.calls[c], s'.rounds, s'.calls[c], s'.log[|s.log|..]);
    case _ =>
  }

  // ------------------------------------------------ a call's own invariant after its own step

  lemma {:induction false} FilterDistinct(records: seq<Record>, p: Record -> bool)
    requires DistinctNodes(records)
    ensures DistinctNodes(Filter(records, p))
    decreases |records|
  {
    if records != [] {
      var n := |records| - 1;
      FilterDistinct(records[..n], p);
      var kept := Filter(records[..n], p);
      forall i | 0 <= i < |kept|
        ensures kept[i].node != records[n].node
      {
        FilterMember(records[..n], p, kept[i]);
        var j :| 0 <= j < n && records[..n][j] == kept[i];
        assert records[j].node != records[n].node;
      }
    }
  }

  lemma AcceptedFacts(cfg: Config, records: seq<Record>, accepted: seq<Record>, flags: seq<Record>)
    requires ValidConfig(cfg) && DistinctNodes(records) && |records| >= cfg.minParticipants
    requires FilterOutcome(cfg, records, accepted, flags)
    ensures DistinctNodes(accepted) && forall x :: x in accepted ==> x in records
    ensures Lenient(cfg) ==> |accepted| >= cfg.minParticipants
  {
    hide DistinctNodes, IsReading, Accepted, Rejected, IsSqrt;
    if cfg.hasStorage {
      var k := cfg.anomalyThreshold;
      var measure :| IsReading(measure, cfg.sqrt)
        && accepted == Accepted(records, measure, k, cfg.sqrt) && flags == Rejected(records, measure, k, cfg.sqrt);
      AcceptedDistinct(records, measure, k, cfg.sqrt);
      FilterPartitions(records, measure, k, cfg.sqrt);
      if Lenient(cfg) {
        KeepsEnough(records, measure, k, cfg.sqrt, cfg.minParticipants);
      }
    }
  }

  lemma AcceptedDistinct(records: seq<Record>, measure: Record -> Option<real>, k: real, sqrt: real -> real)
    requires DistinctNodes(records)
    ensures DistinctNodes(Accepted(records, measure, k, sqrt))
  {
    hide DistinctNodes;
    var norms := Norms(records, measure);
    if |norms| >= 2 {
      FilterDistinct(records, Keeps(measure, Threshold(norms, k, sqrt)));
    }
  }

  /** A holder is the only one: two would both have won. */
  lemma SoleHolder(log: seq<Event>, c: CallId, c': CallId, r: RoundNo)
    requires OneWinner(log) && Won(c, r) in log && Won(c', r) in log
    ensures c == c'
  {
    var i :| 0 <= i < |log| && log[i] == Won(c, r);
    var j :| 0 <= j < |log| && log[j] == Won(c', r);
  }

  /** A round that has been written was won, so it is not open and no CAS on it can match. */
  lemma NoWriteWhileOpen(cfg: Config, rs: Rounds, log: seq<Event>, r: RoundNo)
    requires OneCheckpoint(cfg, log) && WonClosed(rs, log) && r in rs && rs[r].status == Open
    ensures forall e :: e in log && e.Wrote? ==> e.r != r
    ensures forall e :: e in log && e.Won? ==> e.r != r
  {
    forall e | e in log && e.Wrote?
      ensures e.r != r
    {
      assert WriteInv(cfg, log, e);
      assert Won(e.c, e.r).r == e.r;
    }
  }

  lemma FromFetchExtends(log: seq<Event>, more: seq<Event>, c: CallId, r: RoundNo, accepted: seq<Record>)
    requires FromFetch(log, c, r, accepted)
    ensures FromFetch(log + more, c, r, accepted)
  {
    var records :| Fetched(c, r, records) in log && forall x :: x in accepted ==> x in records;
    assert Fetched(c, r, records) in log + more;
  }

  lemma OwnStep(cfg: Config, c: CallId, rs: Rounds, log: seq<Event>, pc: Pc, rs': Rounds, pc': Pc, events: seq<Event>)
    requires ValidConfig(cfg) && TryStep(cfg, c, rs, pc, rs', pc', events) && PcInv(cfg, rs, log, c, pc)
    requires OneCheckpoint(cfg, log) && WonClosed(rs, log)
    ensures PcInv(cfg, rs', log + events, c, pc')
  {
    hide DistinctNodes, Lenient, Produced, FilterOutcome, OneCheckpoint, WonClosed;
    assert log + [] == log;
    match pc
    case Cas(r) =>
      if events != [] {
        NoWriteWhileOpen(cfg, rs, log, r);
        assert Won(c, r) in log + events;
      }
    case Filtering(r, records) =>
      AcceptedFacts(cfg, records, pc'.accepted, pc'.flags);
      assert FromFetch(log, c, r, pc'.accepted);
    case Fetching(r) =>
      if events != [] {
        assert Fetched(c, r, pc'.records) in log + events;
        ListingIsDistinct(pc'.records, rs[r].rows);
      }
    case _ =>
  }

  // ------------------------------------------------ the other calls

  lemma OtherCall(cfg: Config, c: CallId, rs: Rounds, log: seq<Event>, rs': Rounds, events: seq<Event>, c': CallId, pc: Pc)
    requires Grows(rs, rs') && PcInv(cfg, rs, log, c', pc)
    requires Holding(pc) ==> forall e :: e in events && e.Wrote? ==> e.r != pc.r
    ensures PcInv(cfg, rs', log + events, c', pc)
  {
    hide DistinctNodes, Lenient, Produced;
    match pc
    case Flagging(r, accepted, _) => FromFetchExtends(log, events, c', r, accepted);
    case Averaging(r, accepted) => FromFetchExtends(log, events, c', r, accepted);
    case Completing(r, accepted, _) => FromFetchExtends(log, events, c', r, accepted);
    case _ =>
  }

  // ------------------------------------------------ the log

  /** What one step adds to the log. */
  ghost predicate StepEvents(cfg: Config, c: CallId, rs: Rounds, log: seq<Event>, events: seq<Event>) {
    || events == []
    || (exists r :: events == [Won(c, r)] && r in rs && rs[r].status == Open)
    || (exists r, records :: events == [Fetched(c, r, records)])
    || (exists r, hash, accepted :: events == [Wrote(c, r, hash, accepted)]
          && PcInv(cfg, rs, log, c, Completing(r, accepted, hash)))
  }

  lemma TryEvents(cfg: Config, c: CallId, rs: Rounds, log: seq<Event>, pc: Pc, rs': Rounds, pc': Pc, events: seq<Event>)
    requires TryStep(cfg, c, rs, pc, rs', pc', events) && PcInv(cfg, rs, log, c, pc)
    ensures StepEvents(cfg, c, rs, log, events)
  {
    hide PcInv, FilterOutcome, Produced, IsListing;
  }

  lemma StepEventsOf(cfg: Config, c: CallId, rs: Rounds, log: seq<Event>, call: Call, rs': Rounds, call': Call, events: seq<Event>)
    requires CallStep(cfg, c, rs, call, rs', call', events)
    requires PcOf(call).Some? ==> PcInv(cfg, rs, log, c, PcOf(call).value)
    ensures StepEvents(cfg, c, rs, log, events)
  {
    hide PcInv, TryStep, IsExpiredListing;
    match call
    case Try(pc) => TryEvents(cfg, c, rs, log, pc, rs', call'.pc, events);
    case CloseInner(todo, closed, pc) =>
      if !pc.Return? {
        TryEvents(cfg, c, rs, log, pc, rs', call'.pc, events);
      }
    case _ =>
  }

  lemma WriteExtends(cfg: Config, log: seq<Event>, events: seq<Event>, e: Event)
    requires e.Wrote? && WriteInv(cfg, log, e)
    ensures WriteInv(cfg, log + events, e)
  {
    hide Produced;
    FromFetchExtends(log, events, e.c, e.r, e.accepted);
  }

  lemma LogStep(cfg: Config, c: CallId, rs: Rounds, log: seq<Event>, events: seq<Event>)
    requires StepEvents(cfg, c, rs, log, events)
    requires OneWinner(log) && OneCheckpoint(cfg, log) && WonClosed(rs, log)
    ensures OneWinner(log + events) && OneCheckpoint(cfg, log + events)
  {
    hide WriteInv, Produced, FromFetch;
    assert log + [] == log;
    forall e | e in log + events && e.Wrote?
      ensures WriteInv(cfg, log + events, e)
    {
      if e in log {
        WriteExtends(cfg, log, events, e);
      } else {
        NewWrite(cfg, c, rs, log, events, e);
      }
    }
    if events != [] && events[0].Won? {
      var r := events[0].r;
      NoWriteWhileOpen(cfg, rs, log, r);
      assert forall i :: 0 <= i < |log| && log[i].Won? ==> log[i] in log;
    } else if events != [] && events[0].Wrote? {
      assert forall i :: 0 <= i < |log| && log[i].Wrote? ==> log[i] in log;
    }
  }

  lemma NewWrite(cfg: Config, c: CallId, rs: Rounds, log: seq<Event>, events: seq<Event>, e: Event)
    requires StepEvents(cfg, c, rs, log, events) && e in events && e.Wrote?
    ensures WriteInv(cfg, log + events, e)
  {
    hide Produced, FromFetch;
    FromFetchExtends(log, events, e.c, e.r, e.accepted);
  }

  lemma WonClosedStep(cfg: Config, c: CallId, rs: Rounds, log: seq<Event>, call: Call, rs': Rounds, call': Call, events: seq<Event>)
    requires CallStep(cfg, c, rs, call, rs', call', events) && WonClosed(rs, log)
    ensures WonClosed(rs', log + events)
  {
    hide TryStep, IsExpiredListing;
    StepGrows(cfg, c, rs, call, rs', call', events);
    forall e | e in events && e.Won?
      ensures e.r in rs' && rs'[e.r].status != Open
    {
      match call
      case Try(pc) => WinCloses(cfg, c, rs, pc, rs', call'.pc, events, e);
      case CloseInner(todo, closed, pc) =>
        if !pc.Return? {
          WinCloses(cfg, c, rs, pc, rs', call'.pc, events, e);
        }
      case _ =>
    }
  }

  lemma WinCloses(cfg: Config, c: CallId, rs: Rounds, pc: Pc, rs': Rounds, pc': Pc, events: seq<Event>, e: Event)
    requires TryStep(cfg, c, rs, pc, rs', pc', events) && e in events && e.Won?
    ensures e.r in rs' && rs'[e.r].status != Open
  {
    hide FilterOutcome, Produced, IsListing;
  }

  // ------------------------------------------------ the recorded checkpoint

  lemma RecordedExtends(round: Round, r: RoundNo, log: seq<Event>, events: seq<Event>)
    requires RoundRecorded(round, r, log)
    ensures RoundRecorded(round, r, log + events)
  {
    if round.checkpoint.Some? {
      var e :| e in log && e.Wrote? && e.r == r && e.hash == round.checkpoint.value;
      assert e in log + events;
    }
  }

  /** Statements other than the checkpoint UPDATE keep the checkpoint and never set 'complete'. */
  ghost predicate KeepsCheckpoints(rs: Rounds, rs': Rounds) {
    rs'.Keys == rs.Keys
    && forall r :: r in rs ==>
         rs'[r].checkpoint == rs[r].checkpoint && (rs'[r].status == Complete ==> rs[r].status == Complete)
  }

  lemma KeptRecorded(rs: Rounds, rs': Rounds, log: seq<Event>, events: seq<Event>)
    requires Recorded(rs, log) && KeepsCheckpoints(rs, rs')
    ensures Recorded(rs', log + events)
  {
    forall r | r in rs'
      ensures RoundRecorded(rs'[r], r, log + events)
    {
      RecordedExtends(rs[r], r, log, events);
    }
  }

  lemma TryRecorded(cfg: Config, c: CallId, rs: Rounds, log: seq<Event>, pc: Pc, rs': Rounds, pc': Pc, events: seq<Event>)
    requires TryStep(cfg, c, rs, pc, rs', pc', events) && Recorded(rs, log)
    ensures Recorded(rs', log + events)
  {
    hide FilterOutcome, Produced, IsListing, Recorded, RoundRecorded;
    if pc.Completing? && pc'.Return? && pc'.result.Summary? {
      WrittenRecorded(c, rs, log, pc.r, pc.accepted, pc.hash);
    } else {
      assert KeepsCheckpoints(rs, rs');
      KeptRecorded(rs, rs', log, events);
    }
  }

  lemma WrittenRecorded(c: CallId, rs: Rounds, log: seq<Event>, r: RoundNo, accepted: seq<Record>, hash: string)
    requires Recorded(rs, log)
    ensures Recorded(SetComplete(rs, r, hash), log + [Wrote(c, r, hash, accepted)])
  {
    var rs', log' := SetComplete(rs, r, hash), log + [Wrote(c, r, hash, accepted)];
    forall q | q in rs'
      ensures RoundRecorded(rs'[q], q, log')
    {
      if q == r {
        assert Wrote(c, r, hash, accepted) in log';
      } else {
        RecordedExtends(rs[q], q, log, [Wrote(c, r, hash, accepted)]);
      }
    }
  }

  lemma RecordedStep(cfg: Config, c: CallId, rs: Rounds, log: seq<Event>, call: Call, rs': Rounds, call': Call, events: seq<Event>)
    requires CallStep(cfg, c, rs, call, rs', call', events) && Recorded(rs, log)
    ensures Recorded(rs', log + events)
  {
    hide TryStep, IsExpiredListing, Recorded;
    match call
    case Try(pc) => TryRecorded(cfg, c, rs, log, pc, rs', call'.pc, events);
    case CloseInner(todo, closed, pc) =>
      if pc.Return? {
        KeptRecorded(rs, rs', log, events);
      } else {
        TryRecorded(cfg, c, rs, log, pc, rs', call'.pc, events);
      }
    case _ => KeptRecorded(rs, rs', log, events);
  }

  // ------------------------------------------------ every step keeps the invariant

  lemma OwnCall(cfg: Config, c: CallId, rs: Rounds, log: seq<Event>, call: Call, rs': Rounds, call': Call, events: seq<Event>)
    requires ValidConfig(cfg) && CallStep(cfg, c, rs, call, rs', call', events)
    requires PcOf(call).Some? ==> PcInv(cfg, rs, log, c, PcOf(call).value)
    requires OneCheckpoint(cfg, log) && WonClosed(rs, log)
    ensures PcOf(call').Some? ==> PcInv(cfg, rs', log + events, c, PcOf(call').value)
  {
    hide TryStep, IsExpiredListing, OneCheckpoint, WonClosed, IsSqrt;
    match call
    case Try(pc) => OwnStep(cfg, c, rs, log, pc, rs', call'.pc, events);
    case CloseInner(todo, closed, pc) =>
      if !pc.Return? {
        OwnStep(cfg, c, rs, log, pc, rs', call'.pc, events);
      }
    case _ =>
  }

  lemma OtherCalls(cfg: Config, c: CallId, rs: Rounds, log: seq<Event>, rs': Rounds, events: seq<Event>, c': CallId, pc: Pc)
    requires c' != c && Grows(rs, rs') && PcInv(cfg, rs, log, c', pc)
    requires StepEvents(cfg, c, rs, log, events) && OneWinner(log)
    ensures PcInv(cfg, rs', log + events, c', pc)
  {
    hide Grows;
    if Holding(pc) && events != [] && events[0].Wrote? {
      var e := events[0];
      assert Won(c, e.r) in log;
      if e.r == pc.r {
        SoleHolder(log, c, c', pc.r);
      }
    }
    OtherCall(cfg, c, rs, log, rs', events, c', pc);
  }

  lemma AdvanceInv(cfg: Config, s: State, c: CallId, s': State)
    requires ValidConfig(cfg) && Inv(cfg, s) && Does(cfg, s, Advance(c), s')
    ensures Inv(cfg, s')
  {
    hide CallStep, PcInv, OneWinner, OneCheckpoint, WonClosed, Recorded, StepEvents, IsSqrt, Grows;
    var events := s'.log[|s.log|..];
    var call, call' := s.calls[c], s'.calls[c];
    StepGrows(cfg, c, s.rounds, call, s'.rounds, call', events);
    StepEventsOf(cfg, c, s.rounds, s.log, call, s'.rounds, call', events);
    LogStep(cfg, c, s.rounds, s.log, events);
    WonClosedStep(cfg, c, s.rounds, s.log, call, s'.rounds, call', events);
    RecordedStep(cfg, c, s.rounds, s.log, call, s'.rounds, call', events);
    OwnCall(cfg, c, s.rounds, s.log, call, s'.rounds, call', events);
    forall c' | c' in s'.calls && PcOf(s'.calls[c']).Some?
      ensures PcInv(cfg, s'.rounds, s'.log, c', PcOf(s'.calls[c']).value)
    {
      if c' != c {
        OtherCalls(cfg, c, s.rounds, s.log, s'.rounds, events, c', PcOf(s.calls[c']).value);
      }
    }
  }

  lemma ActionInv(cfg: Config, s: State, a: Action, s': State)
    requires ValidConfig(cfg) && Inv(cfg, s) && Does(cfg, s, a, s')
    ensures Inv(cfg, s')
  {
    hide CallStep, OneWinner, OneCheckpoint, IsSqrt;
    match a
    case Advance(c) => AdvanceInv(cfg, s, c, s');
    case OpenRound(r, t) =>
      assert s.log + [] == s.log;
      forall c | c in s.calls && PcOf(s.calls[c]).Some?
        ensures PcInv(cfg, s'.rounds, s.log, c, PcOf(s.calls[c]).value)
      {
        OtherCall(cfg, c, s.rounds, s.log, s'.rounds, [], c, PcOf(s.calls[c]).value);
      }
    case Start(c, call) =>
  }

  // ------------------------------------------------ every run

  lemma {:induction false} RunInv(cfg: Config, run: seq<State>, acts: seq<Action>, i: nat)
    requires ValidConfig(cfg) && IsRun(cfg, run, acts) && i < |run|
    ensures Inv(cfg, run[i])
    decreases i
  {
    hide Inv, Does, IsSqrt;
    if i == 0 {
      InitInv(cfg, run[0]);
    } else {
      RunInv(cfg, run, acts, i - 1);
      ActionInv(cfg, run[i - 1], acts[i - 1], run[i]);
    }
  }

  lemma InitInv(cfg: Config, s: State)
    requires Init(s)
    ensures Inv(cfg, s)
  {
  }

  lemma {:induction false} RunGrows(cfg: Config, run: seq<State>, acts: seq<Action>, i: nat, j: nat)
    requires IsRun(cfg, run, acts) && i <= j < |run|
    ensures Grows(run[i].rounds, run[j].rounds)
    ensures |run[i].log| <= |run[j].log| && run[j].log[..|run[i].log|] == run[i].log
    decreases j
  {
    hide Does;
    if i < j {
      RunGrows(cfg, run, acts, i, j - 1);
      ActionGrows(cfg, run[j - 1], acts[j - 1], run[j]);
    }
  }

  /** Every record is of a participant of the round. */
  ghost predicate Participants(records: seq<Record>, round: Round) {
    forall x :: x in records ==> x.node in round.rows
  }

  /** What a SELECT returned for a round is, to this day, among that round's participants. */
  ghost predicate FetchedRows(rs: Rounds, log: seq<Event>) {
    forall e :: e in log && e.Fetched? ==> e.r in rs && Participants(e.records, rs[e.r])
  }

  lemma TryFetches(cfg: Config, c: CallId, rs: Rounds, pc: Pc, rs': Rounds, pc': Pc, events: seq<Event>)
    requires TryStep(cfg, c, rs, pc, rs', pc', events)
    ensures FetchedRows(rs', events)
  {
    hide FilterOutcome, Produced;
  }

  lemma FetchedStays(rs: Rounds, log: seq<Event>, rs': Rounds, events: seq<Event>)
    requires FetchedRows(rs, log) && Grows(rs, rs') && FetchedRows(rs', events)
    ensures FetchedRows(rs', log + events)
  {
    forall e | e in log + events && e.Fetched?
      ensures e.r in rs' && Participants(e.records, rs'[e.r])
    {
      if e in log {
        assert Participants(e.records, rs[e.r]);
      }
    }
  }

  lemma StepFetches(cfg: Config, c: CallId, rs: Rounds, call: Call, rs': Rounds, call': Call, events: seq<Event>)
    requires CallStep(cfg, c, rs, call, rs', call', events)
    ensures FetchedRows(rs', events)
  {
    hide TryStep, IsExpiredListing;
    match call
    case Try(pc) => TryFetches(cfg, c, rs, pc, rs', call'.pc, events);
    case CloseInner(todo, closed, pc) =>
      if !pc.Return? {
        TryFetches(cfg, c, rs, pc, rs', call'.pc, events);
      }
    case _ =>
  }

  lemma {:induction false} RunFetches(cfg: Config, run: seq<State>, acts: seq<Action>, i: nat)
    requires IsRun(cfg, run, acts) && i < |run|
    ensures FetchedRows(run[i].rounds, run[i].log)
    decreases i
  {
    hide CallStep, Grows;
    if i > 0 {
      RunFetches(cfg, run, acts, i - 1);
      var s, a, s' := run[i - 1], acts[i - 1], run[i];
      assert Does(cfg, s, a, s');
      ActionGrows(cfg, s, a, s');
      if a.Advance? {
        StepFetches(cfg, a.c, s.rounds, s.calls[a.c], s'.rounds, s'.calls[a.c], s'.log[|s.log|..]);
        FetchedStays(s.rounds, s.log, s'.rounds, s'.log[|s.log|..]);
      } else {
        FetchedStays(s.rounds, s.log, s'.rounds, []);
        assert s.log + [] == s'.log;
      }
    }
  }

  /** In every interleaving: each round has at most one CAS winner; its checkpoint is written at most
      once, by that winner, over at least minParticipants records of distinct participants of that round;
      and a complete round carries exactly the hash of that one write. */
  lemma RoundSafety(cfg: Config, run: seq<State>, acts: seq<Action>, i: nat)
    requires ValidConfig(cfg) && IsRun(cfg, run, acts) && i < |run|
    ensures OneWinner(run[i].log) && OneCheckpoint(cfg, run[i].log)
    ensures forall r :: r in run[i].rounds && run[i].rounds[r].status == Complete ==>
      run[i].rounds[r].checkpoint.Some?
      && exists e :: (e in run[i].log && e.Wrote? && e.r == r && e.hash == run[i].rounds[r].checkpoint.value
                      && WriteInv(cfg, run[i].log, e) && Participants(e.accepted, run[i].rounds[r]))
  {
    hide OneWinner, WriteInv;
    RunInv(cfg, run, acts, i);
    RunFetches(cfg, run, acts, i);
    var s := run[i];
    forall r | r in s.rounds && s.rounds[r].status == Complete
      ensures exists e :: (e in s.log && e.Wrote? && e.r == r && e.hash == s.rounds[r].checkpoint.value
                           && WriteInv(cfg, s.log, e) && Participants(e.accepted, s.rounds[r]))
    {
      assert RoundRecorded(s.rounds[r], r, s.log);
      var e :| e in s.log && e.Wrote? && e.r == r && e.hash == s.rounds[r].checkpoint.value;
      assert WriteInv(cfg, s.log, e);
      WrittenByParticipants(cfg, s.rounds, s.log, e);
    }
  }

  lemma WrittenByParticipants(cfg: Config, rs: Rounds, log: seq<Event>, e: Event)
    requires e.Wrote? && e.r in rs && WriteInv(cfg, log, e) && FetchedRows(rs, log)
    ensures Participants(e.accepted, rs[e.r])
  {
    hide Produced;
    var records :| Fetched(e.c, e.r, records) in log && forall x :: x in e.accepted ==> x in records;
    var f := Fetched(e.c, e.r, records);
    assert f in log && f.Fetched?;
  }

  /** A round that has left 'open' never returns to it, and no participant row is ever lost. */
  lemma NeverReopens(cfg: Config, run: seq<State>, acts: seq<Action>, i: nat, j: nat, r: RoundNo)
    requires IsRun(cfg, run, acts) && i <= j < |run| && r in run[i].rounds
    ensures r in run[j].rounds && run[i].rounds[r].rows.Keys <= run[j].rounds[r].rows.Keys
    ensures run[i].rounds[r].status != Open ==> run[j].rounds[r].status != Open
  {
    RunGrows(cfg, run, acts, i, j);
  }

  /** With a threshold that suffices for the participants required, no run ever takes the "too many anomalous
      gradients" failure: rows counted before the CAS are still there when they are fetched, and the filter
      leaves enough of them. */
  lemma NeverTooManyAnomalous(cfg: Config, run: seq<State>, acts: seq<Action>, i: nat, c: CallId)
    requires ValidConfig(cfg) && Lenient(cfg) && IsRun(cfg, run, acts) && i < |run| && c in run[i].calls
    ensures PcOf(run[i].calls[c]).Some? ==>
      var pc := PcOf(run[i].calls[c]).value;
      !(pc.Failing? && pc.tooManyAnomalous) && (pc.Flagging? ==> |pc.accepted| >= cfg.minParticipants)
  {
    RunInv(cfg, run, acts, i);
  }

  /** The hash is that of the aggregate of these records, for some uploads of theirs and some non-negative
      weights, and that aggregate is within the clip norm. */
  ghost predicate HashesClippedAggregate(cfg: Config, accepted: seq<Record>, hash: string) {
    var c := FedAvg.ClipNorm(cfg.clipNorm);
    exists fetch: Fetch, weightOf: NodeId -> real ::
      && FedAvg.AllFetched(accepted, fetch)
      && hash == cfg.hashOf(FedAvg.Aggregate(accepted, fetch, weightOf, c, cfg.sqrt))
      && NormSq(FedAvg.Aggregate(accepted, fetch, weightOf, c, cfg.sqrt)) <= c * c
  }

  lemma ProducedWithinClip(cfg: Config, accepted: seq<Record>, hash: string)
    requires ValidConfig(cfg) && cfg.hasStorage && Produced(cfg, accepted, hash)
    ensures HashesClippedAggregate(cfg, accepted, hash)
  {
    hide NormSq, FedAvg.Aggregate, FedAvg.ClipNorm;
    var c := FedAvg.ClipNorm(cfg.clipNorm);
    var fetch: Fetch, weightOf: NodeId -> real :| FedAvg.AllFetched(accepted, fetch)
      && (forall n :: weightOf(n) >= 0.0)
      && hash == cfg.hashOf(FedAvg.Aggregate(accepted, fetch, weightOf, c, cfg.sqrt));
    FedAvg.AggregateWithinClip(accepted, fetch, weightOf, cfg.clipNorm, cfg.sqrt);
  }

  /** With storage configured, in every state of every run, a recorded checkpoint (every complete round has
      one) is the hash of an aggregate within the clip norm, over at least minParticipants participants of
      that round. */
  lemma CheckpointWithinClip(cfg: Config, run: seq<State>, acts: seq<Action>, i: nat, r: RoundNo)
    requires ValidConfig(cfg) && cfg.hasStorage && IsRun(cfg, run, acts) && i < |run| && r in run[i].rounds
    ensures run[i].rounds[r].status == Complete ==> run[i].rounds[r].checkpoint.Some?
    ensures run[i].rounds[r].checkpoint.Some? ==>
      exists accepted :: |accepted| >= cfg.minParticipants && Participants(accepted, run[i].rounds[r])
        && HashesClippedAggregate(cfg, accepted, run[i].rounds[r].checkpoint.value)
  {
    hide HashesClippedAggregate, Produced, FromFetch, IsSqrt;
    RunInv(cfg, run, acts, i);
    RunFetches(cfg, run, acts, i);
    var s := run[i];
    assert RoundRecorded(s.rounds[r], r, s.log);
    if s.rounds[r].checkpoint.Some? {
      var e :| e in s.log && e.Wrote? && e.r == r && e.hash == s.rounds[r].checkpoint.value;
      assert WriteInv(cfg, s.log, e);
      WrittenByParticipants(cfg, s.rounds, s.log, e);
      ProducedWithinClip(cfg, e.accepted, e.hash);
    }
  }
}
