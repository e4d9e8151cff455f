/**
 The round protocol (internal/fl/rounds.go): any number of TryAggregate, SubmitGradient and
 CloseExpired calls over shared rows. Every SQL statement is one atomic step, every call has its own
 program counter, and any call may take the next step. A statement that fails changes nothing.
 */
module RoundProtocol {
  import opened Options
  import opened Sums
  import opened Gradients
  import opened Anomaly
  import FedAvg

  type RoundNo = nat
  type CallId = nat

  datatype Status = Open | Aggregating | Complete | Failed

  datatype Row = Row(hash: string, url: string, flagged: bool)

  /** A row of fl_rounds with the fl_participants rows that refer to it, keyed by node. */
  datatype Round = Round(status: Status, checkpoint: Option<string>, startedAt: int, rows: map<NodeId, Row>)

  type Rounds = map<RoundNo, Round>

  datatype Config = Config(
    minParticipants: nat,
    anomalyThreshold: real,
    clipNorm: real,
    duration: int,
    hasStorage: bool,
    dbFails: bool,                     // whether statements may fail
    sqrt: real -> real,
    hashOf: GradMap -> string)

  ghost predicate ValidConfig(cfg: Config) {
    IsSqrt(cfg.sqrt) && cfg.anomalyThreshold >= 0.0
  }

  datatype Result = Summary | Nothing | Error

  /** Where a TryAggregate call on round r stands. */
  datatype Pc =
    | Resolve(r: RoundNo)
    | Count(r: RoundNo)
    | Cas(r: RoundNo)
    | Fetching(r: RoundNo)
    | Filtering(r: RoundNo, records: seq<Record>)
    | Flagging(r: RoundNo, accepted: seq<Record>, flags: seq<Record>)
    | Averaging(r: RoundNo, accepted: seq<Record>)
    | Completing(r: RoundNo, accepted: seq<Record>, hash: string)
    | Failing(r: RoundNo, tooManyAnomalous: bool)
    | Return(r: RoundNo, result: Result)

  datatype Call =
    | Try(pc: Pc)
    | CloseQuery
    | CloseLoop(todo: seq<RoundNo>, closed: nat)
    | CloseInner(todo: seq<RoundNo>, closed: nat, pc: Pc)
    | CloseFail(r: RoundNo, todo: seq<RoundNo>, closed: nat)
    | CloseDone(closed: nat)
    | CloseError
    | SubmitCheck(r: RoundNo, record: Record)
    | SubmitWrite(r: RoundNo, record: Record)
    | SubmitDone(ok: bool)

  /** What the statements of a run did that matters to its outcome. */
  datatype Event =
    | Won(c: CallId, r: RoundNo)                                                    // the CAS matched a row
    | Fetched(c: CallId, r: RoundNo, records: seq<Record>)                          // rows the SELECT returned
    | Wrote(c: CallId, r: RoundNo, hash: string, accepted: seq<Record>)             // the checkpoint UPDATE

  datatype State = State(rounds: Rounds, calls: map<CallId, Call>, log: seq<Event>)

  // ------------------------------------------------ one statement

  function SetStatus(rs: Rounds, r: RoundNo, status: Status): Rounds {
    if r in rs then rs[r := rs[r].(status := status)] else rs
  }

  function SetComplete(rs: Rounds, r: RoundNo, hash: string): Rounds {
    if r in rs then rs[r := rs[r].(status := Complete, checkpoint := Some(hash))] else rs
  }

  function SetFlag(rs: Rounds, r: RoundNo, n: NodeId): Rounds {
    if r in rs && n in rs[r].rows
    then rs[r := rs[r].(rows := rs[r].rows[n := rs[r].rows[n].(flagged := true)])]
    else rs
  }

  function Upsert(rs: Rounds, r: RoundNo, x: Record): Rounds {
    if r !in rs then rs
    else
      var flagged := x.node in rs[r].rows && rs[r].rows[x.node].flagged;
      rs[r := rs[r].(rows := rs[r].rows[x.node := Row(x.hash, x.url, flagged)])]
  }

  /** The participant rows of a round, in whatever order the database returns them. */
  ghost predicate IsListing(records: seq<Record>, rows: map<NodeId, Row>) {
    && DistinctNodes(records)
    && |records| == |rows|
    && forall x :: x in records ==> x.node in rows && x.hash == rows[x.node].hash && x.url == rows[x.node].url
  }

  /** The open rounds past their deadline, each once. */
  ghost predicate IsExpiredListing(todo: seq<RoundNo>, rs: Rounds, duration: int, now: int) {
    && (forall i, j :: 0 <= i < j < |todo| ==> todo[i] != todo[j])
    && (forall r :: r in todo <==> r in rs && rs[r].status == Open && rs[r].startedAt + duration < now)
  }

  /** Norms some storage could have given: none without a URL, otherwise none or that of some stored blob. */
  ghost predicate IsReading(measure: Record -> Option<real>, sqrt: real -> real) {
    forall x :: measure(x).Some? ==> x.url != "" && exists raw: Blob :: measure(x).value == sqrt(NormSq(GradOf(raw)))
  }

  /** The filter's verdict for some outcome of its reads from storage. */
  ghost predicate FilterOutcome(cfg: Config, records: seq<Record>, accepted: seq<Record>, flags: seq<Record>) {
    if !cfg.hasStorage then accepted == records && flags == []
    else exists measure: Record -> Option<real> ::
      && IsReading(measure, cfg.sqrt)
      && accepted == Accepted(records, measure, cfg.anomalyThreshold, cfg.sqrt)
      && flags == Rejected(records, measure, cfg.anomalyThreshold, cfg.sqrt)
  }

  /** The hash averaging yields for some outcome of its reads from storage and of the weight query. */
  ghost predicate Produced(cfg: Config, accepted: seq<Record>, hash: string) {
    cfg.hasStorage ==>
      exists fetch: Fetch, weightOf: NodeId -> real ::
        && FedAvg.AllFetched(accepted, fetch)
        && (forall n :: weightOf(n) >= 0.0)
        && hash == cfg.hashOf(FedAvg.Aggregate(accepted, fetch, weightOf, FedAvg.ClipNorm(cfg.clipNorm), cfg.sqrt))
  }

  /** One step of a TryAggregate call. */
  ghost predicate TryStep(cfg: Config, c: CallId, rs: Rounds, pc: Pc, rs': Rounds, pc': Pc, events: seq<Event>) {
    match pc
    case Resolve(r) =>
      rs' == rs && events == []
      && (if r in rs then pc' == Count(r) || (cfg.dbFails && pc' == Return(r, Error)) else pc' == Return(r, Error))
    case Count(r) =>
      rs' == rs && events == []
      && ((r in rs && pc' == if |rs[r].rows| < cfg.minParticipants then Return(r, Nothing) else Cas(r))
          || (cfg.dbFails && pc' == Return(r, Error)))
    case Cas(r) =>
      (if r in rs && rs[r].status == Open
       then rs' == SetStatus(rs, r, Aggregating) && pc' == Fetching(r) && events == [Won(c, r)]
       else rs' == rs && pc' == Return(r, Nothing) && events == [])
      || (cfg.dbFails && rs' == rs && pc' == Return(r, Error) && events == [])
    case Fetching(r) =>
      rs' == rs
      && ((r in rs && pc'.Filtering? && pc'.r == r && IsListing(pc'.records, rs[r].rows) && events == [Fetched(c, r, pc'.records)])
          || (cfg.dbFails && pc' == Failing(r, false) && events == []))
    case Filtering(r, records) =>
      rs' == rs && events == []
      && pc'.Flagging? && pc'.r == r && FilterOutcome(cfg, records, pc'.accepted, pc'.flags)
    case Flagging(r, accepted, flags) =>
      events == []
      && (if flags != []
          then pc' == Flagging(r, accepted, flags[1..])
               && (rs' == SetFlag(rs, r, flags[0].node) || (cfg.dbFails && rs' == rs))
          else rs' == rs
               && pc' == if |accepted| < cfg.minParticipants then Failing(r, true) else Averaging(r, accepted))
    case Averaging(r, accepted) =>
      rs' == rs && events == []
      && (pc' == Failing(r, false)
          || (pc'.Completing? && pc'.r == r && pc'.accepted == accepted && Produced(cfg, accepted, pc'.hash)))
    case Completing(r, accepted, hash) =>
      (rs' == SetComplete(rs, r, hash) && pc' == Return(r, Summary) && events == [Wrote(c, r, hash, accepted)])
      || (cfg.dbFails && rs' == rs && pc' == Return(r, Error) && events == [])
    case Failing(r, _) =>
      events == [] && pc' == Return(r, Error)
      && (rs' == SetStatus(rs, r, Failed) || (cfg.dbFails && rs' == rs))
    case Return(_, _) => false
  }

  /** One step of any call. */
  ghost predicate CallStep(cfg: Config, c: CallId, rs: Rounds, call: Call, rs': Rounds, call': Call, events: seq<Event>) {
    match call
    case Try(pc) =>
      call'.Try? && TryStep(cfg, c, rs, pc, rs', call'.pc, events)
    case CloseQuery =>
      rs' == rs && events == []
      && ((call'.CloseLoop? && call'.closed == 0 && exists now :: IsExpiredListing(call'.todo, rs, cfg.duration, now))
          || (cfg.dbFails && call' == CloseError))
    case CloseLoop(todo, closed) =>
      rs' == rs && events == []
      && (if todo == [] then call' == CloseDone(closed)
          else call' == CloseInner(todo[1..], closed, Resolve(todo[0])) || (cfg.dbFails && call' == CloseLoop(todo[1..], closed)))
    case CloseInner(todo, closed, pc) =>
      if pc.Return?
      then rs' == rs && events == []
           && call' == if pc.result.Summary? then CloseLoop(todo, closed) else CloseFail(pc.r, todo, closed)
      else call'.CloseInner? && call'.todo == todo && call'.closed == closed
           && TryStep(cfg, c, rs, pc, rs', call'.pc, events)
    case CloseFail(r, todo, closed) =>
      events == [] && call' == CloseLoop(todo, closed + 1)
      && (rs' == SetStatus(rs, r, Failed) || (cfg.dbFails && rs' == rs))
    case SubmitCheck(r, x) =>
      rs' == rs && events == []
      && (call' == SubmitDone(false) || (r in rs && rs[r].status == Open && call' == SubmitWrite(r, x)))
    case SubmitWrite(r, x) =>
      events == []
      && ((rs' == Upsert(rs, r, x) && call' == SubmitDone(true)) || (cfg.dbFails && rs' == rs && call' == SubmitDone(false)))
    case CloseDone(_) => false
    case CloseError => false
    case SubmitDone(_) => false
  }

  predicate Initial(call: Call) {
    (call.Try? && call.pc.Resolve?) || call.CloseQuery? || call.SubmitCheck?
  }

  datatype Action =
    | OpenRound(r: RoundNo, startedAt: int)
    | Start(c: CallId, call: Call)
    | Advance(c: CallId)

  ghost predicate Does(cfg: Config, s: State, a: Action, s': State) {
    match a
    case OpenRound(r, t) =>
      r !in s.rounds && s' == s.(rounds := s.rounds[r := Round(Open, None, t, map[])])
    case Start(c, call) =>
      c !in s.calls && Initial(call) && s' == s.(calls := s.calls[c := call])
    case Advance(c) =>
      c in s.calls && c in s'.calls && |s.log| <= |s'.log|
      && s'.calls == s.calls[c := s'.calls[c]]
      && s'.log == s.log + s'.log[|s.log|..]
      && CallStep(cfg, c, s.rounds, s.calls[c], s'.rounds, s'.calls[c], s'.log[|s.log|..])
  }

  ghost predicate Init(s: State) {
    s == State(map[], map[], [])
  }

  /** Consecutive steps from any state. */
  ghost predicate IsPath(cfg: Config, path: seq<State>, acts: seq<Action>) {
    && |path| == |acts| + 1
    && forall i :: 0 <= i < |acts| ==> Does(cfg, path[i], acts[i], path[i + 1])
  }

  ghost predicate IsRun(cfg: Config, run: seq<State>, acts: seq<Action>) {
    IsPath(cfg, run, acts) && Init(run[0])
  }
}
