/**
 Which rounds can still change (internal/fl/rounds.go). In every reachable state, a complete round is final
 exactly when no expiry pass under way still lists it, a failed one exactly when no winner of it can still
 complete it, and an aggregating one is stuck exactly when no call holds it and no pass under way lists it.
 */
module RoundOutlook {
  import opened Options
  import opened Anomaly
  import opened RoundProtocol
  import opened RoundListing
  import opened RoundTraces
  import opened RoundSafety
  import opened RoundExpiry
  import opened RoundFinality
  import opened RoundScenarios

  // ------------------------------------------------ who can still change a round

  /** An expiry pass that has yet to come to round r, or is at it without a summary. */
  predicate Lists(call: Call, r: RoundNo) {
    match call
    case CloseLoop(todo, _) => r in todo
    case CloseInner(todo, _, pc) => r in todo || (pc.r == r && !(pc.Return? && pc.result.Summary?))
    case CloseFail(q, todo, _) => q == r || r in todo
    case _ => false
  }

  ghost predicate ListedBy(s: State, c: CallId, r: RoundNo) {
    c in s.calls && Lists(s.calls[c], r)
  }

  /** Past the CAS with enough records left to complete the round. */
  ghost predicate CanComplete(cfg: Config, pc: Pc) {
    pc.Fetching? || pc.Filtering? || pc.Averaging? || pc.Completing? || (pc.Flagging? && |pc.accepted| >= cfg.minParticipants)
  }

  ghost predicate MayComplete(cfg: Config, s: State, c: CallId, r: RoundNo) {
    c in s.calls && PcOf(s.calls[c]).Some? && PcOf(s.calls[c]).value.r == r && CanComplete(cfg, PcOf(s.calls[c]).value)
  }

  /** No call under way can change the status of round r. */
  ghost predicate Settled(cfg: Config, s: State, r: RoundNo)
    requires r in s.rounds
  {
    match s.rounds[r].status
    case Open => false
    case Complete => forall c :: !ListedBy(s, c, r)
    case Failed => forall c :: !MayComplete(cfg, s, c, r)
    case Aggregating => forall c :: !ListedBy(s, c, r) && !HeldBy(s, c, r)
  }

  // ------------------------------------------------ a settled round stays as it is

  /** Only a pass that queries while the round is open comes to list it. */
  lemma ListStep(cfg: Config, s: State, a: Action, s': State, c: CallId, r: RoundNo)
    requires Does(cfg, s, a, s') && ListedBy(s', c, r)
    ensures ListedBy(s, c, r) || (r in s.rounds && s.rounds[r].status == Open)
  {
    hide TryStep;
    if a == Advance(c) {
      var call := s.calls[c];
      if call.CloseInner? && !call.pc.Return? {
        TryTouchesOne(cfg, c, s.rounds, call.pc, s'.rounds, s'.calls[c].pc, s'.log[|s.log|..]);
        TryNeverReturns(cfg, c, s.rounds, call.pc, s'.rounds, s'.calls[c].pc, s'.log[|s.log|..]);
      }
    }
  }

  lemma TryNeverReturns(cfg: Config, c: CallId, rs: Rounds, pc: Pc, rs': Rounds, pc': Pc, events: seq<Event>)
    requires TryStep(cfg, c, rs, pc, rs', pc', events)
    ensures !pc.Return?
  {
  }

  lemma TryCanComplete(cfg: Config, c: CallId, rs: Rounds, pc: Pc, rs': Rounds, pc': Pc, events: seq<Event>)
    requires TryStep(cfg, c, rs, pc, rs', pc', events) && CanComplete(cfg, pc')
    ensures pc'.r == pc.r && (CanComplete(cfg, pc) || (pc.r in rs && rs[pc.r].status == Open))
  {
    hide FilterOutcome, Produced, IsListing;
  }

  /** Only the winner of an open round comes to be able to complete it. */
  lemma CompleteStep(cfg: Config, s: State, a: Action, s': State, c: CallId, r: RoundNo)
    requires Does(cfg, s, a, s') && MayComplete(cfg, s', c, r)
    ensures MayComplete(cfg, s, c, r) || (r in s.rounds && s.rounds[r].status == Open)
  {
    hide TryStep, IsExpiredListing;
    if a == Advance(c) {
      var call := s.calls[c];
      if call.Try? || (call.CloseInner? && !call.pc.Return?) {
        TryCanComplete(cfg, c, s.rounds, PcOf(call).value, s'.rounds, PcOf(s'.calls[c]).value, s'.log[|s.log|..]);
      }
    }
  }

  lemma TryChangesHeld(cfg: Config, c: CallId, rs: Rounds, pc: Pc, rs': Rounds, pc': Pc, events: seq<Event>, r: RoundNo)
    requires TryStep(cfg, c, rs, pc, rs', pc', events) && r in rs && rs[r].status == Aggregating
    ensures r in rs' && (rs'[r].status != Aggregating ==> Holding(pc) && pc.r == r)
  {
    hide FilterOutcome, Produced, IsListing;
  }

  lemma AggregatingStep(cfg: Config, s: State, a: Action, s': State, r: RoundNo)
    requires Does(cfg, s, a, s') && r in s.rounds && s.rounds[r].status == Aggregating
    requires forall c :: !ListedBy(s, c, r) && !HeldBy(s, c, r)
    ensures r in s'.rounds && s'.rounds[r].status == Aggregating
  {
    hide TryStep, IsExpiredListing;
    if a.Advance? {
      var call := s.calls[a.c];
      assert !ListedBy(s, a.c, r) && !HeldBy(s, a.c, r);
      if call.Try? || (call.CloseInner? && !call.pc.Return?) {
        TryChangesHeld(cfg, a.c, s.rounds, PcOf(call).value, s'.rounds, PcOf(s'.calls[a.c]).value, s'.log[|s.log|..], r);
      }
    }
  }

  lemma SettledStep(cfg: Config, s: State, a: Action, s': State, r: RoundNo)
    requires Inv(cfg, s) && Does(cfg, s, a, s') && r in s.rounds && Settled(cfg, s, r)
    ensures r in s'.rounds && s'.rounds[r].status == s.rounds[r].status && Settled(cfg, s', r)
  {
    hide Inv, Does, ListedBy, MayComplete, HeldBy;
    StepFinality(cfg, s, a, s', r);
    if s.rounds[r].status == Aggregating {
      AggregatingStep(cfg, s, a, s', r);
    } else {
      EndedStep(cfg, s, a, s', r);
    }
    forall c
      ensures ListedBy(s', c, r) ==> ListedBy(s, c, r)
      ensures MayComplete(cfg, s', c, r) ==> MayComplete(cfg, s, c, r)
      ensures HeldBy(s', c, r) ==> HeldBy(s, c, r)
    {
      if ListedBy(s', c, r) {
        ListStep(cfg, s, a, s', c, r);
      }
      if MayComplete(cfg, s', c, r) {
        CompleteStep(cfg, s, a, s', c, r);
      }
      if HeldBy(s', c, r) {
        HolderStep(cfg, s, a, s', c, r);
      }
    }
  }

  lemma EndedStep(cfg: Config, s: State, a: Action, s': State, r: RoundNo)
    requires Inv(cfg, s) && Does(cfg, s, a, s') && r in s.rounds && Settled(cfg, s, r) && s.rounds[r].status != Aggregating
    ensures r in s'.rounds && s'.rounds[r].status == s.rounds[r].status
  {
    hide Inv, Does, ListedBy, MayComplete, FailsExpired, Completes;
    StepFinality(cfg, s, a, s', r);
    if s.rounds[r].status == Complete && s'.rounds[r].status != Complete {
      FailingLists(s, a, r);
    } else if s.rounds[r].status == Failed && s'.rounds[r].status != Failed {
      CompletingMay(cfg, s, a, r);
    }
  }

  lemma FailingLists(s: State, a: Action, r: RoundNo)
    requires FailsExpired(s, a, r)
    ensures exists c :: ListedBy(s, c, r)
  {
    assert ListedBy(s, a.c, r);
  }

  lemma CompletingMay(cfg: Config, s: State, a: Action, r: RoundNo)
    requires Completes(s, a, r)
    ensures exists c :: MayComplete(cfg, s, c, r)
  {
    assert MayComplete(cfg, s, a.c, r);
  }

  lemma {:induction false} SettledForever(cfg: Config, path: seq<State>, acts: seq<Action>, r: RoundNo, j: nat)
    requires ValidConfig(cfg) && IsPath(cfg, path, acts) && j < |path| && Inv(cfg, path[0])
    requires r in path[0].rounds && Settled(cfg, path[0], r)
    ensures Inv(cfg, path[j]) && r in path[j].rounds && path[j].rounds[r].status == path[0].rounds[r].status && Settled(cfg, path[j], r)
    decreases j
  {
    hide Inv, Does, ValidConfig, Settled;
    if j > 0 {
      SettledForever(cfg, path, acts, r, j - 1);
      SettledStep(cfg, path[j - 1], acts[j - 1], path[j], r);
      ActionInv(cfg, path[j - 1], acts[j - 1], path[j]);
    }
  }

  // ------------------------------------------------ every call can finish

  /** What a TryAggregate needs of the rows to take its next step. */
  ghost predicate Enabled(rs: Rounds, pc: Pc) {
    !pc.Return? && (pc.Count? || pc.Fetching? ==> pc.r in rs)
  }

  /** The round of a trace ended, and no other was touched. */
  ghost predicate Finished(rs: Rounds, pc: Pc, rs': Rounds, ctx: Context, call: Call) {
    && (exists result :: call == At(ctx, Return(pc.r, result)))
    && SameExcept(rs, rs', {pc.r})
    && (Holding(pc) && pc.r in rs ==> pc.r in rs' && Ended(rs'[pc.r].status))
  }

  lemma FinishFailing(cfg: Config, c: CallId, ctx: Context, rs: Rounds, r: RoundNo, tooMany: bool) returns (steps: Trace)
    ensures IsTrace(cfg, c, steps) && steps[0] == Point(rs, At(ctx, Failing(r, tooMany)))
    ensures Finished(rs, Failing(r, tooMany), Last(steps).rounds, ctx, Last(steps).call)
  {
    hide IsTrace, Last, FilterOutcome, Produced, IsListing;
    steps := [Point(rs, At(ctx, Failing(r, tooMany)))];
    StartTrace(cfg, c, steps[0]);
    steps := TryTo(cfg, c, ctx, steps, Failing(r, tooMany), SetStatus(rs, r, Failed), Return(r, Error), []);
  }

  lemma FinishCompleting(cfg: Config, c: CallId, ctx: Context, rs: Rounds, r: RoundNo, accepted: seq<Record>, hash: string) returns (steps: Trace)
    ensures IsTrace(cfg, c, steps) && steps[0] == Point(rs, At(ctx, Completing(r, accepted, hash)))
    ensures Finished(rs, Completing(r, accepted, hash), Last(steps).rounds, ctx, Last(steps).call)
    ensures r in rs ==> r in Last(steps).rounds && Last(steps).rounds[r].status == Complete
  {
    hide IsTrace, Last, FilterOutcome, Produced, IsListing;
    steps := [Point(rs, At(ctx, Completing(r, accepted, hash)))];
    StartTrace(cfg, c, steps[0]);
    steps := TryTo(cfg, c, ctx, steps, Completing(r, accepted, hash), SetComplete(rs, r, hash), Return(r, Summary), [Wrote(c, r, hash, accepted)]);
  }

  /** Up to the end of flagging. */
  lemma {:induction false} FinishFlags(cfg: Config, c: CallId, ctx: Context, rs: Rounds, r: RoundNo, accepted: seq<Record>, flags: seq<Record>)
      returns (steps: Trace)
    ensures IsTrace(cfg, c, steps) && steps[0] == Point(rs, At(ctx, Flagging(r, accepted, flags)))
    ensures Last(steps).call == At(ctx, Flagging(r, accepted, [])) && SameExcept(rs, Last(steps).rounds, {})
    decreases |flags|
  {
    hide IsTrace, Last, FilterOutcome, Produced, IsListing;
    steps := [Point(rs, At(ctx, Flagging(r, accepted, flags)))];
    StartTrace(cfg, c, steps[0]);
    if flags != [] {
      var rs' := SetFlag(rs, r, flags[0].node);
      steps := TryTo(cfg, c, ctx, steps, Flagging(r, accepted, flags), rs', Flagging(r, accepted, flags[1..]), []);
      var more := FinishFlags(cfg, c, ctx, rs', r, accepted, flags[1..]);
      steps := Join(cfg, c, steps, more);
    }
  }

  /** From flagging on: to the checkpoint when that is wanted and enough records are left, else to failure. */
  lemma FinishFlagging(cfg: Config, c: CallId, ctx: Context, rs: Rounds, r: RoundNo, accepted: seq<Record>, flags: seq<Record>, complete: bool)
      returns (steps: Trace)
    ensures IsTrace(cfg, c, steps) && steps[0] == Point(rs, At(ctx, Flagging(r, accepted, flags)))
    ensures Finished(rs, Flagging(r, accepted, flags), Last(steps).rounds, ctx, Last(steps).call)
    ensures complete && |accepted| >= cfg.minParticipants && r in rs ==> r in Last(steps).rounds && Last(steps).rounds[r].status == Complete
  {
    hide IsTrace, Last, FilterOutcome, Produced, IsListing;
    steps := FinishFlags(cfg, c, ctx, rs, r, accepted, flags);
    var now := Last(steps).rounds;
    var more: Trace;
    if |accepted| < cfg.minParticipants {
      steps := TryTo(cfg, c, ctx, steps, Flagging(r, accepted, []), now, Failing(r, true), []);
      more := FinishFailing(cfg, c, ctx, now, r, true);
    } else {
      steps := TryTo(cfg, c, ctx, steps, Flagging(r, accepted, []), now, Averaging(r, accepted), []);
      more := FinishAveraging(cfg, c, ctx, now, r, accepted, complete);
    }
    steps := Join(cfg, c, steps, more);
    SameExceptJoined(rs, now, Last(steps).rounds, r);
  }

  lemma SameExceptJoined(a: Rounds, b: Rounds, c: Rounds, r: RoundNo)
    requires SameExcept(a, b, {}) && SameExcept(b, c, {r})
    ensures SameExcept(a, c, {r})
  {
  }

  lemma FinishAveraging(cfg: Config, c: CallId, ctx: Context, rs: Rounds, r: RoundNo, accepted: seq<Record>, complete: bool) returns (steps: Trace)
    ensures IsTrace(cfg, c, steps) && steps[0] == Point(rs, At(ctx, Averaging(r, accepted)))
    ensures Finished(rs, Averaging(r, accepted), Last(steps).rounds, ctx, Last(steps).call)
    ensures complete && r in rs ==> r in Last(steps).rounds && Last(steps).rounds[r].status == Complete
  {
    hide IsTrace, Last, FilterOutcome, Produced, IsListing;
    steps := [Point(rs, At(ctx, Averaging(r, accepted)))];
    StartTrace(cfg, c, steps[0]);
    var more: Trace;
    if complete {
      var hash := SomeHash(cfg, accepted);
      steps := TryTo(cfg, c, ctx, steps, Averaging(r, accepted), rs, Completing(r, accepted, hash), []);
      more := FinishCompleting(cfg, c, ctx, rs, r, accepted, hash);
    } else {
      steps := TryTo(cfg, c, ctx, steps, Averaging(r, accepted), rs, Failing(r, false), []);
      more := FinishFailing(cfg, c, ctx, rs, r, false);
    }
    steps := Join(cfg, c, steps, more);
  }

  lemma FinishFiltering(cfg: Config, c: CallId, ctx: Context, rs: Rounds, r: RoundNo, records: seq<Record>, complete: bool) returns (steps: Trace)
    ensures IsTrace(cfg, c, steps) && steps[0] == Point(rs, At(ctx, Filtering(r, records)))
    ensures Finished(rs, Filtering(r, records), Last(steps).rounds, ctx, Last(steps).call)
    ensures complete && |records| >= cfg.minParticipants && r in rs ==> r in Last(steps).rounds && Last(steps).rounds[r].status == Complete
  {
    hide IsTrace, Last, FilterOutcome, Produced, IsListing;
    steps := [Point(rs, At(ctx, Filtering(r, records)))];
    StartTrace(cfg, c, steps[0]);
    UnmeasuredOutcome(cfg, records);
    steps := TryTo(cfg, c, ctx, steps, Filtering(r, records), rs, Flagging(r, records, []), []);
    var more := FinishFlagging(cfg, c, ctx, rs, r, records, [], complete);
    steps := Join(cfg, c, steps, more);
  }

  lemma FinishFetching(cfg: Config, c: CallId, ctx: Context, rs: Rounds, r: RoundNo, complete: bool) returns (steps: Trace)
    requires r in rs
    ensures IsTrace(cfg, c, steps) && steps[0] == Point(rs, At(ctx, Fetching(r)))
    ensures Finished(rs, Fetching(r), Last(steps).rounds, ctx, Last(steps).call)
    ensures complete && |rs[r].rows| >= cfg.minParticipants ==> r in Last(steps).rounds && Last(steps).rounds[r].status == Complete
  {
    hide IsTrace, Last, FilterOutcome, Produced, IsListing;
    var records := ListingExists(rs[r].rows);
    ListingSize(records, rs[r].rows);
    steps := [Point(rs, At(ctx, Fetching(r)))];
    StartTrace(cfg, c, steps[0]);
    steps := TryTo(cfg, c, ctx, steps, Fetching(r), rs, Filtering(r, records), [Fetched(c, r, records)]);
    var more := FinishFiltering(cfg, c, ctx, rs, r, records, complete);
    steps := Join(cfg, c, steps, more);
  }

  lemma FinishCas(cfg: Config, c: CallId, ctx: Context, rs: Rounds, r: RoundNo) returns (steps: Trace)
    ensures IsTrace(cfg, c, steps) && steps[0] == Point(rs, At(ctx, Cas(r)))
    ensures Finished(rs, Cas(r), Last(steps).rounds, ctx, Last(steps).call)
    ensures r in rs && rs[r].status != Open ==> Last(steps) == Point(rs, At(ctx, Return(r, Nothing)))
  {
    hide IsTrace, Last, FilterOutcome, Produced, IsListing;
    steps := [Point(rs, At(ctx, Cas(r)))];
    StartTrace(cfg, c, steps[0]);
    if r in rs && rs[r].status == Open {
      var rs' := SetStatus(rs, r, Aggregating);
      steps := TryTo(cfg, c, ctx, steps, Cas(r), rs', Fetching(r), [Won(c, r)]);
      var more := FinishFetching(cfg, c, ctx, rs', r, false);
      steps := Join(cfg, c, steps, more);
    } else {
      steps := TryTo(cfg, c, ctx, steps, Cas(r), rs, Return(r, Nothing), []);
    }
  }

  lemma FinishCount(cfg: Config, c: CallId, ctx: Context, rs: Rounds, r: RoundNo) returns (steps: Trace)
    requires r in rs
    ensures IsTrace(cfg, c, steps) && steps[0] == Point(rs, At(ctx, Count(r)))
    ensures Finished(rs, Count(r), Last(steps).rounds, ctx, Last(steps).call)
    ensures rs[r].status != Open ==> Last(steps) == Point(rs, At(ctx, Return(r, Nothing)))
  {
    hide IsTrace, Last, FilterOutcome, Produced, IsListing;
    steps := [Point(rs, At(ctx, Count(r)))];
    StartTrace(cfg, c, steps[0]);
    if |rs[r].rows| < cfg.minParticipants {
      steps := TryTo(cfg, c, ctx, steps, Count(r), rs, Return(r, Nothing), []);
    } else {
      steps := TryTo(cfg, c, ctx, steps, Count(r), rs, Cas(r), []);
      var more := FinishCas(cfg, c, ctx, rs, r);
      steps := Join(cfg, c, steps, more);
    }
  }

  lemma FinishResolve(cfg: Config, c: CallId, ctx: Context, rs: Rounds, r: RoundNo) returns (steps: Trace)
    ensures IsTrace(cfg, c, steps) && steps[0] == Point(rs, At(ctx, Resolve(r)))
    ensures Finished(rs, Resolve(r), Last(steps).rounds, ctx, Last(steps).call)
    ensures r in rs && rs[r].status != Open ==> Last(steps) == Point(rs, At(ctx, Return(r, Nothing)))
  {
    hide IsTrace, Last, FilterOutcome, Produced, IsListing;
    steps := [Point(rs, At(ctx, Resolve(r)))];
    StartTrace(cfg, c, steps[0]);
    if r in rs {
      steps := TryTo(cfg, c, ctx, steps, Resolve(r), rs, Count(r), []);
      var more := FinishCount(cfg, c, ctx, rs, r);
      steps := Join(cfg, c, steps, more);
    } else {
      steps := TryTo(cfg, c, ctx, steps, Resolve(r), rs, Return(r, Error), []);
    }
  }

  /** From wherever it stands, a TryAggregate can run to its end: completing its round if it still can and that
      is wanted, and ending it in any case if it holds it. */
  lemma FinishTry(cfg: Config, c: CallId, ctx: Context, rs: Rounds, pc: Pc, complete: bool) returns (steps: Trace)
    requires Enabled(rs, pc)
    ensures IsTrace(cfg, c, steps) && steps[0] == Point(rs, At(ctx, pc))
    ensures Finished(rs, pc, Last(steps).rounds, ctx, Last(steps).call)
    ensures !Holding(pc) && pc.r in rs && rs[pc.r].status != Open ==> Last(steps) == Point(rs, At(ctx, Return(pc.r, Nothing)))
    ensures complete && pc.r in rs && CanComplete(cfg, pc)
      && (pc.Fetching? ==> |rs[pc.r].rows| >= cfg.minParticipants) && (pc.Filtering? ==> |pc.records| >= cfg.minParticipants)
      ==> pc.r in Last(steps).rounds && Last(steps).rounds[pc.r].status == Complete
  {
    hide IsTrace, Last, Finished;
    match pc
    case Resolve(r) => steps := FinishResolve(cfg, c, ctx, rs, r);
    case Count(r) => steps := FinishCount(cfg, c, ctx, rs, r);
    case Cas(r) => steps := FinishCas(cfg, c, ctx, rs, r);
    case Fetching(r) => steps := FinishFetching(cfg, c, ctx, rs, r, complete);
    case Filtering(r, records) => steps := FinishFiltering(cfg, c, ctx, rs, r, records, complete);
    case Flagging(r, accepted, flags) => steps := FinishFlagging(cfg, c, ctx, rs, r, accepted, flags, complete);
    case Averaging(r, accepted) => steps := FinishAveraging(cfg, c, ctx, rs, r, accepted, complete);
    case Completing(r, accepted, hash) => steps := FinishCompleting(cfg, c, ctx, rs, r, accepted, hash);
    case Failing(r, tooMany) => steps := FinishFailing(cfg, c, ctx, rs, r, tooMany);
  }

  // ------------------------------------------------ a pass that lists a round can fail it

  /** Round r is there and not open. */
  ghost predicate Closed(rs: Rounds, r: RoundNo) {
    r in rs && rs[r].status != Open
  }

  /** A pass at a finished inner call moves on, failing its round if it got no summary. */
  lemma AfterInner(cfg: Config, c: CallId, rs: Rounds, todo: seq<RoundNo>, closed: nat, q: RoundNo, result: Result)
      returns (steps: Trace, closed': nat)
    ensures IsTrace(cfg, c, steps) && steps[0] == Point(rs, CloseInner(todo, closed, Return(q, result)))
    ensures Last(steps).call == CloseLoop(todo, closed')
    ensures Last(steps).rounds == if result.Summary? then rs else SetStatus(rs, q, Failed)
  {
    hide IsTrace, Last, TryStep, IsExpiredListing;
    steps := [Point(rs, CloseInner(todo, closed, Return(q, result)))];
    StartTrace(cfg, c, steps[0]);
    closed' := closed;
    if result.Summary? {
      steps := Step(cfg, c, steps, Point(rs, CloseLoop(todo, closed)), []);
    } else {
      steps := Step(cfg, c, steps, Point(rs, CloseFail(q, todo, closed)), []);
      closed' := closed + 1;
      steps := Step(cfg, c, steps, Point(SetStatus(rs, q, Failed), CloseLoop(todo, closed')), []);
    }
  }

  /** From an inner call that does not hold round r: r is failed if the inner call is on it, and is as it was
      otherwise. */
  lemma PassInner(cfg: Config, c: CallId, rs: Rounds, todo: seq<RoundNo>, closed: nat, pc: Pc, r: RoundNo)
      returns (steps: Trace, closed': nat)
    requires Closed(rs, r) && (pc.Return? || Enabled(rs, pc)) && !(Holding(pc) && pc.r == r)
    ensures IsTrace(cfg, c, steps) && steps[0] == Point(rs, CloseInner(todo, closed, pc)) && Last(steps).call == CloseLoop(todo, closed')
    ensures r in Last(steps).rounds && Last(steps).rounds[r].status
      == if pc.r == r && !(pc.Return? && pc.result.Summary?) then Failed else rs[r].status
  {
    hide IsTrace, Last, TryStep;
    var ctx := Inside(todo, closed);
    if pc.Return? {
      steps, closed' := AfterInner(cfg, c, rs, todo, closed, pc.r, pc.result);
    } else {
      steps := FinishTry(cfg, c, ctx, rs, pc, false);
      var result :| Last(steps).call == At(ctx, Return(pc.r, result));
      var more;
      more, closed' := AfterInner(cfg, c, Last(steps).rounds, todo, closed, pc.r, result);
      steps := Join(cfg, c, steps, more);
    }
  }

  lemma {:induction false} PassLoop(cfg: Config, c: CallId, rs: Rounds, todo: seq<RoundNo>, closed: nat, r: RoundNo) returns (steps: Trace)
    requires Closed(rs, r) && r in todo
    ensures IsTrace(cfg, c, steps) && steps[0] == Point(rs, CloseLoop(todo, closed))
    ensures r in Last(steps).rounds && Last(steps).rounds[r].status == Failed
    decreases |todo|
  {
    hide IsTrace, Last, TryStep, IsExpiredListing;
    var q, rest := todo[0], todo[1..];
    steps := [Point(rs, CloseLoop(todo, closed))];
    StartTrace(cfg, c, steps[0]);
    steps := Step(cfg, c, steps, Point(rs, CloseInner(rest, closed, Resolve(q))), []);
    var more, closed' := PassInner(cfg, c, rs, rest, closed, Resolve(q), r);
    steps := Join(cfg, c, steps, more);
    if q != r {
      more := PassLoop(cfg, c, Last(steps).rounds, rest, closed', r);
      steps := Join(cfg, c, steps, more);
    }
  }

  /** A pass that lists a round which is not open can still fail it. */
  lemma PassCanFail(cfg: Config, c: CallId, rs: Rounds, call: Call, r: RoundNo) returns (steps: Trace)
    requires Closed(rs, r) && Lists(call, r)
    requires call.CloseInner? ==> (call.pc.Return? || Enabled(rs, call.pc)) && !(Holding(call.pc) && call.pc.r == r)
    ensures IsTrace(cfg, c, steps) && steps[0] == Point(rs, call)
    ensures r in Last(steps).rounds && Last(steps).rounds[r].status == Failed
  {
    hide IsTrace, Last, TryStep, IsExpiredListing;
    match call
    case CloseLoop(todo, closed) => steps := PassLoop(cfg, c, rs, todo, closed, r);
    case CloseInner(todo, closed, pc) =>
      var closed';
      steps, closed' := PassInner(cfg, c, rs, todo, closed, pc, r);
      if !(pc.r == r && !(pc.Return? && pc.result.Summary?)) {
        var more := PassLoop(cfg, c, Last(steps).rounds, todo, closed', r);
        steps := Join(cfg, c, steps, more);
      }
    case CloseFail(q, todo, closed) =>
      steps := [Point(rs, call)];
      StartTrace(cfg, c, steps[0]);
      var rs' := SetStatus(rs, q, Failed);
      steps := Step(cfg, c, steps, Point(rs', CloseLoop(todo, closed + 1)), []);
      if q != r {
        var more := PassLoop(cfg, c, rs', todo, closed + 1, r);
        steps := Join(cfg, c, steps, more);
      }
  }

  // ------------------------------------------------ reachable states

  /** A call that counts participants has found its round. */
  ghost predicate Known(s: State) {
    forall c :: c in s.calls && PcOf(s.calls[c]).Some? && PcOf(s.calls[c]).value.Count? ==> PcOf(s.calls[c]).value.r in s.rounds
  }

  lemma TryKnown(cfg: Config, c: CallId, rs: Rounds, pc: Pc, rs': Rounds, pc': Pc, events: seq<Event>)
    requires TryStep(cfg, c, rs, pc, rs', pc', events) && pc'.Count?
    ensures pc'.r in rs'
  {
    hide FilterOutcome, Produced, IsListing;
  }

  lemma KnownStep(cfg: Config, s: State, a: Action, s': State)
    requires Does(cfg, s, a, s') && Known(s)
    ensures Known(s')
  {
    hide TryStep, IsExpiredListing;
    ActionGrows(cfg, s, a, s');
    forall c | c in s'.calls && PcOf(s'.calls[c]).Some? && PcOf(s'.calls[c]).value.Count?
      ensures PcOf(s'.calls[c]).value.r in s'.rounds
    {
      if a == Advance(c) && (s.calls[c].Try? || (s.calls[c].CloseInner? && !s.calls[c].pc.Return?)) {
        TryKnown(cfg, c, s.rounds, PcOf(s.calls[c]).value, s'.rounds, PcOf(s'.calls[c]).value, s'.log[|s.log|..]);
      } else {
        assert c in s.calls && PcOf(s.calls[c]) == PcOf(s'.calls[c]);
      }
    }
  }

  lemma {:induction false} RunKnown(cfg: Config, run: seq<State>, acts: seq<Action>, i: nat)
    requires IsRun(cfg, run, acts) && i < |run|
    ensures Known(run[i])
    decreases i
  {
    hide Does, Known;
    if i == 0 {
      NoneKnown(run[0]);
    } else {
      RunKnown(cfg, run, acts, i - 1);
      KnownStep(cfg, run[i - 1], acts[i - 1], run[i]);
    }
  }

  lemma NoneKnown(s: State)
    requires Init(s)
    ensures Known(s)
  {
  }

  ghost function ContextOf(call: Call): Context
    requires PcOf(call).Some?
    ensures At(ContextOf(call), PcOf(call).value) == call
  {
    match call
    case Try(_) => Alone
    case CloseInner(todo, closed, _) => Inside(todo, closed)
  }

  /** What the invariant says of a call's program counter. */
  lemma Standing(cfg: Config, s: State, c: CallId)
    requires Inv(cfg, s) && Known(s) && c in s.calls && PcOf(s.calls[c]).Some?
    ensures var pc := PcOf(s.calls[c]).value;
      && (pc.Return? || Enabled(s.rounds, pc))
      && (pc.Fetching? && pc.r in s.rounds ==> |s.rounds[pc.r].rows| >= cfg.minParticipants)
      && (pc.Filtering? ==> |pc.records| >= cfg.minParticipants)
      && (pc.r in s.rounds && s.rounds[pc.r].checkpoint.Some? ==> !Holding(pc))
  {
    hide OneWinner, OneCheckpoint, WonClosed, FromFetch, Produced, Lenient;
    var pc := PcOf(s.calls[c]).value;
    assert PcInv(cfg, s.rounds, s.log, c, pc);
    if Holding(pc) && pc.r in s.rounds && s.rounds[pc.r].checkpoint.Some? {
      RecordedHasNoHolder(cfg, s.rounds, s.log, c, pc, pc.r);
    }
  }

  // ------------------------------------------------ an unsettled round can still change

  /** What call c can do to round r while the others stand still. */
  lemma CanChange(cfg: Config, s: State, c: CallId, r: RoundNo) returns (steps: Trace)
    requires Inv(cfg, s) && Known(s) && r in s.rounds && c in s.calls
    requires match s.rounds[r].status
             case Open => false
             case Complete => ListedBy(s, c, r)
             case Failed => MayComplete(cfg, s, c, r)
             case Aggregating => ListedBy(s, c, r) || HeldBy(s, c, r)
    ensures IsTrace(cfg, c, steps) && steps[0] == Point(s.rounds, s.calls[c])
    ensures r in Last(steps).rounds && Last(steps).rounds[r].status != s.rounds[r].status
  {
    hide IsTrace, Last, Inv, Known;
    var call := s.calls[c];
    if PcOf(call).Some? {
      Standing(cfg, s, c);
    }
    CompleteRecorded(cfg, s, r);
    if HeldBy(s, c, r) && s.rounds[r].status != Complete {
      steps := FinishTry(cfg, c, ContextOf(call), s.rounds, PcOf(call).value, true);
    } else {
      steps := PassCanFail(cfg, c, s.rounds, call, r);
    }
  }

  lemma CompleteRecorded(cfg: Config, s: State, r: RoundNo)
    requires Inv(cfg, s) && r in s.rounds
    ensures s.rounds[r].status == Complete ==> s.rounds[r].checkpoint.Some?
  {
    hide OneWinner, OneCheckpoint, WonClosed, CallsInv;
    assert RoundRecorded(s.rounds[r], r, s.log);
  }

  /** A continuation of s in which the status of round r changes. */
  lemma Changes(cfg: Config, s: State, r: RoundNo) returns (path: seq<State>, acts: seq<Action>)
    requires Inv(cfg, s) && Known(s) && r in s.rounds && s.rounds[r].status != Open && !Settled(cfg, s, r)
    ensures IsPath(cfg, path, acts) && path[0] == s && r in End(path).rounds && End(path).rounds[r].status != s.rounds[r].status
  {
    hide IsTrace, Inv, Known, Does;
    var c: CallId :| c in s.calls && (ListedBy(s, c, r) || MayComplete(cfg, s, c, r) || HeldBy(s, c, r))
      && (s.rounds[r].status == Complete ==> ListedBy(s, c, r))
      && (s.rounds[r].status == Failed ==> MayComplete(cfg, s, c, r))
      && (s.rounds[r].status == Aggregating ==> ListedBy(s, c, r) || HeldBy(s, c, r));
    var steps := CanChange(cfg, s, c, r);
    path, acts := TraceContinuesPath(cfg, [s], [], c, steps);
    assert path[0] == path[..1][0];
  }

  /** The status of round r is the same in every continuation of s. */
  ghost predicate Final(cfg: Config, s: State, r: RoundNo)
    requires r in s.rounds
  {
    forall path: seq<State>, acts: seq<Action>, j: nat ::
      IsPath(cfg, path, acts) && path[0] == s && j < |path| ==> r in path[j].rounds && path[j].rounds[r].status == s.rounds[r].status
  }

  /** In every reachable state: a complete round stays complete in every continuation exactly when no expiry pass
      under way lists it; a failed one stays failed exactly when no call under way can still complete it; and an
      aggregating one stays aggregating exactly when no call holds it and no pass under way lists it. */
  lemma FinalIffSettled(cfg: Config, run: seq<State>, acts: seq<Action>, i: nat, r: RoundNo)
    requires ValidConfig(cfg) && IsRun(cfg, run, acts) && i < |run| && r in run[i].rounds && run[i].rounds[r].status != Open
    ensures Final(cfg, run[i], r) <==> Settled(cfg, run[i], r)
  {
    hide IsPath, Inv, Known, Settled, ValidConfig;
    var s := run[i];
    assert Inv(cfg, s) && Known(s) by {
      RunInv(cfg, run, acts, i);
      RunKnown(cfg, run, acts, i);
    }
    if Settled(cfg, s, r) {
      forall path: seq<State>, acts': seq<Action>, j: nat | IsPath(cfg, path, acts') && path != [] && path[0] == s && j < |path|
        ensures r in path[j].rounds && path[j].rounds[r].status == s.rounds[r].status
      {
        SettledForever(cfg, path, acts', r, j);
      }
      NonEmpty(cfg);
    } else {
      var path, acts' := Changes(cfg, s, r);
      NonEmpty(cfg);
      assert path[|path| - 1].rounds[r].status != s.rounds[r].status;
    }
  }

  lemma NonEmpty(cfg: Config)
    ensures forall path: seq<State>, acts: seq<Action> :: IsPath(cfg, path, acts) ==> path != []
  {
  }
}
