/**
 TryAggregate, SubmitGradient and CloseExpired as the program runs them (internal/fl/rounds.go), statement
 after statement over the rows, calling the anomaly filter and the averaging pipeline. Any statement may
 fail. Every execution is a trace of the step machine and continues the run it starts in.
 */
module RoundDriver {
  import opened Options
  import opened Sums
  import opened Anomaly
  import opened RoundProtocol
  import opened RoundExpiry
  import opened RoundListing
  import opened RoundTraces
  import opened RoundAttempt
  import FedAvg
  import Messages

  /** Every round but r is as it was. */
  ghost predicate OnlyTouches(rs: Rounds, rs': Rounds, r: RoundNo) {
    rs'.Keys == rs.Keys && forall q :: q in rs && q != r ==> rs'[q] == rs[q]
  }

  // ------------------------------------------------ flagging

  /** A row keeps its hash and URL, and is flagged if it was or if some rejected participant whose flag was not lost
      is this one. */
  ghost predicate Flagged(was: Row, now: Row, n: NodeId, flags: seq<Record>, lost: nat -> bool) {
    && now.hash == was.hash && now.url == was.url
    && (now.flagged <==> was.flagged || exists i :: 0 <= i < |flags| && flags[i].node == n && !lost(i))
  }

  lemma FlagRowsAre(rows: map<NodeId, Row>, flags: seq<Record>, lost: nat -> bool)
    ensures FlagRows(rows, flags, lost).Keys == rows.Keys
    ensures forall n :: n in rows ==> Flagged(rows[n], FlagRows(rows, flags, lost)[n], n, flags, lost)
  {
    forall n | n in rows
      ensures Flagged(rows[n], FlagRows(rows, flags, lost)[n], n, flags, lost)
    {
      if i :| 0 <= i < |flags| && flags[i].node == n && !lost(i) {
        assert FlaggedAt(flags, lost, n, i);
      }
    }
  }

  lemma NoFlags(rows: map<NodeId, Row>, lost: nat -> bool)
    ensures FlagRows(rows, [], lost) == rows
  {
  }

  lemma FlagOne(rows: map<NodeId, Row>, flags: seq<Record>, lost: nat -> bool, i: nat)
    requires i < |flags|
    ensures var was, n := FlagRows(rows, flags[..i], lost), flags[i].node;
      FlagRows(rows, flags[..i + 1], lost)
        == if n in was && !lost(i) then was[n := was[n].(flagged := true)] else was
  {
    var was, now := FlagRows(rows, flags[..i], lost), FlagRows(rows, flags[..i + 1], lost);
    forall n | n in rows
      ensures now[n].flagged <==> was[n].flagged || (n == flags[i].node && !lost(i))
    {
      if was[n].flagged && !rows[n].flagged {
        var j: nat :| FlaggedAt(flags[..i], lost, n, j);
        assert FlaggedAt(flags[..i + 1], lost, n, j);
      }
      if now[n].flagged && !rows[n].flagged {
        var j: nat :| FlaggedAt(flags[..i + 1], lost, n, j);
        assert j < i ==> FlaggedAt(flags[..i], lost, n, j);
      }
      if n == flags[i].node && !lost(i) {
        assert FlaggedAt(flags[..i + 1], lost, n, i);
      }
    }
  }

  lemma FlagStatement(rs: Rounds, r: RoundNo, rows: map<NodeId, Row>, flags: seq<Record>, lost: nat -> bool, i: nat)
    requires r in rs && i < |flags| && rs[r].rows == FlagRows(rows, flags[..i], lost)
    ensures var rs' := if lost(i) then rs else SetFlag(rs, r, flags[i].node);
      OnlyTouches(rs, rs', r) && rs'[r] == rs[r].(rows := FlagRows(rows, flags[..i + 1], lost))
  {
    hide FlagRows;
    FlagOne(rows, flags, lost, i);
  }

  // ------------------------------------------------ expiry passes

  /** An expired round and the rows its TryAggregate fetched. */
  datatype Visit = Visit(r: RoundNo, records: seq<Record>)

  /** What an expiry pass meets besides: rows it cannot scan, and failing statements that were to fail a round. */
  datatype PassInputs = PassInputs(queryOk: bool, skip: RoundNo -> bool, attempt: RoundNo -> Inputs, lost: RoundNo -> bool)

  ghost predicate ValidPass(cfg: Config, x: PassInputs) {
    && (forall r :: ValidInputs(cfg, x.attempt(r)))
    && (cfg.dbFails || (x.queryOk && forall r :: !x.skip(r) && !x.lost(r)))
  }

  /** A round after the pass came to it: attempted, and failed unless that gave a summary. */
  ghost function Passed(cfg: Config, was: Round, v: Visit, x: PassInputs): Round {
    if x.skip(v.r) then was
    else
      var (now, result) := Attempt(cfg, was, v.r, v.records, x.attempt(v.r));
      if result.Summary? || x.lost(v.r) then now else now.(status := Failed)
  }

  /** The visits the pass counts as closed. */
  ghost function Counted(cfg: Config, rs: Rounds, x: PassInputs): Visit -> bool {
    (v: Visit) => v.r in rs && !x.skip(v.r) && !Attempt(cfg, rs[v.r], v.r, v.records, x.attempt(v.r)).1.Summary?
  }

  class Orchestrator {
    const cfg: Config
    var rounds: Rounds

    constructor (cfg: Config, rounds: Rounds)
      ensures this.cfg == cfg && this.rounds == rounds
    {
      this.cfg, this.rounds := cfg, rounds;
    }

    /** From resolving the round to the CAS. */
    method Claim(c: CallId, r: RoundNo, f: Faults, ghost ctx: Context) returns (won: bool, result: Result, ghost steps: Trace)
      requires cfg.dbFails || Faultless(f)
      modifies this`rounds
      ensures IsTrace(cfg, c, steps) && steps[0] == Point(old(rounds), At(ctx, Resolve(r))) && OnlyTouches(old(rounds), rounds, r)
      ensures Last(steps) == Point(rounds, At(ctx, if won then Fetching(r) else Return(r, result)))
      ensures won <==> r in old(rounds) && Claims(cfg, old(rounds)[r], f)
      ensures won ==> r in rounds && rounds[r] == old(rounds)[r].(status := Aggregating)
      ensures !won ==> rounds == old(rounds) && result == if r in rounds then Refusal(cfg, rounds[r], f) else Error
    {
      hide IsTrace, Last, FilterOutcome, Produced, IsListing;
      won, result := false, Error;
      steps := [Point(rounds, At(ctx, Resolve(r)))];
      StartTrace(cfg, c, steps[0]);
      if r !in rounds || f.resolve {
        steps := TryTo(cfg, c, ctx, steps, Resolve(r), rounds, Return(r, Error), []);
        return;
      }
      steps := TryTo(cfg, c, ctx, steps, Resolve(r), rounds, Count(r), []);
      if f.count {
        steps := TryTo(cfg, c, ctx, steps, Count(r), rounds, Return(r, Error), []);
        return;
      }
      var count := |rounds[r].rows|;
      if count < cfg.minParticipants {
        result := Nothing;
        steps := TryTo(cfg, c, ctx, steps, Count(r), rounds, Return(r, Nothing), []);
        return;
      }
      steps := TryTo(cfg, c, ctx, steps, Count(r), rounds, Cas(r), []);
      if f.cas {
        steps := TryTo(cfg, c, ctx, steps, Cas(r), rounds, Return(r, Error), []);
        return;
      }
      if rounds[r].status != Open {
        result := Nothing;
        steps := TryTo(cfg, c, ctx, steps, Cas(r), rounds, Return(r, Nothing), []);
        return;
      }
      rounds := SetStatus(rounds, r, Aggregating);
      won := true;
      steps := TryTo(cfg, c, ctx, steps, Cas(r), rounds, Fetching(r), [Won(c, r)]);
    }

    /** Reads the participant rows, in any order. */
    method FetchRecords(r: RoundNo) returns (records: seq<Record>)
      requires r in rounds
      ensures IsListing(records, rounds[r].rows)
    {
      var rows := rounds[r].rows;
      records := [];
      var todo := rows;
      while todo != map[]
        invariant todo.Keys <= rows.Keys && forall n :: n in todo ==> todo[n] == rows[n]
        invariant DistinctNodes(records) && |records| + |todo| == |rows|
        invariant forall x :: x in records ==> x.node !in todo
        invariant forall x :: x in records ==> x.node in rows && x.hash == rows[x.node].hash && x.url == rows[x.node].url
        decreases |todo|
      {
        var n :| n in todo;
        assert |todo - {n}| == |todo| - 1;
        assert forall i :: 0 <= i < |records| ==> records[i] in records;
        records := records + [Record(n, rows[n].hash, rows[n].url)];
        todo := todo - {n};
      }
    }

    /** Flags the rejected participants one by one; a flag whose statement fails is lost. */
    method FlagAll(c: CallId, r: RoundNo, accepted: seq<Record>, flags: seq<Record>, lost: nat -> bool, ghost ctx: Context)
        returns (ghost steps: Trace)
      requires r in rounds && (cfg.dbFails || forall i :: !lost(i))
      modifies this`rounds
      ensures IsTrace(cfg, c, steps) && steps[0] == Point(old(rounds), At(ctx, Flagging(r, accepted, flags)))
      ensures Last(steps) == Point(rounds, At(ctx, Flagging(r, accepted, []))) && OnlyTouches(old(rounds), rounds, r)
      ensures rounds[r] == old(rounds)[r].(rows := FlagRows(old(rounds)[r].rows, flags, lost))
      ensures rounds[r].rows.Keys == old(rounds)[r].rows.Keys
      ensures forall n :: n in rounds[r].rows ==> Flagged(old(rounds)[r].rows[n], rounds[r].rows[n], n, flags, lost)
    {
      hide IsTrace, Last, FilterOutcome, Produced, IsListing, FlagRows, Flagged;
      steps := [Point(rounds, At(ctx, Flagging(r, accepted, flags)))];
      StartTrace(cfg, c, steps[0]);
      NoFlags(rounds[r].rows, lost);
      assert flags[..0] == [];
      for i := 0 to |flags|
        invariant IsTrace(cfg, c, steps) && steps[0] == Point(old(rounds), At(ctx, Flagging(r, accepted, flags)))
        invariant Last(steps) == Point(rounds, At(ctx, Flagging(r, accepted, flags[i..])))
        invariant OnlyTouches(old(rounds), rounds, r) && r in rounds
        invariant rounds[r] == old(rounds)[r].(rows := FlagRows(old(rounds)[r].rows, flags[..i], lost))
      {
        FlagStatement(rounds, r, old(rounds)[r].rows, flags, lost, i);
        assert flags[i..] != [] && flags[i..][1..] == flags[i + 1..] && flags[i..][0] == flags[i];
        if !lost(i) {
          rounds := SetFlag(rounds, r, flags[i].node);
        }
        steps := TryTo(cfg, c, ctx, steps, Flagging(r, accepted, flags[i..]), rounds, Flagging(r, accepted, flags[i + 1..]), []);
      }
      assert flags[|flags|..] == [] && flags[..|flags|] == flags;
      FlagRowsAre(old(rounds)[r].rows, flags, lost);
    }

    /** From the rows to the accepted records. */
    method Select(c: CallId, r: RoundNo, x: Inputs, ghost ctx: Context)
        returns (accepted: seq<Record>, ghost records: seq<Record>, ghost steps: Trace)
      requires ValidConfig(cfg) && ValidInputs(cfg, x) && !x.faults.fetch && r in rounds && rounds[r].status == Aggregating
      modifies this`rounds
      ensures IsTrace(cfg, c, steps) && steps[0] == Point(old(rounds), At(ctx, Fetching(r)))
      ensures Last(steps) == Point(rounds, At(ctx, Flagging(r, accepted, []))) && OnlyTouches(old(rounds), rounds, r)
      ensures IsListing(records, old(rounds)[r].rows) && accepted == Chosen(cfg, records, x.filterFetch)
      ensures rounds[r] == Selected(cfg, old(rounds)[r], records, x)
    {
      hide IsTrace, Last, Produced, IsListing, Accepted, Rejected, IsSqrt, FilterOutcome, FlagRows;
      steps := [Point(rounds, At(ctx, Fetching(r)))];
      StartTrace(cfg, c, steps[0]);
      var rows := FetchRecords(r);
      records := rows;
      ListingIsDistinct(records, rounds[r].rows);
      steps := TryTo(cfg, c, ctx, steps, Fetching(r), rounds, Filtering(r, records), [Fetched(c, r, records)]);
      var flagged;
      accepted, flagged := AnomalyFilter(if cfg.hasStorage then Some(x.filterFetch) else None, rows, cfg.anomalyThreshold, cfg.sqrt);
      IsFilterOutcome(cfg, records, x.filterFetch, accepted, flagged);
      steps := TryTo(cfg, c, ctx, steps, Filtering(r, records), rounds, Flagging(r, accepted, flagged), []);
      ghost var more := FlagAll(c, r, accepted, flagged, x.faults.flag, ctx);
      steps := Join(cfg, c, steps, more);
    }

    /** Marks the round failed, if that statement succeeds. */
    method FailRound(c: CallId, r: RoundNo, tooMany: bool, f: Faults, ghost ctx: Context) returns (ghost steps: Trace)
      requires r in rounds && (cfg.dbFails || Faultless(f))
      modifies this`rounds
      ensures IsTrace(cfg, c, steps) && steps[0] == Point(old(rounds), At(ctx, Failing(r, tooMany)))
      ensures Last(steps) == Point(rounds, At(ctx, Return(r, Error))) && OnlyTouches(old(rounds), rounds, r)
      ensures rounds[r] == Fails(old(rounds)[r], f)
    {
      hide IsTrace, Last, FilterOutcome, Produced, IsListing;
      steps := [Point(rounds, At(ctx, Failing(r, tooMany)))];
      StartTrace(cfg, c, steps[0]);
      if !f.fail {
        rounds := SetStatus(rounds, r, Failed);
      }
      steps := TryTo(cfg, c, ctx, steps, Failing(r, tooMany), rounds, Return(r, Error), []);
    }

    /** From the accepted records to the verdict on the round. */
    method Publish(c: CallId, r: RoundNo, accepted: seq<Record>, x: Inputs, ghost ctx: Context) returns (result: Result, ghost steps: Trace)
      requires ValidConfig(cfg) && ValidInputs(cfg, x) && r in rounds
      modifies this`rounds
      ensures IsTrace(cfg, c, steps) && steps[0] == Point(old(rounds), At(ctx, Flagging(r, accepted, [])))
      ensures Last(steps) == Point(rounds, At(ctx, Return(r, result))) && OnlyTouches(old(rounds), rounds, r)
      ensures (rounds[r], result) == Published(cfg, old(rounds)[r], r, accepted, x)
    {
      hide IsTrace, Last, IsListing, FilterOutcome, Produced, IsSqrt, FedAvg.Aggregate, FedAvg.AllFetched, Messages.Decimal;
      steps := [Point(rounds, At(ctx, Flagging(r, accepted, [])))];
      StartTrace(cfg, c, steps[0]);
      result := Error;
      ghost var more: Trace;
      if |accepted| < cfg.minParticipants {
        steps := TryTo(cfg, c, ctx, steps, Flagging(r, accepted, []), rounds, Failing(r, true), []);
        more := FailRound(c, r, true, x.faults, ctx);
        steps := Join(cfg, c, steps, more);
        return;
      }
      steps := TryTo(cfg, c, ctx, steps, Flagging(r, accepted, []), rounds, Averaging(r, accepted), []);
      var outcome := FedAvg.FedAverage(if cfg.hasStorage then Some(x.averageFetch) else None, accepted, x.weightOf, cfg.clipNorm,
                                       cfg.sqrt, cfg.hashOf, x.uploadOk);
      if outcome.Error? {
        steps := TryTo(cfg, c, ctx, steps, Averaging(r, accepted), rounds, Failing(r, false), []);
        more := FailRound(c, r, false, x.faults, ctx);
        steps := Join(cfg, c, steps, more);
        return;
      }
      var hash := if outcome.Placeholder? then "fedavg-placeholder-round-" + Messages.Decimal(r) else outcome.hash;
      IsProduced(cfg, accepted, x.averageFetch, x.weightOf, outcome, hash);
      steps := TryTo(cfg, c, ctx, steps, Averaging(r, accepted), rounds, Completing(r, accepted, hash), []);
      result, more := CompleteRound(c, r, accepted, hash, x.faults, ctx);
      steps := Join(cfg, c, steps, more);
    }

    /** Marks the round complete with its checkpoint, if that statement succeeds. */
    method CompleteRound(c: CallId, r: RoundNo, ghost accepted: seq<Record>, hash: string, f: Faults, ghost ctx: Context)
        returns (result: Result, ghost steps: Trace)
      requires r in rounds && (cfg.dbFails || Faultless(f))
      modifies this`rounds
      ensures IsTrace(cfg, c, steps) && steps[0] == Point(old(rounds), At(ctx, Completing(r, accepted, hash)))
      ensures Last(steps) == Point(rounds, At(ctx, Return(r, result))) && OnlyTouches(old(rounds), rounds, r)
      ensures result == if f.complete then Error else Summary
      ensures rounds[r] == if f.complete then old(rounds)[r] else old(rounds)[r].(status := Complete, checkpoint := Some(hash))
    {
      hide IsTrace, Last, FilterOutcome, Produced, IsListing;
      steps := [Point(rounds, At(ctx, Completing(r, accepted, hash)))];
      StartTrace(cfg, c, steps[0]);
      if f.complete {
        steps := TryTo(cfg, c, ctx, steps, Completing(r, accepted, hash), rounds, Return(r, Error), []);
        return Error, steps;
      }
      rounds := SetComplete(rounds, r, hash);
      steps := TryTo(cfg, c, ctx, steps, Completing(r, accepted, hash), rounds, Return(r, Summary), [Wrote(c, r, hash, accepted)]);
      return Summary, steps;
    }

    /** A whole TryAggregate, on its own or inside an expiry pass: its statements are a trace of the step
        machine from resolving the round to returning; it touches no other round; and it makes of its round
        what an attempt over some listing of its rows should. */
    method TryAggregate(c: CallId, r: RoundNo, x: Inputs, ghost ctx: Context)
        returns (result: Result, ghost records: seq<Record>, ghost steps: Trace)
      requires ValidConfig(cfg) && ValidInputs(cfg, x)
      modifies this`rounds
      ensures IsTrace(cfg, c, steps) && steps[0] == Point(old(rounds), At(ctx, Resolve(r)))
      ensures Last(steps) == Point(rounds, At(ctx, Return(r, result))) && OnlyTouches(old(rounds), rounds, r)
      ensures r !in old(rounds) ==> result == Error
      ensures r in old(rounds) ==> (rounds[r], result) == Attempt(cfg, old(rounds)[r], r, records, x)
      ensures r in old(rounds) && Claims(cfg, old(rounds)[r], x.faults) && !x.faults.fetch ==> IsListing(records, old(rounds)[r].rows)
    {
      hide IsTrace, Last, IsSqrt, IsListing, Chosen, Published, FlagRows, Claims, TryStep, CallStep;
      var won;
      records := [];
      won, result, steps := Claim(c, r, x.faults, ctx);
      if !won {
        return;
      }
      ghost var more: Trace;
      if x.faults.fetch {
        more := FailFetch(c, r, x.faults, ctx);
        steps := Join(cfg, c, steps, more);
        result := Error;
        return;
      }
      var accepted;
      accepted, records, more := Select(c, r, x, ctx);
      steps := Join(cfg, c, steps, more);
      result, more := Publish(c, r, accepted, x, ctx);
      steps := Join(cfg, c, steps, more);
    }

    /** The rows could not be fetched. */
    method FailFetch(c: CallId, r: RoundNo, f: Faults, ghost ctx: Context) returns (ghost steps: Trace)
      requires r in rounds && cfg.dbFails
      modifies this`rounds
      ensures IsTrace(cfg, c, steps) && steps[0] == Point(old(rounds), At(ctx, Fetching(r)))
      ensures Last(steps) == Point(rounds, At(ctx, Return(r, Error))) && OnlyTouches(old(rounds), rounds, r)
      ensures rounds[r] == Fails(old(rounds)[r], f)
    {
      hide IsTrace, Last, FilterOutcome, Produced, IsListing;
      steps := [Point(rounds, At(ctx, Fetching(r)))];
      StartTrace(cfg, c, steps[0]);
      steps := TryTo(cfg, c, ctx, steps, Fetching(r), rounds, Failing(r, false), []);
      ghost var more := FailRound(c, r, false, f, ctx);
      steps := Join(cfg, c, steps, more);
    }

    /** Records a gradient for an open round; a node that submits again replaces its own row. */
    method SubmitGradient(c: CallId, r: RoundNo, x: Record, checkOk: bool, upsertOk: bool) returns (ok: bool, ghost steps: Trace)
      requires cfg.dbFails || (checkOk && upsertOk)
      modifies this`rounds
      ensures IsTrace(cfg, c, steps) && steps[0] == Point(old(rounds), SubmitCheck(r, x)) && Last(steps) == Point(rounds, SubmitDone(ok))
      ensures ok <==> checkOk && r in old(rounds) && old(rounds)[r].status == Open && upsertOk
      ensures !ok ==> rounds == old(rounds)
      ensures ok ==>
        (OnlyTouches(old(rounds), rounds, r) && SameRound(old(rounds)[r], rounds[r])
         && rounds[r].rows.Keys == old(rounds)[r].rows.Keys + {x.node}
         && rounds[r].rows[x.node].hash == x.hash && rounds[r].rows[x.node].url == x.url
         && (rounds[r].rows[x.node].flagged <==> x.node in old(rounds)[r].rows && old(rounds)[r].rows[x.node].flagged)
         && (forall n :: n in old(rounds)[r].rows && n != x.node ==> rounds[r].rows[n] == old(rounds)[r].rows[n]))
    {
      hide IsTrace, Last, TryStep;
      steps := [Point(rounds, SubmitCheck(r, x))];
      StartTrace(cfg, c, steps[0]);
      if !checkOk || r !in rounds || rounds[r].status != Open {
        steps := Step(cfg, c, steps, Point(rounds, SubmitDone(false)), []);
        return false, steps;
      }
      steps := Step(cfg, c, steps, Point(rounds, SubmitWrite(r, x)), []);
      if upsertOk {
        rounds := Upsert(rounds, r, x);
      }
      steps := Step(cfg, c, steps, Point(rounds, SubmitDone(upsertOk)), []);
      return upsertOk, steps;
    }

    /** The query for open rounds past their deadline. */
    method ListExpired(now: int) returns (todo: seq<RoundNo>)
      ensures IsExpiredListing(todo, rounds, cfg.duration, now)
    {
      todo := [];
      var rest := rounds.Keys;
      while rest != {}
        invariant rest <= rounds.Keys && forall r :: r in todo ==> r !in rest
        invariant Distinct(todo)
        invariant forall r :: r in todo <==>
          r in rounds && r !in rest && rounds[r].status == Open && rounds[r].startedAt + cfg.duration < now
        decreases rest
      {
        var r :| r in rest;
        if rounds[r].status == Open && rounds[r].startedAt + cfg.duration < now {
          assert forall i :: 0 <= i < |todo| ==> todo[i] in todo;
          todo := todo + [r];
        }
        rest := rest - {r};
      }
    }

    /** One expired round: attempted, and failed unless that gave a summary. */
    method Close(c: CallId, r: RoundNo, x: PassInputs, todo: seq<RoundNo>, closed: nat) returns (closed': nat, ghost v: Visit, ghost steps: Trace)
      requires ValidConfig(cfg) && ValidPass(cfg, x) && r in rounds
      modifies this`rounds
      ensures IsTrace(cfg, c, steps) && steps[0] == Point(old(rounds), CloseLoop([r] + todo, closed))
      ensures Last(steps) == Point(rounds, CloseLoop(todo, closed')) && OnlyTouches(old(rounds), rounds, r)
      ensures v.r == r && rounds[r] == Passed(cfg, old(rounds)[r], v, x)
      ensures closed' == closed + if Counted(cfg, old(rounds), x)(v) then 1 else 0
    {
      hide IsTrace, Last, IsSqrt, TryStep, Attempt, IsListing;
      closed', v := closed, Visit(r, []);
      steps := [Point(rounds, CloseLoop([r] + todo, closed))];
      StartTrace(cfg, c, steps[0]);
      assert ([r] + todo)[1..] == todo;
      if x.skip(r) {
        steps := Step(cfg, c, steps, Point(rounds, CloseLoop(todo, closed)), []);
        return;
      }
      ghost var ctx := Inside(todo, closed);
      steps := Step(cfg, c, steps, Point(rounds, At(ctx, Resolve(r))), []);
      var result; ghost var records; ghost var more: Trace;
      result, records, more := TryAggregate(c, r, x.attempt(r), ctx);
      v := Visit(r, records);
      steps := Join(cfg, c, steps, more);
      if result.Summary? {
        steps := Step(cfg, c, steps, Point(rounds, CloseLoop(todo, closed)), []);
        return;
      }
      steps := Step(cfg, c, steps, Point(rounds, CloseFail(r, todo, closed)), []);
      if !x.lost(r) {
        rounds := SetStatus(rounds, r, Failed);
      }
      closed' := closed + 1;
      steps := Step(cfg, c, steps, Point(rounds, CloseLoop(todo, closed')), []);
    }

    /** A whole expiry pass: a trace of the step machine that visits every expired open round once, makes of
        each what the pass should, changes no other, and returns how many visits gave no summary. */
    method CloseExpired(c: CallId, now: int, x: PassInputs) returns (closed: Option<nat>, ghost visits: seq<Visit>, ghost steps: Trace)
      requires ValidConfig(cfg) && ValidPass(cfg, x)
      modifies this`rounds
      ensures IsTrace(cfg, c, steps) && steps[0] == Point(old(rounds), CloseQuery)
      ensures Last(steps) == Point(rounds, if closed.Some? then CloseDone(closed.value) else CloseError)
      ensures closed.Some? <==> x.queryOk
      ensures closed.None? ==> rounds == old(rounds)
      ensures closed.Some? ==>
        (IsPass(cfg, old(rounds), rounds, now, visits, x) && closed.value == |Filter(visits, Counted(cfg, old(rounds), x))|)
    {
      hide IsTrace, Last, IsSqrt, TryStep, Attempt, IsListing, Passed, Counted, Filter;
      visits := [];
      steps := [Point(rounds, CloseQuery)];
      StartTrace(cfg, c, steps[0]);
      if !x.queryOk {
        steps := Step(cfg, c, steps, Point(rounds, CloseError), []);
        return None, visits, steps;
      }
      var todo := ListExpired(now);
      steps := Step(cfg, c, steps, Point(rounds, CloseLoop(todo, 0)), []);
      var n := 0;
      EmptyFilter(Counted(cfg, rounds, x));
      for i := 0 to |todo|
        invariant IsTrace(cfg, c, steps) && steps[0] == Point(old(rounds), CloseQuery)
        invariant Last(steps) == Point(rounds, CloseLoop(todo[i..], n))
        invariant PassedUpTo(cfg, old(rounds), rounds, todo, i, visits, x)
        invariant n == |Filter(visits, Counted(cfg, old(rounds), x))|
      {
        assert todo[i..] == [todo[i]] + todo[i + 1..];
        Unvisited(cfg, old(rounds), rounds, todo, i, visits, x);
        ghost var v: Visit; ghost var more: Trace;
        ghost var was := rounds;
        n, v, more := Close(c, todo[i], x, todo[i + 1..], n);
        steps := Join(cfg, c, steps, more);
        SameCounted(cfg, old(rounds), was, v, x);
        FilterAppend(visits, v, Counted(cfg, old(rounds), x));
        OneVisitMore(cfg, old(rounds), was, rounds, todo, i, visits, v, x);
        visits := visits + [v];
      }
      assert todo[|todo|..] == [];
      steps := Step(cfg, c, steps, Point(rounds, CloseDone(n)), []);
      return Some(n), visits, steps;
    }
  }

  lemma EmptyFilter<T>(p: T -> bool)
    ensures |Filter([], p)| == 0
  {
  }

  /** The visits of a pass: each round that was open and expired once, each made what the pass should, and
      every other round as it was. */
  ghost predicate IsPass(cfg: Config, rs: Rounds, rs': Rounds, now: int, visits: seq<Visit>, x: PassInputs) {
    exists todo :: IsExpiredListing(todo, rs, cfg.duration, now) && PassedUpTo(cfg, rs, rs', todo, |todo|, visits, x)
  }

  ghost predicate PassedUpTo(cfg: Config, rs: Rounds, rs': Rounds, todo: seq<RoundNo>, i: nat, visits: seq<Visit>, x: PassInputs) {
    && rs'.Keys == rs.Keys && |visits| == i <= |todo| && Distinct(todo) && (forall r :: r in todo ==> r in rs)
    && (forall j :: 0 <= j < i ==> visits[j].r == todo[j] && rs'[todo[j]] == Passed(cfg, rs[todo[j]], visits[j], x))
    && (forall r :: r in rs && r !in todo[..i] ==> rs'[r] == rs[r])
  }

  lemma Unvisited(cfg: Config, rs: Rounds, rs': Rounds, todo: seq<RoundNo>, i: nat, visits: seq<Visit>, x: PassInputs)
    requires i < |todo| && PassedUpTo(cfg, rs, rs', todo, i, visits, x)
    ensures todo[i] in rs && todo[i] in rs' && rs'[todo[i]] == rs[todo[i]]
  {
    hide Passed;
    assert todo[i] in todo;
    assert todo[i] !in todo[..i];
  }

  lemma SameCounted(cfg: Config, rs: Rounds, rs': Rounds, v: Visit, x: PassInputs)
    requires v.r in rs && v.r in rs' && rs'[v.r] == rs[v.r]
    ensures Counted(cfg, rs, x)(v) == Counted(cfg, rs', x)(v)
  {
    hide Attempt;
  }

  lemma OneVisitMore(cfg: Config, rs: Rounds, was: Rounds, rs': Rounds, todo: seq<RoundNo>, i: nat, visits: seq<Visit>, v: Visit, x: PassInputs)
    requires i < |todo| && PassedUpTo(cfg, rs, was, todo, i, visits, x)
    requires todo[i] in was && OnlyTouches(was, rs', todo[i]) && v.r == todo[i]
    requires todo[i] in rs && was[todo[i]] == rs[todo[i]] && rs'[todo[i]] == Passed(cfg, was[todo[i]], v, x)
    ensures PassedUpTo(cfg, rs, rs', todo, i + 1, visits + [v], x)
  {
    hide Passed;
    assert todo[..i + 1] == todo[..i] + [todo[i]];
  }

  // ------------------------------------------------ a pass without failing statements

  lemma FaultlessPassEnds(cfg: Config, was: Round, v: Visit, x: PassInputs)
    requires was.status == Open && !x.skip(v.r) && !x.lost(v.r) && Faultless(x.attempt(v.r).faults)
    ensures Ended(Passed(cfg, was, v, x).status)
    ensures Passed(cfg, was, v, x).status == Failed <==> !Attempt(cfg, was, v.r, v.records, x.attempt(v.r)).1.Summary?
  {
    hide Attempt, Faultless;
    AttemptVerdict(cfg, was, v.r, v.records, x.attempt(v.r));
    SummaryCompletes(cfg, was, v, x.attempt(v.r));
  }

  lemma SummaryCompletes(cfg: Config, was: Round, v: Visit, x: Inputs)
    ensures Attempt(cfg, was, v.r, v.records, x).1.Summary? ==> Attempt(cfg, was, v.r, v.records, x).0.status == Complete
  {
    AttemptVerdict(cfg, was, v.r, v.records, x);
  }

  lemma {:induction false} CountsFailures(cfg: Config, rs: Rounds, rs': Rounds, todo: seq<RoundNo>, visits: seq<Visit>, x: PassInputs)
    requires |todo| == |visits|
    requires forall j :: 0 <= j < |todo| ==> visits[j].r == todo[j] && todo[j] in rs'
    requires forall j :: 0 <= j < |todo| ==> (Counted(cfg, rs, x)(visits[j]) <==> rs'[todo[j]].status == Failed)
    ensures |Filter(visits, Counted(cfg, rs, x))| == CountFailed(rs', todo)
    decreases |todo|
  {
    hide Counted;
    if todo != [] {
      var n := |todo| - 1;
      CountsFailures(cfg, rs, rs', todo[..n], visits[..n], x);
      assert visits == visits[..n] + [visits[n]];
      FilterAppend(visits[..n], visits[n], Counted(cfg, rs, x));
    }
  }

  /** Without failing statements a pass ends every round that was open and expired and counts exactly those
      it failed. */
  lemma FaultlessPass(cfg: Config, rs: Rounds, rs': Rounds, now: int, visits: seq<Visit>, x: PassInputs) returns (todo: seq<RoundNo>)
    requires !cfg.dbFails && ValidPass(cfg, x) && IsPass(cfg, rs, rs', now, visits, x)
    ensures IsExpiredListing(todo, rs, cfg.duration, now) && rs'.Keys == rs.Keys
    ensures forall r :: r in todo ==> r in rs' && Ended(rs'[r].status)
    ensures forall r :: r in rs && r !in todo ==> rs'[r] == rs[r]
    ensures |Filter(visits, Counted(cfg, rs, x))| == CountFailed(rs', todo)
  {
    hide Attempt, Passed, Filter, Faultless;
    todo :| IsExpiredListing(todo, rs, cfg.duration, now) && PassedUpTo(cfg, rs, rs', todo, |todo|, visits, x);
    forall j | 0 <= j < |todo|
      ensures visits[j].r == todo[j] && todo[j] in rs' && Ended(rs'[todo[j]].status)
      ensures Counted(cfg, rs, x)(visits[j]) <==> rs'[todo[j]].status == Failed
    {
      assert todo[j] in todo;
      FaultlessPassEnds(cfg, rs[todo[j]], visits[j], x);
    }
    CountsFailures(cfg, rs, rs', todo, visits, x);
    assert todo[..|todo|] == todo;
    forall r | r in todo
      ensures r in rs' && Ended(rs'[r].status)
    {
      var j :| 0 <= j < |todo| && todo[j] == r;
    }
  }
}
