/**
 How final 'complete' and 'failed' are (internal/fl/rounds.go). The statements that end a round do not look
 at its status, and an expiry pass that lost the CAS fails the round all the same. So a complete round can
 become failed, and a failed one complete; this module proves by which steps, and by no others.
 */
module RoundFinality {
  import opened RoundProtocol
  import opened RoundSafety

  /** The step with which an expiry pass fails round r. */
  ghost predicate FailsExpired(s: State, a: Action, r: RoundNo) {
    a.Advance? && a.c in s.calls && s.calls[a.c].CloseFail? && s.calls[a.c].r == r
  }

  /** The step with which the winner of round r completes it. */
  ghost predicate Completes(s: State, a: Action, r: RoundNo) {
    a.Advance? && a.c in s.calls && PcOf(s.calls[a.c]).Some?
    && PcOf(s.calls[a.c]).value.Completing? && PcOf(s.calls[a.c]).value.r == r
  }

  // ------------------------------------------------ one step

  /** A recorded checkpoint rules out every holder of the round. */
  lemma RecordedHasNoHolder(cfg: Config, rs: Rounds, log: seq<Event>, c: CallId, pc: Pc, r: RoundNo)
    requires Recorded(rs, log) && r in rs && rs[r].checkpoint.Some? && PcInv(cfg, rs, log, c, pc) && Holding(pc)
    ensures pc.r != r
  {
    hide FromFetch, Produced, Lenient, Enough;
    assert RoundRecorded(rs[r], r, log);
  }

  lemma TryKeepsRecorded(cfg: Config, c: CallId, rs: Rounds, log: seq<Event>, pc: Pc, rs': Rounds, pc': Pc, events: seq<Event>, r: RoundNo)
    requires TryStep(cfg, c, rs, pc, rs', pc', events) && PcInv(cfg, rs, log, c, pc) && Recorded(rs, log)
    requires r in rs && rs[r].checkpoint.Some?
    ensures r in rs' && rs'[r].checkpoint == rs[r].checkpoint
    ensures rs[r].status != Open ==> rs'[r].status == rs[r].status
  {
    hide FilterOutcome, Produced, IsListing, PcInv, Recorded;
    if Holding(pc) {
      RecordedHasNoHolder(cfg, rs, log, c, pc, r);
    }
  }

  lemma TryKeepsFailed(cfg: Config, c: CallId, rs: Rounds, pc: Pc, rs': Rounds, pc': Pc, events: seq<Event>, r: RoundNo)
    requires TryStep(cfg, c, rs, pc, rs', pc', events) && r in rs && rs[r].status == Failed
    ensures r in rs' && (rs'[r].status != Failed ==> pc.Completing? && pc.r == r && rs'[r].status == Complete)
  {
    hide FilterOutcome, Produced, IsListing;
  }

  /** A checkpoint once recorded is never changed; a complete round is left only by an expiry pass failing it;
      a failed one only by its winner completing it. */
  lemma StepFinality(cfg: Config, s: State, a: Action, s': State, r: RoundNo)
    requires Inv(cfg, s) && Does(cfg, s, a, s') && r in s.rounds
    ensures r in s'.rounds
    ensures s.rounds[r].checkpoint.Some? ==> s'.rounds[r].checkpoint == s.rounds[r].checkpoint
    ensures s.rounds[r].status == Complete ==>
      (s'.rounds[r].status != Complete <==> FailsExpired(s, a, r) && s'.rounds == SetStatus(s.rounds, r, Failed))
    ensures s.rounds[r].status == Failed ==>
      (s'.rounds[r].status != Failed ==> Completes(s, a, r) && s'.rounds[r].status == Complete)
  {
    hide TryStep, PcInv, OneWinner, OneCheckpoint, WonClosed, IsExpiredListing;
    assert RoundRecorded(s.rounds[r], r, s.log);
    ActionGrows(cfg, s, a, s');
    if a.Advance? && PcOf(s.calls[a.c]).Some? {
      var call, call', events := s.calls[a.c], s'.calls[a.c], s'.log[|s.log|..];
      var pc := PcOf(call).value;
      if call.Try? || !pc.Return? {
        var pc' := PcOf(call').value;
        assert TryStep(cfg, a.c, s.rounds, pc, s'.rounds, pc', events);
        if s.rounds[r].checkpoint.Some? {
          TryKeepsRecorded(cfg, a.c, s.rounds, s.log, pc, s'.rounds, pc', events, r);
        }
        if s.rounds[r].status == Failed {
          TryKeepsFailed(cfg, a.c, s.rounds, pc, s'.rounds, pc', events, r);
        }
      }
    }
  }

  // ------------------------------------------------ every run

  /** No step from i to j is that of an expiry pass failing round r. */
  ghost predicate Unfailed(run: seq<State>, acts: seq<Action>, i: nat, j: nat, r: RoundNo)
    requires i <= j <= |acts| <= |run|
  {
    forall k :: i <= k < j ==> !FailsExpired(run[k], acts[k], r)
  }

  /** In every run a checkpoint once recorded stays, and a complete round stays complete as long as no expiry
      pass fails it. */
  lemma {:induction false} CheckpointIsFinal(cfg: Config, run: seq<State>, acts: seq<Action>, i: nat, j: nat, r: RoundNo)
    requires ValidConfig(cfg) && IsRun(cfg, run, acts) && i <= j < |run| && r in run[i].rounds
    ensures r in run[j].rounds
    ensures run[i].rounds[r].checkpoint.Some? ==> run[j].rounds[r].checkpoint == run[i].rounds[r].checkpoint
    ensures run[i].rounds[r].status == Complete && Unfailed(run, acts, i, j, r) ==>
      run[j].rounds[r].status == Complete
    decreases j
  {
    hide Does, Inv, ValidConfig, FailsExpired, Completes;
    if i < j {
      CheckpointIsFinal(cfg, run, acts, i, j - 1, r);
      RunInv(cfg, run, acts, j - 1);
      StepFinality(cfg, run[j - 1], acts[j - 1], run[j], r);
    }
  }

  /** Call c holds round r. */
  ghost predicate HeldBy(s: State, c: CallId, r: RoundNo) {
    c in s.calls && PcOf(s.calls[c]).Some? && Holding(PcOf(s.calls[c]).value) && PcOf(s.calls[c]).value.r == r
  }

  /** Who holds a round after a step held it before, or has just found it open. */
  lemma HolderStep(cfg: Config, s: State, a: Action, s': State, c: CallId, r: RoundNo)
    requires Does(cfg, s, a, s') && HeldBy(s', c, r)
    ensures HeldBy(s, c, r) || (r in s.rounds && s.rounds[r].status == Open && r in s'.rounds && s'.rounds[r].status == Aggregating)
  {
    hide FilterOutcome, Produced, IsListing, IsExpiredListing;
    if a == Advance(c) {
      var call := s.calls[c];
      if call.Try? || (call.CloseInner? && !call.pc.Return?) {
        TryHolder(cfg, c, s.rounds, PcOf(call).value, s'.rounds, PcOf(s'.calls[c]).value, s'.log[|s.log|..]);
      }
    }
  }

  lemma TryHolder(cfg: Config, c: CallId, rs: Rounds, pc: Pc, rs': Rounds, pc': Pc, events: seq<Event>)
    requires TryStep(cfg, c, rs, pc, rs', pc', events) && Holding(pc')
    ensures pc'.r == pc.r
    ensures Holding(pc) || (pc.r in rs && rs[pc.r].status == Open && pc.r in rs' && rs'[pc.r].status == Aggregating)
  {
    hide FilterOutcome, Produced, IsListing;
  }

  /** A step that fails a round is an expiry pass's, or its holder's last. */
  lemma FailingStep(cfg: Config, s: State, a: Action, s': State, r: RoundNo)
    requires Does(cfg, s, a, s') && r in s.rounds && s.rounds[r].status != Failed && r in s'.rounds && s'.rounds[r].status == Failed
    ensures FailsExpired(s, a, r) || (a.Advance? && HeldBy(s, a.c, r) && !HeldBy(s', a.c, r))
  {
    hide FilterOutcome, Produced, IsListing, IsExpiredListing, TryStep;
    if !FailsExpired(s, a, r) {
      assert a.Advance?;
      var call := s.calls[a.c];
      assert call.Try? || (call.CloseInner? && !call.pc.Return?);
      TryFails(cfg, a.c, s.rounds, PcOf(call).value, s'.rounds, PcOf(s'.calls[a.c]).value, s'.log[|s.log|..], r);
    }
  }

  lemma TryFails(cfg: Config, c: CallId, rs: Rounds, pc: Pc, rs': Rounds, pc': Pc, events: seq<Event>, r: RoundNo)
    requires TryStep(cfg, c, rs, pc, rs', pc', events) && r in rs && rs[r].status != Failed && r in rs' && rs'[r].status == Failed
    ensures pc.Failing? && pc.r == r && pc'.Return?
  {
    hide FilterOutcome, Produced, IsListing;
  }

  /** A failed round that is still held was failed by an expiry pass. */
  lemma {:induction false} FailedWhileHeld(cfg: Config, run: seq<State>, acts: seq<Action>, i: nat, r: RoundNo, c: CallId)
    requires ValidConfig(cfg) && IsRun(cfg, run, acts) && i < |run|
    requires r in run[i].rounds && run[i].rounds[r].status == Failed && HeldBy(run[i], c, r)
    ensures !Unfailed(run, acts, 0, i, r)
    decreases i
  {
    hide Does, Inv, ValidConfig, FailsExpired, HeldBy;
    if i > 0 {
      var s, a, s' := run[i - 1], acts[i - 1], run[i];
      assert Does(cfg, s, a, s');
      HolderStep(cfg, s, a, s', c, r);
      HeldExists(cfg, run, acts, i - 1, c, r);
      if s.rounds[r].status == Failed {
        FailedWhileHeld(cfg, run, acts, i - 1, r, c);
      } else if !FailsExpired(s, a, r) {
        FailingStep(cfg, s, a, s', r);
        RunInv(cfg, run, acts, i - 1);
        OneHolder(cfg, s, a.c, c, r);
      }
    }
  }

  lemma HeldExists(cfg: Config, run: seq<State>, acts: seq<Action>, i: nat, c: CallId, r: RoundNo)
    requires ValidConfig(cfg) && IsRun(cfg, run, acts) && i < |run| && HeldBy(run[i], c, r)
    ensures r in run[i].rounds
  {
    hide ValidConfig, FromFetch, Produced;
    RunInv(cfg, run, acts, i);
    var pc := PcOf(run[i].calls[c]).value;
    assert Won(c, pc.r) in run[i].log;
  }

  lemma OneHolder(cfg: Config, s: State, c: CallId, d: CallId, r: RoundNo)
    requires Inv(cfg, s) && HeldBy(s, c, r) && HeldBy(s, d, r)
    ensures c == d
  {
    hide OneWinner, FromFetch, Produced;
    SoleHolder(s.log, c, d, r);
  }

  /** In every run a failed round that does not stay failed is completed by its winner, after an expiry pass
      had failed it. */
  lemma FailedUndone(cfg: Config, run: seq<State>, acts: seq<Action>, i: nat, r: RoundNo)
    requires ValidConfig(cfg) && IsRun(cfg, run, acts) && i < |acts| && r in run[i].rounds && run[i].rounds[r].status == Failed
    ensures r in run[i + 1].rounds
    ensures run[i + 1].rounds[r].status != Failed ==>
      run[i + 1].rounds[r].status == Complete && Completes(run[i], acts[i], r) && !Unfailed(run, acts, 0, i, r)
  {
    hide Does, Inv, ValidConfig, FailsExpired;
    RunInv(cfg, run, acts, i);
    assert Does(cfg, run[i], acts[i], run[i + 1]);
    StepFinality(cfg, run[i], acts[i], run[i + 1], r);
    if run[i + 1].rounds[r].status != Failed {
      FailedWhileHeld(cfg, run, acts, i, r, acts[i].c);
    }
  }
}
