/**
 One CloseExpired pass with no other aggregator at work and no failing statement, while gradients keep
 being submitted and rounds keep being opened (internal/fl/rounds.go).
 */
module RoundExpiry {
  import opened RoundProtocol

  /** A step of call c, of a submission, or of opening a round. */
  ghost predicate QuietStep(cfg: Config, s: State, a: Action, s': State, c: CallId) {
    && Does(cfg, s, a, s')
    && match a
       case OpenRound(_, _) => true
       case Start(_, call) => call.SubmitCheck?
       case Advance(d) => d == c || (d in s.calls && (s.calls[d].SubmitCheck? || s.calls[d].SubmitWrite?))
  }

  ghost predicate QuietRun(cfg: Config, run: seq<State>, acts: seq<Action>, c: CallId) {
    |run| == |acts| + 1 && forall i :: 0 <= i < |acts| ==> QuietStep(cfg, run[i], acts[i], run[i + 1], c)
  }

  // ------------------------------------------------ what a step leaves alone

  predicate SameRound(x: Round, y: Round) {
    x.status == y.status && x.checkpoint == y.checkpoint && x.startedAt == y.startedAt
  }

  /** Every round but those in S keeps its status, checkpoint and start. */
  ghost predicate SameExcept(rs: Rounds, rs': Rounds, S: set<RoundNo>) {
    forall q :: q in rs ==> q in rs' && (q !in S ==> SameRound(rs[q], rs'[q]))
  }

  lemma TryTouchesOne(cfg: Config, c: CallId, rs: Rounds, pc: Pc, rs': Rounds, pc': Pc, events: seq<Event>)
    requires TryStep(cfg, c, rs, pc, rs', pc', events)
    ensures SameExcept(rs, rs', {pc.r}) && pc'.r == pc.r
  {
    hide FilterOutcome, Produced, IsListing;
  }

  predicate Ended(status: Status) {
    status == Complete || status == Failed
  }

  function CountFailed(rs: Rounds, s: seq<RoundNo>): nat {
    if s == [] then 0
    else
      var r := s[|s| - 1];
      CountFailed(rs, s[..|s| - 1]) + (if r in rs && rs[r].status == Failed then 1 else 0)
  }

  lemma {:induction false} CountFramed(rs: Rounds, rs': Rounds, s: seq<RoundNo>)
    requires forall r :: r in s ==> r in rs && r in rs' && rs[r].status == rs'[r].status
    ensures CountFailed(rs, s) == CountFailed(rs', s)
    decreases |s|
  {
    if s != [] {
      CountFramed(rs, rs', s[..|s| - 1]);
    }
  }

  // ------------------------------------------------ the invariant of a pass

  ghost predicate DoneUpTo(rs: Rounds, all: seq<RoundNo>, n: nat, closed: nat)
    requires n <= |all|
  {
    (forall i :: 0 <= i < n ==> all[i] in rs && Ended(rs[all[i]].status)) && closed == CountFailed(rs, all[..n])
  }

  ghost predicate OpenFrom(rs: Rounds, all: seq<RoundNo>, n: nat) {
    forall i :: n <= i < |all| ==> all[i] in rs && rs[all[i]].status == Open
  }

  /** The status the current round has at each program point. */
  predicate StatusAt(status: Status, pc: Pc) {
    match pc
    case Resolve(_) => status == Open
    case Count(_) => status == Open
    case Cas(_) => status == Open
    case Return(_, Nothing) => status == Open
    case Return(_, Summary) => status == Complete
    case Return(_, Error) => status == Failed
    case _ => status == Aggregating
  }

  ghost predicate PassInv(rs: Rounds, all: seq<RoundNo>, call: Call) {
    match call
    case CloseLoop(todo, closed) =>
      |todo| <= |all| && var n := |all| - |todo|;
      todo == all[n..] && DoneUpTo(rs, all, n, closed) && OpenFrom(rs, all, n)
    case CloseInner(todo, closed, pc) =>
      |todo| < |all| && var n := |all| - |todo| - 1;
      todo == all[n + 1..] && pc.r == all[n] && DoneUpTo(rs, all, n, closed) && OpenFrom(rs, all, n + 1)
      && pc.r in rs && StatusAt(rs[pc.r].status, pc)
    case CloseFail(r, todo, closed) =>
      |todo| < |all| && var n := |all| - |todo| - 1;
      todo == all[n + 1..] && r == all[n] && DoneUpTo(rs, all, n, closed) && OpenFrom(rs, all, n + 1)
      && r in rs
    case CloseDone(closed) => DoneUpTo(rs, all, |all|, closed)
    case _ => false
  }

  ghost predicate Distinct(all: seq<RoundNo>) {
    forall i, j :: 0 <= i < j < |all| ==> all[i] != all[j]
  }

  lemma DoneFramed(rs: Rounds, rs': Rounds, all: seq<RoundNo>, n: nat, closed: nat, S: set<RoundNo>)
    requires n <= |all| && DoneUpTo(rs, all, n, closed) && SameExcept(rs, rs', S)
    requires forall i :: 0 <= i < n ==> all[i] !in S
    ensures DoneUpTo(rs', all, n, closed)
  {
    forall r | r in all[..n]
      ensures r in rs && r in rs' && rs[r].status == rs'[r].status
    {
      var i :| 0 <= i < n && all[..n][i] == r;
      assert all[i] !in S;
    }
    CountFramed(rs, rs', all[..n]);
  }

  lemma DoneOneMore(rs: Rounds, all: seq<RoundNo>, n: nat, closed: nat)
    requires n < |all| && DoneUpTo(rs, all, n, closed) && all[n] in rs && Ended(rs[all[n]].status)
    ensures DoneUpTo(rs, all, n + 1, closed + if rs[all[n]].status == Failed then 1 else 0)
  {
    assert all[..n + 1][..n] == all[..n];
  }

  lemma TryStatus(cfg: Config, c: CallId, rs: Rounds, pc: Pc, rs': Rounds, pc': Pc, events: seq<Event>)
    requires !cfg.dbFails && TryStep(cfg, c, rs, pc, rs', pc', events) && pc.r in rs && StatusAt(rs[pc.r].status, pc)
    ensures pc.r in rs' && StatusAt(rs'[pc.r].status, pc')
  {
    hide FilterOutcome, Produced, IsListing;
  }

  lemma InnerStep(cfg: Config, c: CallId, rs: Rounds, call: Call, rs': Rounds, call': Call, events: seq<Event>, all: seq<RoundNo>)
    requires !cfg.dbFails && Distinct(all) && call.CloseInner? && !call.pc.Return?
    requires CallStep(cfg, c, rs, call, rs', call', events) && PassInv(rs, all, call)
    ensures PassInv(rs', all, call') && SameExcept(rs, rs', {call.pc.r})
  {
    hide TryStep, DoneUpTo;
    TryTouchesOne(cfg, c, rs, call.pc, rs', call'.pc, events);
    TryStatus(cfg, c, rs, call.pc, rs', call'.pc, events);
    DoneFramed(rs, rs', all, |all| - |call.todo| - 1, call.closed, {call.pc.r});
  }

  lemma FailStep(cfg: Config, c: CallId, rs: Rounds, call: Call, rs': Rounds, call': Call, events: seq<Event>, all: seq<RoundNo>)
    requires !cfg.dbFails && Distinct(all) && call.CloseFail?
    requires CallStep(cfg, c, rs, call, rs', call', events) && PassInv(rs, all, call)
    ensures PassInv(rs', all, call') && SameExcept(rs, rs', {call.r})
  {
    hide TryStep, DoneUpTo;
    var n := |all| - |call.todo| - 1;
    DoneFramed(rs, rs', all, n, call.closed, {call.r});
    DoneOneMore(rs', all, n, call.closed);
  }

  lemma LoopStep(cfg: Config, c: CallId, rs: Rounds, call: Call, rs': Rounds, call': Call, events: seq<Event>, all: seq<RoundNo>)
    requires !cfg.dbFails && Distinct(all) && (call.CloseLoop? || (call.CloseInner? && call.pc.Return?))
    requires CallStep(cfg, c, rs, call, rs', call', events) && PassInv(rs, all, call)
    ensures PassInv(rs', all, call') && rs' == rs
  {
    hide TryStep, DoneUpTo;
    if call.CloseInner? && call.pc.result.Summary? {
      DoneOneMore(rs, all, |all| - |call.todo| - 1, call.closed);
    }
  }

  /** A step of the pass itself keeps its invariant and touches only rounds it was told to close. */
  lemma PassStep(cfg: Config, c: CallId, rs: Rounds, call: Call, rs': Rounds, call': Call, events: seq<Event>, all: seq<RoundNo>)
    requires !cfg.dbFails && Distinct(all) && CallStep(cfg, c, rs, call, rs', call', events) && PassInv(rs, all, call)
    ensures PassInv(rs', all, call') && SameExcept(rs, rs', set r | r in all)
  {
    hide TryStep, DoneUpTo, CallStep;
    match call
    case CloseInner(_, _, pc) =>
      if pc.Return? {
        LoopStep(cfg, c, rs, call, rs', call', events, all);
      } else {
        InnerStep(cfg, c, rs, call, rs', call', events, all);
      }
    case CloseFail(_, _, _) => FailStep(cfg, c, rs, call, rs', call', events, all);
    case CloseLoop(_, _) => LoopStep(cfg, c, rs, call, rs', call', events, all);
    case CloseDone(_) => DoneIsFinal(cfg, c, rs, call, rs', call', events);
  }

  lemma DoneIsFinal(cfg: Config, c: CallId, rs: Rounds, call: Call, rs': Rounds, call': Call, events: seq<Event>)
    requires call.CloseDone?
    ensures !CallStep(cfg, c, rs, call, rs', call', events)
  {
  }

  /** Submissions and new rounds change no status. */
  lemma QuietOthers(cfg: Config, s: State, a: Action, s': State, c: CallId, all: seq<RoundNo>)
    requires QuietStep(cfg, s, a, s', c) && a != Advance(c) && c in s.calls && PassInv(s.rounds, all, s.calls[c])
    ensures c in s'.calls && s'.calls[c] == s.calls[c]
    ensures PassInv(s'.rounds, all, s'.calls[c]) && SameExcept(s.rounds, s'.rounds, {})
  {
    hide TryStep, DoneUpTo, IsExpiredListing;
    var call := s.calls[c];
    assert SameExcept(s.rounds, s'.rounds, {});
    match call
    case CloseLoop(todo, closed) => DoneFramed(s.rounds, s'.rounds, all, |all| - |todo|, closed, {});
    case CloseInner(todo, closed, _) => DoneFramed(s.rounds, s'.rounds, all, |all| - |todo| - 1, closed, {});
    case CloseFail(_, todo, closed) => DoneFramed(s.rounds, s'.rounds, all, |all| - |todo| - 1, closed, {});
    case CloseDone(closed) => DoneFramed(s.rounds, s'.rounds, all, |all|, closed, {});
  }

  lemma SameExceptTransitive(a: Rounds, b: Rounds, c: Rounds, S: set<RoundNo>)
    requires SameExcept(a, b, S) && SameExcept(b, c, S)
    ensures SameExcept(a, c, S)
  {
  }

  lemma {:induction false} PassRun(cfg: Config, run: seq<State>, acts: seq<Action>, c: CallId, all: seq<RoundNo>, i: nat)
    requires !cfg.dbFails && QuietRun(cfg, run, acts, c) && 1 <= i < |run| && Distinct(all)
    requires c in run[1].calls && PassInv(run[1].rounds, all, run[1].calls[c])
    ensures c in run[i].calls && PassInv(run[i].rounds, all, run[i].calls[c])
    ensures SameExcept(run[1].rounds, run[i].rounds, set r | r in all)
    decreases i
  {
    hide CallStep, PassInv;
    if i > 1 {
      PassRun(cfg, run, acts, c, all, i - 1);
      var s, a, s' := run[i - 1], acts[i - 1], run[i];
      assert QuietStep(cfg, s, a, s', c);
      if a == Advance(c) {
        PassStep(cfg, c, s.rounds, s.calls[c], s'.rounds, s'.calls[c], s'.log[|s.log|..], all);
      } else {
        QuietOthers(cfg, s, a, s', c, all);
      }
      SameExceptTransitive(run[1].rounds, s.rounds, s'.rounds, set r | r in all);
    }
  }

  /** A finished pass: every round that was open and expired when it queried is complete or failed, every
      other round is as it was, and the count returned is the number of its rounds that failed. */
  lemma ExpiredAreClosed(cfg: Config, run: seq<State>, acts: seq<Action>, c: CallId)
    requires !cfg.dbFails && QuietRun(cfg, run, acts, c) && |acts| >= 1 && acts[0] == Advance(c)
    requires c in run[0].calls && run[0].calls[c].CloseQuery? && c in run[|acts|].calls && run[|acts|].calls[c].CloseDone?
    ensures exists all, now ::
      && IsExpiredListing(all, run[0].rounds, cfg.duration, now)
      && (forall r :: r in all ==> r in run[|acts|].rounds && Ended(run[|acts|].rounds[r].status))
      && SameExcept(run[0].rounds, run[|acts|].rounds, set r | r in all)
      && run[|acts|].calls[c].closed == CountFailed(run[|acts|].rounds, all)
  {
    hide TryStep;
    assert QuietStep(cfg, run[0], acts[0], run[1], c);
    var all := run[1].calls[c].todo;
    var now :| IsExpiredListing(all, run[0].rounds, cfg.duration, now);
    assert all[0..] == all && all[..0] == [];
    assert PassInv(run[1].rounds, all, run[1].calls[c]);
    PassRun(cfg, run, acts, c, all, |acts|);
    var final := run[|acts|];
    assert all[..|all|] == all;
    forall r | r in all
      ensures r in final.rounds && Ended(final.rounds[r].status)
    {
      var i :| 0 <= i < |all| && all[i] == r;
    }
  }
}
