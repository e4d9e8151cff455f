/**
 RecordMisbehaviorSignal and Slash as the program runs them (internal/stake/verifier.go), statement after
 statement. Any statement may fail, which ends the call there; every execution is a run of the step
 machine, so what is proved of all interleavings holds of the program.
 */
module SlashDriver {
  import opened Options
  import opened Sums
  import opened Slashing
  import Registry
  import StakeSweep

  /** A step of call c, or its end at a failing statement. */
  ghost predicate StepOrStop(threshold: int, c: CallId, s: State, s': State) {
    c in s.calls && (CallStep(threshold, s, c, s') || Continues(s, c, Done, s'))
  }

  type Steps = s: seq<State> | |s| > 0 witness [State(map[], map[], [], map[], {}, {}, map[])]

  ghost predicate IsCallRun(threshold: int, c: CallId, steps: Steps) {
    forall i :: 0 <= i < |steps| - 1 ==> StepOrStop(threshold, c, steps[i], steps[i + 1])
  }

  ghost function Last(steps: Steps): State {
    steps[|steps| - 1]
  }

  ghost function Then(threshold: int, c: CallId, steps: Steps, s: State): (r: Steps)
    requires IsCallRun(threshold, c, steps) && StepOrStop(threshold, c, Last(steps), s)
    ensures IsCallRun(threshold, c, r) && Last(r) == s && r[0] == steps[0]
  {
    AppendStep(threshold, c, steps, s);
    steps + [s]
  }

  lemma AppendStep(threshold: int, c: CallId, steps: Steps, s: State)
    requires IsCallRun(threshold, c, steps) && StepOrStop(threshold, c, Last(steps), s)
    ensures IsCallRun(threshold, c, steps + [s])
  {
    hide StepOrStop;
  }

  lemma StartRun(threshold: int, c: CallId, s: State)
    ensures IsCallRun(threshold, c, [s]) && Last([s]) == s
  {
  }

  ghost function Chain(threshold: int, c: CallId, a: Steps, b: Steps): (r: Steps)
    requires IsCallRun(threshold, c, a) && IsCallRun(threshold, c, b) && Last(a) == b[0]
    ensures IsCallRun(threshold, c, r) && Last(r) == Last(b) && r[0] == a[0]
  {
    ChainRuns(threshold, c, a, b);
    a + b[1..]
  }

  lemma ChainRuns(threshold: int, c: CallId, a: Steps, b: Steps)
    requires IsCallRun(threshold, c, a) && IsCallRun(threshold, c, b) && Last(a) == b[0]
    ensures IsCallRun(threshold, c, a + b[1..]) && Last(a + b[1..]) == Last(b)
  {
    hide StepOrStop;
    var s := a + b[1..];
    forall i | 0 <= i < |s| - 1
      ensures StepOrStop(threshold, c, s[i], s[i + 1])
    {
      if i >= |a| - 1 {
        var j := i - (|a| - 1);
        assert s[i] == b[j] && s[i + 1] == b[j + 1];
      }
    }
  }

  /** What a call does undisturbed, from where a run stands, is a continuation of that run: so every state it
      passes through satisfies what is proved of all runs. */
  lemma {:induction false} StepsContinueRun(threshold: int, run: seq<State>, acts: seq<Action>, c: CallId, steps: Steps)
      returns (acts': seq<Action>)
    requires IsRun(threshold, run, acts) && IsCallRun(threshold, c, steps) && run[|run| - 1] == steps[0]
    ensures IsRun(threshold, run + steps[1..], acts')
    ensures acts'[..|acts|] == acts && forall i :: |acts| <= i < |acts'| ==> acts'[i] == Advance(c) || acts'[i] == Stop(c)
    decreases |steps|
  {
    hide StepOrStop, Does;
    if |steps| == 1 {
      acts' := acts;
      assert run + steps[1..] == run;
    } else {
      var n := |steps| - 1;
      acts' := StepsContinueRun(threshold, run, acts, c, steps[..n]);
      var before, after := run + steps[..n][1..], run + steps[1..];
      assert after == before + [steps[n]] && before[|before| - 1] == steps[n - 1];
      var a := StepAction(threshold, c, steps[n - 1], steps[n]);
      acts' := acts' + [a];
    }
  }

  lemma StepAction(threshold: int, c: CallId, s: State, s': State) returns (a: Action)
    requires StepOrStop(threshold, c, s, s')
    ensures (a == Advance(c) || a == Stop(c)) && Does(threshold, s, a, s')
  {
    hide CallStep;
    a := if CallStep(threshold, s, c, s') then Advance(c) else Stop(c);
  }

  // ------------------------------------------------ how far a slash gets, and what it leaves behind

  /** What the Lightning client answers, whether the i-th statement succeeds, and the id the database gives the
      event. */
  datatype Inputs = Inputs(hasClient: bool, closeOk: bool, dbOk: nat -> bool, e: EventId)

  /** How many of its five changes a slash of node n makes before it stops. */
  function Reached(s: State, n: NodeId, x: Inputs): nat {
    if !x.hasClient || n !in s.stakes || !x.dbOk(0) || !x.closeOk then 0
    else if !x.dbOk(1) then 1
    else if !x.dbOk(2) then 2
    else if !x.dbOk(3) then 3
    else if !x.dbOk(4) then 4
    else 5
  }

  /** The rows after the first k changes of a slash of node n: close the channel, record the event, suspend the
      node, force-close its stake, link its unlinked signals to the event; and nothing else. */
  ghost predicate SlashedRows(s: State, s': State, n: NodeId, e: EventId, automatic: bool, k: nat) {
    && (k >= 1 ==> n in s.stakes)
    && s'.closed == (if k >= 1 then s.closed + {s.stakes[n].channel} else s.closed)
    && s'.events == (if k >= 2 then s.events[e := SlashEvent(n, s.stakes[n].channel, automatic)] else s.events)
    && NodesSuspended(s.nodes, s'.nodes, n, k >= 3)
    && StakesClosed(s.stakes, s'.stakes, n, k >= 4) && SignalsLinked(s.signals, s'.signals, n, e, k >= 5)
  }

  ghost predicate NodesSuspended(ns: map<NodeId, Registry.Status>, ns': map<NodeId, Registry.Status>, n: NodeId, done: bool) {
    ns'.Keys == ns.Keys && forall m :: m in ns ==> ns'[m] == if done && m == n then Registry.Suspended else ns[m]
  }

  ghost predicate StakesClosed(ss: StakeSweep.Stakes, ss': StakeSweep.Stakes, n: NodeId, done: bool) {
    ss'.Keys == ss.Keys
    && forall m :: m in ss ==> ss'[m] == if done && m == n then ss[m].(status := StakeSweep.ForceClosed) else ss[m]
  }

  ghost predicate SignalsLinked(xs: seq<Signal>, xs': seq<Signal>, n: NodeId, e: EventId, done: bool) {
    |xs'| == |xs|
    && forall i :: 0 <= i < |xs| ==> xs'[i] == if done && xs[i].node == n && xs[i].event.None? then Signal(n, Some(e)) else xs[i]
  }

  lemma StatementsMean(ns: map<NodeId, Registry.Status>, ss: StakeSweep.Stakes, xs: seq<Signal>, n: NodeId, e: EventId)
    ensures NodesSuspended(ns, ns, n, false) && NodesSuspended(ns, SetNode(ns, n, Registry.Suspended), n, true)
    ensures StakesClosed(ss, ss, n, false) && StakesClosed(ss, SetStake(ss, n, StakeSweep.ForceClosed), n, true)
    ensures SignalsLinked(xs, xs, n, e, false) && SignalsLinked(xs, LinkAll(xs, n, e), n, e, true)
  {
  }

  lemma LinkedIsAll(xs: seq<Signal>, xs': seq<Signal>, n: NodeId, e: EventId)
    requires SignalsLinked(xs, xs', n, e, true)
    ensures xs' == LinkAll(xs, n, e)
  {
  }

  lemma {:induction false} LinkAllLeavesNone(signals: seq<Signal>, n: NodeId, e: EventId)
    ensures Filter(LinkAll(signals, n, e), Unlinked(n)) == []
    ensures forall m :: m != n ==> Filter(LinkAll(signals, n, e), Unlinked(m)) == Filter(signals, Unlinked(m))
    decreases |signals|
  {
    if signals != [] {
      var k := |signals| - 1;
      LinkAllLeavesNone(signals[..k], n, e);
      assert LinkAll(signals, n, e)[..k] == LinkAll(signals[..k], n, e);
    }
  }

  /** A finished slash leaves the node without unlinked signals, so the next automatic one has to be earned
      from zero, and leaves other nodes' signals as they were; one that stops short leaves all signals open. */
  lemma SlashClearsCount(s: State, s': State, n: NodeId, e: EventId, automatic: bool, k: nat)
    requires SlashedRows(s, s', n, e, automatic, k)
    ensures k >= 5 ==> |Filter(s'.signals, Unlinked(n))| == 0
    ensures forall m :: m != n || k < 5 ==> Filter(s'.signals, Unlinked(m)) == Filter(s.signals, Unlinked(m))
  {
    LinkAllLeavesNone(s.signals, n, e);
    if k >= 5 {
      LinkedIsAll(s.signals, s'.signals, n, e);
    } else {
      assert s'.signals == s.signals;
    }
  }

  function With(s: State, c: CallId, pc: Pc): State {
    s.(calls := s.calls[c := pc])
  }

  class Enforcer {
    const threshold: int
    var db: State

    constructor (threshold: int, s: State)
      ensures this.threshold == threshold && db == s
    {
      this.threshold, db := threshold, s;
    }

    /** Force-closes the stake channel, records the event, suspends the node, marks the stake and links the open
        signals, and stops at the first of these that fails. */
    method Slash(c: CallId, n: NodeId, automatic: bool, x: Inputs) returns (ok: bool, ghost steps: Steps)
      requires c in db.calls && db.calls[c] == FetchingChannel(n, automatic) && x.e !in db.events
      modifies this`db
      ensures IsCallRun(threshold, c, steps) && steps[0] == old(db) && Last(steps) == db
      ensures db.calls == old(db).calls[c := Done]
      ensures ok <==> Reached(old(db), n, x) == 5
      ensures SlashedRows(old(db), db, n, x.e, automatic, Reached(old(db), n, x))
    {
      hide NodesSuspended, StakesClosed, SignalsLinked;
      StatementsMean(db.nodes, db.stakes, db.signals, n, x.e);
      hide IsCallRun, Last, Filter, Unlinked, LinkAll, SetNode, SetStake, StepOrStop;
      ok, steps := RecordEvent(c, n, automatic, x);
      if !ok {
        return;
      }
      ghost var more: Steps;
      ghost var before := db;
      ok, more := Settle(c, n, automatic, x);
      steps := Chain(threshold, c, steps, more);
      assert before.calls[c := Done] == old(db).calls[c := Done];
    }

    /** The statements up to the recorded event; the channel is closed before it. */
    method RecordEvent(c: CallId, n: NodeId, automatic: bool, x: Inputs) returns (ok: bool, ghost steps: Steps)
      requires c in db.calls && db.calls[c] == FetchingChannel(n, automatic) && x.e !in db.events
      modifies this`db
      ensures IsCallRun(threshold, c, steps) && steps[0] == old(db) && Last(steps) == db
      ensures ok <==> Reached(old(db), n, x) >= 2
      ensures db.closed == if Reached(old(db), n, x) >= 1 then old(db).closed + {old(db).stakes[n].channel} else old(db).closed
      ensures db.events == if ok then old(db).events[x.e := SlashEvent(n, old(db).stakes[n].channel, automatic)] else old(db).events
      ensures db.nodes == old(db).nodes && db.stakes == old(db).stakes && db.signals == old(db).signals
      ensures db.calls == old(db).calls[c := if ok then SuspendingNode(n, x.e, automatic) else Done] && db.finished == old(db).finished
    {
      hide IsCallRun, Last, Filter, Unlinked, LinkAll, SetNode, SetStake;
      ok := false;
      steps := [db];
      StartRun(threshold, c, db);
      if !x.hasClient || n !in db.stakes || !x.dbOk(0) {
        db := With(db, c, Done);
        steps := Then(threshold, c, steps, db);
        return;
      }
      var channel := db.stakes[n].channel;
      db := With(db, c, ClosingChannel(n, channel, automatic));
      steps := Then(threshold, c, steps, db);
      if !x.closeOk {
        db := With(db, c, Done);
        steps := Then(threshold, c, steps, db);
        assert db.calls == old(db).calls[c := Done];
        return;
      }
      db := With(db.(closed := db.closed + {channel}), c, InsertingEvent(n, channel, automatic));
      steps := Then(threshold, c, steps, db);
      if !x.dbOk(1) {
        db := With(db, c, Done);
        steps := Then(threshold, c, steps, db);
        assert db.calls == old(db).calls[c := Done];
        return;
      }
      db := With(db.(events := db.events[x.e := SlashEvent(n, channel, automatic)]), c, SuspendingNode(n, x.e, automatic));
      steps := Then(threshold, c, steps, db);
      assert db.calls == old(db).calls[c := SuspendingNode(n, x.e, automatic)];
      ok := true;
    }

    /** The statements after the event is recorded. */
    method Settle(c: CallId, n: NodeId, automatic: bool, x: Inputs) returns (ok: bool, ghost steps: Steps)
      requires c in db.calls && db.calls[c] == SuspendingNode(n, x.e, automatic)
      modifies this`db
      ensures IsCallRun(threshold, c, steps) && steps[0] == old(db) && Last(steps) == db
      ensures db.calls == old(db).calls[c := Done] && db.events == old(db).events && db.closed == old(db).closed
      ensures ok <==> x.dbOk(2) && x.dbOk(3) && x.dbOk(4)
      ensures db.nodes == if x.dbOk(2) then SetNode(old(db).nodes, n, Registry.Suspended) else old(db).nodes
      ensures db.stakes == if x.dbOk(2) && x.dbOk(3) then SetStake(old(db).stakes, n, StakeSweep.ForceClosed) else old(db).stakes
      ensures db.signals == if ok then LinkAll(old(db).signals, n, x.e) else old(db).signals
    {
      hide IsCallRun, Last, Filter, Unlinked, LinkAll, SetNode, SetStake;
      var e := x.e;
      ok := false;
      steps := [db];
      StartRun(threshold, c, db);
      if !x.dbOk(2) {
        db := With(db, c, Done);
        steps := Then(threshold, c, steps, db);
        return;
      }
      db := With(db.(nodes := SetNode(db.nodes, n, Registry.Suspended)), c, ForceClosing(n, e, automatic));
      steps := Then(threshold, c, steps, db);
      if !x.dbOk(3) {
        db := With(db, c, Done);
        steps := Then(threshold, c, steps, db);
        assert db.calls == old(db).calls[c := Done];
        return;
      }
      db := With(db.(stakes := SetStake(db.stakes, n, StakeSweep.ForceClosed)), c, Linking(n, e, automatic));
      steps := Then(threshold, c, steps, db);
      if !x.dbOk(4) {
        db := With(db, c, Done);
        steps := Then(threshold, c, steps, db);
        assert db.calls == old(db).calls[c := Done];
        return;
      }
      db := With(db.(signals := LinkAll(db.signals, n, e), finished := db.finished + if automatic then {e} else {}), c, Done);
      steps := Then(threshold, c, steps, db);
      assert db.calls == old(db).calls[c := Done];
      ok := true;
    }

    /** Records a signal, and slashes a t1 node whose open signals have reached the threshold. `seesRow` says
        whether the count includes the row just inserted. */
    method RecordMisbehaviorSignal(c: CallId, n: NodeId, t1: bool, seesRow: bool, insertOk: bool, x: Inputs)
        returns (ok: bool, ghost steps: Steps)
      requires c in db.calls && db.calls[c] == Recording(n, t1) && x.e !in db.events
      modifies this`db
      ensures IsCallRun(threshold, c, steps) && steps[0] == old(db) && Last(steps) == db
      ensures db.calls == old(db).calls[c := Done]
      ensures !insertOk ==> !ok && db == With(old(db), c, Done)
      ensures insertOk ==>
        (var recorded := old(db).(signals := old(db).signals + [Signal(n, None)]);
         var due := t1 && |Filter(if seesRow then recorded.signals else old(db).signals, Unlinked(n))| >= threshold;
         && (ok <==> due ==> Reached(recorded, n, x) == 5)
         && SlashedRows(recorded, db, n, x.e, true, if due then Reached(recorded, n, x) else 0))
    {
      hide NodesSuspended, StakesClosed, SignalsLinked;
      StatementsMean(db.nodes, db.stakes, db.signals + [Signal(n, None)], n, x.e);
      hide IsCallRun, Last, Filter, Unlinked, LinkAll, SetNode, SetStake;
      steps := [db];
      StartRun(threshold, c, db);
      if !insertOk {
        ok := false;
        db := With(db, c, Done);
        steps := Then(threshold, c, steps, db);
        return;
      }
      var signals := db.signals + [Signal(n, None)];
      var count := |Filter(if seesRow then signals else db.signals, Unlinked(n))|;
      var next := AfterSignal(threshold, n, t1, count);
      db := With(db.(signals := signals), c, next);
      steps := Then(threshold, c, steps, db);
      if !(t1 && count >= threshold) {
        return true, steps;
      }
      ghost var before := db;
      ghost var more: Steps;
      ok, more := Slash(c, n, true, x);
      steps := Chain(threshold, c, steps, more);
      assert before.calls[c := Done] == old(db).calls[c := Done];
    }
  }
}
