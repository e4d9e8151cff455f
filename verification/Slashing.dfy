/**
 Stake rows, misbehaviour signals and slashing (internal/stake/verifier.go). No operation runs in a
 transaction, so every statement is one step, any call may take the next one, and a call may stop
 after any of them: every prefix of an operation is a reachable state.
 */
module Slashing {
  import opened Options
  import opened Sums
  import Registry
  import StakeSweep

  type NodeId = Registry.NodeId
  type EventId = nat
  type CallId = nat

  datatype Signal = Signal(node: NodeId, event: Option<EventId>)
  datatype SlashEvent = SlashEvent(node: NodeId, channel: string, automatic: bool)

  /** The next statement of a RecordMisbehaviorSignal, Slash or markDegraded call. */
  datatype Pc =
    | Recording(n: NodeId, t1: bool)
    | FetchingChannel(n: NodeId, automatic: bool)
    | ClosingChannel(n: NodeId, channel: string, automatic: bool)
    | InsertingEvent(n: NodeId, channel: string, automatic: bool)
    | SuspendingNode(n: NodeId, e: EventId, automatic: bool)
    | ForceClosing(n: NodeId, e: EventId, automatic: bool)
    | Linking(n: NodeId, e: EventId, automatic: bool)
    | DegradingNode(n: NodeId)
    | DegradingStake(n: NodeId)
    | Done

  /** `closed` records the force-closes that succeeded and `finished` the automatic events whose Slash
      ran to its end; the program keeps neither. */
  datatype State = State(
    nodes: map<NodeId, Registry.Status>,
    stakes: StakeSweep.Stakes,
    signals: seq<Signal>,
    events: map<EventId, SlashEvent>,
    closed: set<string>,
    finished: set<EventId>,
    calls: map<CallId, Pc>)

  // ------------------------------------------------ statements

  function Unlinked(n: NodeId): Signal -> bool {
    (x: Signal) => x.node == n && x.event.None?
  }

  function LinkedTo(e: EventId): Signal -> bool {
    (x: Signal) => x.event == Some(e)
  }

  function Link(x: Signal, n: NodeId, e: EventId): Signal {
    if x.node == n && x.event.None? then x.(event := Some(e)) else x
  }

  /** UPDATE misbehavior_signals ... WHERE node_id = n AND slashing_event IS NULL. */
  function LinkAll(signals: seq<Signal>, n: NodeId, e: EventId): (r: seq<Signal>)
    ensures |r| == |signals|
    ensures forall i :: 0 <= i < |signals| ==> r[i] == Link(signals[i], n, e)
  {
    seq(|signals|, i requires 0 <= i < |signals| => Link(signals[i], n, e))
  }

  function SetNode(nodes: map<NodeId, Registry.Status>, n: NodeId, status: Registry.Status): map<NodeId, Registry.Status> {
    if n in nodes then nodes[n := status] else nodes
  }

  function SetStake(stakes: StakeSweep.Stakes, n: NodeId, status: StakeSweep.StakeStatus): StakeSweep.Stakes {
    if n in stakes then stakes[n := stakes[n].(status := status)] else stakes
  }

  /** UPDATE node_stakes SET stake_status = 'degraded', degraded_since = now() WHERE degraded_since IS NULL. */
  function DegradeStake(stakes: StakeSweep.Stakes, n: NodeId, now: int): StakeSweep.Stakes {
    if n in stakes then stakes[n := StakeSweep.DegradedRow(stakes[n], now)] else stakes
  }

  ghost predicate Continues(s: State, c: CallId, pc: Pc, s': State) {
    s' == s.(calls := s.calls[c := pc])
  }

  /** A t1 node is slashed once the count of its unlinked signals reaches the threshold. */
  function AfterSignal(threshold: int, n: NodeId, t1: bool, count: int): Pc {
    if t1 && count >= threshold then FetchingChannel(n, true) else Done
  }

  /** One statement of call c; `threshold` is the number of signals that slashes a t1 node. */
  ghost predicate CallStep(threshold: int, s: State, c: CallId, s': State)
    requires c in s.calls
  {
    match s.calls[c]
    case Recording(n, t1) =>
      // The count returned with the inserted row may or may not include it.
      var signals := s.signals + [Signal(n, None)];
      || Continues(s.(signals := signals), c, AfterSignal(threshold, n, t1, |Filter(s.signals, Unlinked(n))|), s')
      || Continues(s.(signals := signals), c, AfterSignal(threshold, n, t1, |Filter(signals, Unlinked(n))|), s')
    case FetchingChannel(n, automatic) =>
      n in s.stakes && Continues(s, c, ClosingChannel(n, s.stakes[n].channel, automatic), s')
    case ClosingChannel(n, channel, automatic) =>
      Continues(s.(closed := s.closed + {channel}), c, InsertingEvent(n, channel, automatic), s')
    case InsertingEvent(n, channel, automatic) =>
      exists e :: e !in s.events
        && Continues(s.(events := s.events[e := SlashEvent(n, channel, automatic)]), c, SuspendingNode(n, e, automatic), s')
    case SuspendingNode(n, e, automatic) =>
      Continues(s.(nodes := SetNode(s.nodes, n, Registry.Suspended)), c, ForceClosing(n, e, automatic), s')
    case ForceClosing(n, e, automatic) =>
      Continues(s.(stakes := SetStake(s.stakes, n, StakeSweep.ForceClosed)), c, Linking(n, e, automatic), s')
    case Linking(n, e, automatic) =>
      Continues(s.(signals := LinkAll(s.signals, n, e), finished := s.finished + if automatic then {e} else {}), c, Done, s')
    case DegradingNode(n) =>
      var nodes := if n in s.nodes && s.nodes[n] == Registry.Active then s.nodes[n := Registry.Degraded] else s.nodes;
      Continues(s.(nodes := nodes), c, DegradingStake(n), s')
    case DegradingStake(n) =>
      exists now :: Continues(s.(stakes := DegradeStake(s.stakes, n, now)), c, Done, s')
    case Done => false
  }

  /** The rows after marking a stake degraded: stamped now, unless it was stamped before. */
  lemma DegradeStakeIs(stakes: StakeSweep.Stakes, n: NodeId, now: int)
    ensures DegradeStake(stakes, n, now).Keys == stakes.Keys
    ensures forall m :: m in stakes && (m != n || stakes[m].degradedSince != None) ==> DegradeStake(stakes, n, now)[m] == stakes[m]
    ensures n in stakes && stakes[n].degradedSince == None ==>
      DegradeStake(stakes, n, now)[n] == stakes[n].(status := StakeSweep.Degraded, degradedSince := Some(now))
  {
  }

  /** Marking a node degraded, statement by statement: first an active node becomes degraded, then a stake not yet
      stamped is degraded from then on, and nothing else changes. */
  lemma DegradingIs(threshold: int, s: State, c: CallId, s': State)
    requires c in s.calls && CallStep(threshold, s, c, s')
    ensures s.calls[c].DegradingNode? ==>
      var n := s.calls[c].n;
      s'.calls[c] == DegradingStake(n) && s'.stakes == s.stakes && s'.signals == s.signals && s'.events == s.events
      && s'.nodes == if n in s.nodes && s.nodes[n] == Registry.Active then s.nodes[n := Registry.Degraded] else s.nodes
    ensures s.calls[c].DegradingStake? ==>
      var n := s.calls[c].n;
      s'.calls[c] == Done && s'.nodes == s.nodes && s'.signals == s.signals && s'.events == s.events
      && (n in s.stakes && s.stakes[n].degradedSince == None ==>
            exists now :: s'.stakes == s.stakes[n := s.stakes[n].(status := StakeSweep.Degraded, degradedSince := Some(now))])
      && (n !in s.stakes || s.stakes[n].degradedSince != None ==> s'.stakes == s.stakes)
  {
    hide DegradeStake;
    if s.calls[c].DegradingStake? {
      var n := s.calls[c].n;
      var now :| Continues(s.(stakes := DegradeStake(s.stakes, n, now)), c, Done, s');
      DegradeStakeIs(s.stakes, n, now);
      var out := DegradeStake(s.stakes, n, now);
      if n in s.stakes && s.stakes[n].degradedSince == None {
        assert out == s.stakes[n := s.stakes[n].(status := StakeSweep.Degraded, degradedSince := Some(now))];
      } else {
        assert out == s.stakes;
      }
    }
  }

  datatype Action =
    | Start(c: CallId, pc: Pc)
    | Advance(c: CallId)
    | Stop(c: CallId)
    | Persist(n: NodeId, row: StakeSweep.Stake)
    | SetStatus(n: NodeId, status: Registry.Status)

  predicate Initial(pc: Pc) {
    pc.Recording? || (pc.FetchingChannel? && !pc.automatic) || pc.DegradingNode?
  }

  ghost predicate Does(threshold: int, s: State, a: Action, s': State) {
    match a
    case Start(c, pc) => c !in s.calls && Initial(pc) && s' == s.(calls := s.calls[c := pc])
    case Advance(c) => c in s.calls && CallStep(threshold, s, c, s')
    case Stop(c) => c in s.calls && Continues(s, c, Done, s')
    case Persist(n, row) =>
      // the upsert of PersistStake, whatever it stores: active, with degraded_since unset
      row.status == StakeSweep.Active && row.degradedSince.None? && s' == s.(stakes := s.stakes[n := row])
    case SetStatus(n, status) => s' == s.(nodes := s.nodes[n := status])
  }

  ghost predicate Init(s: State) {
    s == State(map[], map[], [], map[], {}, {}, map[])
  }

  ghost predicate IsRun(threshold: int, run: seq<State>, acts: seq<Action>) {
    && |run| == |acts| + 1 && Init(run[0])
    && forall i :: 0 <= i < |acts| ==> Does(threshold, run[i], acts[i], run[i + 1])
  }

  // ------------------------------------------------ evidence

  ghost predicate HasEvent(s: State, n: NodeId) {
    exists e :: e in s.events && s.events[e].node == n
  }

  ghost predicate PcInv(s: State, pc: Pc) {
    match pc
    case InsertingEvent(_, channel, _) => channel in s.closed
    case SuspendingNode(n, e, automatic) => e in s.events && s.events[e].node == n && s.events[e].automatic == automatic
    case ForceClosing(n, e, automatic) => e in s.events && s.events[e].node == n && s.events[e].automatic == automatic
    case Linking(n, e, automatic) => e in s.events && s.events[e].node == n && s.events[e].automatic == automatic
    case _ => true
  }

  ghost predicate Evidence(s: State) {
    && (forall n :: n in s.stakes && s.stakes[n].status == StakeSweep.ForceClosed ==> HasEvent(s, n))
    && (forall i :: 0 <= i < |s.signals| && s.signals[i].event.Some? ==>
          s.signals[i].event.value in s.events && s.events[s.signals[i].event.value].node == s.signals[i].node)
    && (forall e :: e in s.events ==> s.events[e].channel in s.closed)
    && (forall e :: e in s.finished ==> e in s.events && s.events[e].automatic)
  }

  /** Degraded stakes say since when, active ones do not. */
  ghost predicate StakesInv(s: State) {
    forall n :: n in s.stakes ==>
      && (s.stakes[n].status == StakeSweep.Degraded ==> s.stakes[n].degradedSince.Some?)
      && (s.stakes[n].status == StakeSweep.Active ==> s.stakes[n].degradedSince.None?)
  }

  ghost predicate Inv(s: State) {
    Evidence(s) && StakesInv(s) && forall c :: c in s.calls ==> PcInv(s, s.calls[c])
  }

  /** Events and successful closes are never lost. */
  lemma EventsStay(threshold: int, s: State, a: Action, s': State)
    requires Does(threshold, s, a, s')
    ensures s.closed <= s'.closed && forall e :: e in s.events ==> e in s'.events && s'.events[e] == s.events[e]
  {
    hide Filter, Unlinked;
  }

  lemma StakesStay(threshold: int, s: State, a: Action, s': State)
    requires StakesInv(s) && Does(threshold, s, a, s')
    ensures StakesInv(s')
  {
    hide Filter, Unlinked;
  }

  lemma StakesEvidence(threshold: int, s: State, a: Action, s': State)
    requires Inv(s) && Does(threshold, s, a, s')
    ensures forall n :: n in s'.stakes && s'.stakes[n].status == StakeSweep.ForceClosed ==> HasEvent(s', n)
  {
    hide Filter, Unlinked;
    EventsStay(threshold, s, a, s');
    forall n | n in s'.stakes && s'.stakes[n].status == StakeSweep.ForceClosed
      ensures HasEvent(s', n)
    {
      if n in s.stakes && s.stakes[n].status == StakeSweep.ForceClosed {
        var e :| e in s.events && s.events[e].node == n;
        assert e in s'.events && s'.events[e].node == n;
      } else {
        assert a.Advance? && s.calls[a.c].ForceClosing?;
        assert s.calls[a.c].e in s'.events;
      }
    }
  }

  lemma SignalsEvidence(threshold: int, s: State, a: Action, s': State)
    requires Inv(s) && Does(threshold, s, a, s')
    ensures forall i :: 0 <= i < |s'.signals| && s'.signals[i].event.Some? ==>
      s'.signals[i].event.value in s'.events && s'.events[s'.signals[i].event.value].node == s'.signals[i].node
  {
    hide Filter, Unlinked, HasEvent;
    EventsStay(threshold, s, a, s');
  }

  lemma EventsEvidence(threshold: int, s: State, a: Action, s': State)
    requires Inv(s) && Does(threshold, s, a, s')
    ensures forall e :: e in s'.finished ==> e in s'.events && s'.events[e].automatic
    ensures forall e :: e in s'.events ==> s'.events[e].channel in s'.closed
  {
    hide Filter, Unlinked, HasEvent;
    EventsStay(threshold, s, a, s');
  }

  lemma PcStays(s: State, s': State, pc: Pc)
    requires PcInv(s, pc) && s.closed <= s'.closed
    requires forall e :: e in s.events ==> e in s'.events && s'.events[e] == s.events[e]
    ensures PcInv(s', pc)
  {
  }

  lemma OwnEvidence(threshold: int, s: State, c: CallId, s': State)
    requires c in s.calls && CallStep(threshold, s, c, s') && PcInv(s, s.calls[c])
    ensures c in s'.calls && PcInv(s', s'.calls[c]) && s'.calls == s.calls[c := s'.calls[c]]
  {
    hide Filter, Unlinked, DegradeStake, SetStake, SetNode, LinkAll;
  }

  lemma CallsEvidence(threshold: int, s: State, a: Action, s': State)
    requires Inv(s) && Does(threshold, s, a, s')
    ensures forall c :: c in s'.calls ==> PcInv(s', s'.calls[c])
  {
    hide CallStep, Evidence, StakesInv;
    EventsStay(threshold, s, a, s');
    if a.Advance? {
      OwnEvidence(threshold, s, a.c, s');
    }
    forall c | c in s'.calls && c in s.calls && s'.calls[c] == s.calls[c]
      ensures PcInv(s', s'.calls[c])
    {
      PcStays(s, s', s.calls[c]);
    }
  }

  lemma {:induction false} RunInv(threshold: int, run: seq<State>, acts: seq<Action>, i: nat)
    requires IsRun(threshold, run, acts) && i < |run|
    ensures Inv(run[i])
    decreases i
  {
    hide Does, PcInv, HasEvent;
    if i > 0 {
      RunInv(threshold, run, acts, i - 1);
      StakesStay(threshold, run[i - 1], acts[i - 1], run[i]);
      StakesEvidence(threshold, run[i - 1], acts[i - 1], run[i]);
      SignalsEvidence(threshold, run[i - 1], acts[i - 1], run[i]);
      EventsEvidence(threshold, run[i - 1], acts[i - 1], run[i]);
      CallsEvidence(threshold, run[i - 1], acts[i - 1], run[i]);
    }
  }

  /** Whatever calls run, interleave and stop half-way: a force-closed stake or a linked signal has a
      slashing event for its node, every event's channel was closed first, and degraded stakes have
      degraded_since set where active ones have it unset. */
  lemma SlashLeavesEvidence(threshold: int, run: seq<State>, acts: seq<Action>, i: nat)
    requires IsRun(threshold, run, acts) && i < |run|
    ensures Evidence(run[i]) && StakesInv(run[i])
  {
    RunInv(threshold, run, acts, i);
  }

  lemma LinksStay(threshold: int, s: State, a: Action, s': State)
    requires Does(threshold, s, a, s')
    ensures |s.signals| <= |s'.signals|
    ensures forall i :: 0 <= i < |s.signals| ==>
      s'.signals[i].node == s.signals[i].node && (s.signals[i].event.Some? ==> s'.signals[i] == s.signals[i])
  {
    hide Filter, Unlinked;
  }

  /** No signal is lost, and a signal once linked to an event stays linked to it. */
  lemma {:induction false} LinksNeverChange(threshold: int, run: seq<State>, acts: seq<Action>, i: nat, j: nat)
    requires IsRun(threshold, run, acts) && i <= j < |run|
    ensures |run[i].signals| <= |run[j].signals|
    ensures forall k :: 0 <= k < |run[i].signals| ==>
      run[j].signals[k].node == run[i].signals[k].node
      && (run[i].signals[k].event.Some? ==> run[j].signals[k] == run[i].signals[k])
    decreases j
  {
    hide Does;
    if i < j {
      LinksNeverChange(threshold, run, acts, i, j - 1);
      LinksStay(threshold, run[j - 1], acts[j - 1], run[j]);
    }
  }

  // ------------------------------------------------ accounting, one call at a time

  /** A call starts only when every other has returned. */
  ghost predicate OneAtATime(run: seq<State>, acts: seq<Action>)
    requires |run| == |acts| + 1
  {
    forall i :: 0 <= i < |acts| && acts[i].Start? ==> forall c :: c in run[i].calls ==> run[i].calls[c] == Done
  }

  /** A call on its way through an automatic slash. */
  predicate Automatic(pc: Pc) {
    match pc
    case FetchingChannel(_, automatic) => automatic
    case ClosingChannel(_, _, automatic) => automatic
    case InsertingEvent(_, _, automatic) => automatic
    case SuspendingNode(_, _, automatic) => automatic
    case ForceClosing(_, _, automatic) => automatic
    case Linking(_, _, automatic) => automatic
    case _ => false
  }

  function Target(pc: Pc): NodeId {
    match pc
    case FetchingChannel(n, _) => n
    case ClosingChannel(n, _, _) => n
    case InsertingEvent(n, _, _) => n
    case SuspendingNode(n, _, _) => n
    case ForceClosing(n, _, _) => n
    case Linking(n, _, _) => n
    case _ => 0
  }

  ghost predicate SoloInv(threshold: int, s: State) {
    && (forall c, d :: c in s.calls && d in s.calls && s.calls[c] != Done && s.calls[d] != Done ==> c == d)
    && (forall c :: c in s.calls && Automatic(s.calls[c]) ==> |Filter(s.signals, Unlinked(Target(s.calls[c])))| >= threshold)
    && (forall e :: e in s.finished ==> |Filter(s.signals, LinkedTo(e))| >= threshold)
  }

  lemma {:induction false} LinkAllCounts(signals: seq<Signal>, n: NodeId, e: EventId, f: EventId)
    ensures |Filter(LinkAll(signals, n, e), LinkedTo(e))| >= |Filter(signals, Unlinked(n))|
    ensures |Filter(LinkAll(signals, n, e), LinkedTo(f))| >= |Filter(signals, LinkedTo(f))|
    decreases |signals|
  {
    if signals != [] {
      var m := |signals| - 1;
      LinkAllCounts(signals[..m], n, e, f);
      assert LinkAll(signals, n, e)[..m] == LinkAll(signals[..m], n, e);
    }
  }

  lemma AppendKeepsCounts(signals: seq<Signal>, x: Signal, p: Signal -> bool)
    ensures |Filter(signals + [x], p)| >= |Filter(signals, p)|
  {
    FilterAppend(signals, x, p);
  }

  lemma SoloRecording(threshold: int, s: State, c: CallId, s': State)
    requires c in s.calls && s.calls[c].Recording? && CallStep(threshold, s, c, s') && SoloInv(threshold, s)
    ensures SoloInv(threshold, s')
  {
    hide Filter, Unlinked, LinkedTo;
    var n, x := s.calls[c].n, Signal(s.calls[c].n, None);
    AppendKeepsCounts(s.signals, x, Unlinked(n));
    forall e | e in s.finished
      ensures |Filter(s'.signals, LinkedTo(e))| >= threshold
    {
      AppendKeepsCounts(s.signals, x, LinkedTo(e));
    }
  }

  lemma SoloLinking(threshold: int, s: State, c: CallId, s': State)
    requires c in s.calls && s.calls[c].Linking? && CallStep(threshold, s, c, s') && SoloInv(threshold, s)
    ensures SoloInv(threshold, s')
  {
    hide Filter, Unlinked, LinkedTo;
    var pc := s.calls[c];
    forall e | e in s'.finished
      ensures |Filter(s'.signals, LinkedTo(e))| >= threshold
    {
      LinkAllCounts(s.signals, pc.n, pc.e, e);
    }
  }

  /** Other statements leave signals alone and only continue the call that issued them. */
  lemma PlainCall(threshold: int, s: State, c: CallId, s': State)
    requires c in s.calls && CallStep(threshold, s, c, s') && !s.calls[c].Recording? && !s.calls[c].Linking?
    ensures s'.signals == s.signals && s'.finished == s.finished
    ensures c in s'.calls && s'.calls == s.calls[c := s'.calls[c]] && s.calls[c] != Done
    ensures Automatic(s'.calls[c]) ==> Automatic(s.calls[c]) && Target(s'.calls[c]) == Target(s.calls[c])
  {
    hide Filter, Unlinked, DegradeStake, SetStake, SetNode, LinkAll;
  }

  lemma SoloStep(threshold: int, s: State, a: Action, s': State)
    requires Does(threshold, s, a, s') && SoloInv(threshold, s)
    requires a.Start? ==> forall c :: c in s.calls ==> s.calls[c] == Done
    ensures SoloInv(threshold, s')
  {
    hide Filter, Unlinked, LinkedTo, CallStep;
    if a.Advance? && s.calls[a.c].Recording? {
      SoloRecording(threshold, s, a.c, s');
    } else if a.Advance? && s.calls[a.c].Linking? {
      SoloLinking(threshold, s, a.c, s');
    } else if a.Advance? {
      PlainCall(threshold, s, a.c, s');
    }
  }

  lemma {:induction false} SoloRun(threshold: int, run: seq<State>, acts: seq<Action>, i: nat)
    requires IsRun(threshold, run, acts) && OneAtATime(run, acts) && i < |run|
    ensures SoloInv(threshold, run[i])
    decreases i
  {
    hide Does, Filter;
    if i > 0 {
      SoloRun(threshold, run, acts, i - 1);
      SoloStep(threshold, run[i - 1], acts[i - 1], run[i]);
    }
  }

  function LinkedIn(F: set<EventId>): Signal -> bool {
    (x: Signal) => x.event.Some? && x.event.value in F
  }

  lemma {:induction false} LinkedInSplit(signals: seq<Signal>, F: set<EventId>, e: EventId)
    requires e in F
    ensures |Filter(signals, LinkedIn(F))| == |Filter(signals, LinkedIn(F - {e}))| + |Filter(signals, LinkedTo(e))|
    decreases |signals|
  {
    if signals != [] {
      LinkedInSplit(signals[..|signals| - 1], F, e);
    }
  }

  lemma {:induction false} EventsBySignals(threshold: int, signals: seq<Signal>, F: set<EventId>)
    requires forall e :: e in F ==> |Filter(signals, LinkedTo(e))| >= threshold
    ensures |F| * threshold <= |Filter(signals, LinkedIn(F))|
    decreases F
  {
    hide Filter, LinkedIn, LinkedTo;
    if F != {} {
      var e :| e in F;
      EventsBySignals(threshold, signals, F - {e});
      LinkedInSplit(signals, F, e);
      assert |F| == |F - {e}| + 1;
      assert |F| * threshold == |F - {e}| * threshold + threshold;
    }
  }

  /** The automatic slashes of node n that ran to their end. */
  ghost function FinishedOn(s: State, n: NodeId): set<EventId> {
    set e | e in s.finished && e in s.events && s.events[e].node == n
  }

  ghost function AutomaticEvents(s: State): set<EventId> {
    set e | e in s.events && s.events[e].automatic
  }

  function Against(n: NodeId): Signal -> bool {
    (x: Signal) => x.node == n
  }

  /** One call at a time: for every node, the automatic slashes that ran to their end, times the threshold, never
      exceed the signals recorded against that node, whether or not the count sees the row just inserted. */
  lemma SlashesAreEarned(threshold: int, run: seq<State>, acts: seq<Action>, i: nat, n: NodeId)
    requires IsRun(threshold, run, acts) && OneAtATime(run, acts) && i < |run|
    ensures |FinishedOn(run[i], n)| * threshold <= |Filter(run[i].signals, Against(n))|
  {
    hide Filter, Does;
    RunInv(threshold, run, acts, i);
    SoloRun(threshold, run, acts, i);
    var s := run[i];
    var F := FinishedOn(s, n);
    EventsBySignals(threshold, s.signals, F);
    forall x | x in s.signals && LinkedIn(F)(x)
      ensures Against(n)(x)
    {
      var j :| 0 <= j < |s.signals| && s.signals[j] == x;
    }
    FilterMonotone(s.signals, LinkedIn(F), Against(n));
  }

  /** The same over all nodes; so when every automatic slash ran to its end, all automatic events are accounted
      for. */
  lemma AllSlashesAreEarned(threshold: int, run: seq<State>, acts: seq<Action>, i: nat)
    requires IsRun(threshold, run, acts) && OneAtATime(run, acts) && i < |run|
    ensures |run[i].finished| * threshold <= |run[i].signals|
    ensures AutomaticEvents(run[i]) <= run[i].finished ==> |AutomaticEvents(run[i])| * threshold <= |run[i].signals|
  {
    hide Filter, Does;
    SoloRun(threshold, run, acts, i);
    var s := run[i];
    EventsBySignals(threshold, s.signals, s.finished);
    FilterShorter(s.signals, LinkedIn(s.finished));
    if AutomaticEvents(s) <= s.finished {
      EventsBySignals(threshold, s.signals, AutomaticEvents(s));
      FilterShorter(s.signals, LinkedIn(AutomaticEvents(s)));
    }
  }
}
