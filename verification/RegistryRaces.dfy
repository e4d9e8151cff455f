/**
 The registry's operations step by step (internal/registry/registry.go), any number of calls at a time,
 beside the stake verifier's updates that bypass the gauge (internal/stake/verifier.go). A call changes the
 nodes table first and the gauge afterwards. What it moves the gauge away from, it read before: UpdateStatus
 in a statement of its own, and Register in the snapshot its upsert starts from, while the upsert acts on
 the latest row. Another call can come between.
 */
module RegistryRaces {
  import opened Options
  import opened Sums
  import opened Registry

  type CallId = nat

  datatype Label = Label(tier: Tier, status: Status)

  /** The next step of a Register, Activate or UpdateStatus call. */
  datatype Call =
    | Preparing(key: string, tier: Tier, newId: NodeId)
    | Upserting(key: string, tier: Tier, newId: NodeId, prior: Option<Label>)
    | Activating(n: NodeId)
    | Reading(n: NodeId, status: Status)
    | Updating(n: NodeId, status: Status, prior: Option<Label>)
    | Moving(from: Label, to: Label)
    | Adding(to: Label)
    | Done

  type Calls = map<CallId, Call>

  datatype State = State(nodes: Nodes, gauge: Gauge, calls: Calls)

  function LabelOf(x: Node): Label {
    Label(x.tier, x.status)
  }

  function BumpLabel(g: Gauge, l: Label, delta: int): Gauge {
    Bump(g, l.tier, l.status, delta)
  }

  /** The label of the node registered under a key, if any. */
  ghost function Holder(nodes: Nodes, key: string): Option<Label> {
    if exists n :: Owns(nodes, n, key) then
      var n :| Owns(nodes, n, key);
      Some(LabelOf(nodes[n]))
    else None
  }

  lemma HolderIs(nodes: Nodes, n: NodeId, key: string)
    requires UniqueKeys(nodes) && Owns(nodes, n, key)
    ensures Holder(nodes, key) == Some(LabelOf(nodes[n]))
  {
  }

  ghost predicate Continues(s: State, c: CallId, nodes: Nodes, gauge: Gauge, call: Call, s': State) {
    s' == State(nodes, gauge, s.calls[c := call])
  }

  predicate IsStatement(call: Call) {
    call.Preparing? || call.Upserting? || call.Activating? || call.Updating?
  }

  /** One step of call c. A statement that fails ends its call and changes nothing. */
  ghost predicate CallStep(s: State, c: CallId, s': State)
    requires c in s.calls
  {
    var call := s.calls[c];
    || (IsStatement(call) && Continues(s, c, s.nodes, s.gauge, Done, s'))
    || match call
       case Preparing(key, tier, newId) =>
         Continues(s, c, s.nodes, s.gauge, Upserting(key, tier, newId, Holder(s.nodes, key)), s')
       case Upserting(key, tier, newId, prior) =>
         var x := Node(key, tier, Pending);
         tier != UnlistedTier
         && exists n :: (IsTarget(s.nodes, key, newId, n)
                         && Continues(s, c, s.nodes[n := x], s.gauge, AfterWrite(prior, LabelOf(x)), s'))
       case Activating(n) =>
         n in s.nodes && s.nodes[n].status == Pending
         && Continues(s, c, s.nodes[n := s.nodes[n].(status := Active)], s.gauge,
                      Moving(LabelOf(s.nodes[n]), Label(s.nodes[n].tier, Active)), s')
       case Reading(n, status) =>
         || Continues(s, c, s.nodes, s.gauge, Updating(n, status, None), s')
         || (n in s.nodes && Continues(s, c, s.nodes, s.gauge, Updating(n, status, Some(LabelOf(s.nodes[n]))), s'))
       case Updating(n, status, prior) =>
         status != UnlistedStatus
         && Continues(s, c, SetStatus(s.nodes, n, status), s.gauge, AfterUpdate(status, prior), s')
       case Moving(from, to) => Continues(s, c, s.nodes, BumpLabel(s.gauge, from, -1), Adding(to), s')
       case Adding(to) => Continues(s, c, s.nodes, BumpLabel(s.gauge, to, 1), Done, s')
       case Done => false
  }

  /** The row an upsert writes: the one with its key, or a new one. */
  ghost predicate IsTarget(nodes: Nodes, key: string, newId: NodeId, n: NodeId) {
    Owns(nodes, n, key) || ((forall m :: !Owns(nodes, m, key)) && n == newId && newId !in nodes)
  }

  function AfterWrite(prior: Option<Label>, to: Label): Call {
    match prior
    case None => Adding(to)
    case Some(l) => Moving(l, to)
  }

  /** The gauge moves from the label that was read to the same tier with the new status. */
  function AfterUpdate(status: Status, prior: Option<Label>): Call {
    match prior
    case None => Done
    case Some(l) => Moving(l, Label(l.tier, status))
  }

  datatype Action =
    | Start(c: CallId, call: Call)
    | Advance(c: CallId)
    | Bypass(n: NodeId, status: Status)        // a degradation or a slash

  predicate Initial(call: Call) {
    call.Preparing? || call.Activating? || call.Reading?
  }

  ghost predicate Does(s: State, a: Action, s': State) {
    match a
    case Start(c, call) => c !in s.calls && Initial(call) && s' == s.(calls := s.calls[c := call])
    case Advance(c) => c in s.calls && CallStep(s, c, s')
    case Bypass(n, status) => status != UnlistedStatus && s' == s.(nodes := SetStatus(s.nodes, n, status))
  }

  ghost predicate IsRun(run: seq<State>, acts: seq<Action>) {
    |run| == |acts| + 1 && run[0].calls == map[] && Listed(run[0].nodes)
    && forall i :: 0 <= i < |acts| ==> Does(run[i], acts[i], run[i + 1])
  }

  // ------------------------------------------------ what the gauge owes

  /** A cell of the gauge, or all the cells of a tier. */
  datatype Class = OfCell(t: Tier, s: Status) | OfTier(t: Tier)

  predicate In(k: Class, l: Label) {
    l.tier == k.t && (k.OfCell? ==> l.status == k.s)
  }

  function Has(k: Class, l: Option<Label>): int {
    Indicator(l.Some? && In(k, l.value))
  }

  function InClass(k: Class): Node -> bool {
    (x: Node) => In(k, LabelOf(x))
  }

  function Level(g: Gauge, k: Class): int {
    match k
    case OfCell(t, s) => Cell(g, t, s)
    case OfTier(t) => TierSum(g, t)
  }

  /** The change a call has yet to make to a class. */
  function Debt(call: Call, k: Class): int {
    match call
    case Moving(from, to) => Has(k, Some(to)) - Has(k, Some(from))
    case Adding(to) => Has(k, Some(to))
    case _ => 0
  }

  function DebtOf(calls: Calls, k: Class): CallId -> real {
    c => if c in calls then Debt(calls[c], k) as real else 0.0
  }

  ghost function Owed(calls: Calls, k: Class): real {
    SumOver(calls.Keys, DebtOf(calls, k))
  }

  /** By how much the gauge, once every call under way has made its changes, overcounts a class. */
  ghost function Drift(s: State, k: Class): real {
    Level(s.gauge, k) as real + Owed(s.calls, k) - CountOf(s.nodes, InClass(k)) as real
  }

  ghost predicate CallListed(nodes: Nodes, call: Call) {
    match call
    case Upserting(_, _, _, prior) => prior.Some? ==> prior.value.status != UnlistedStatus
    case Updating(n, _, prior) => prior.Some? ==> n in nodes && prior.value.status != UnlistedStatus
    case Moving(from, to) => from.status != UnlistedStatus && to.status != UnlistedStatus
    case Adding(to) => to.status != UnlistedStatus
    case _ => true
  }

  ghost predicate Wf(s: State) {
    Listed(s.nodes) && forall c :: c in s.calls ==> CallListed(s.nodes, s.calls[c])
  }

  lemma OwedChanged(calls: Calls, c: CallId, call: Call, k: Class)
    ensures Owed(calls[c := call], k)
      == Owed(calls, k) - (if c in calls then Debt(calls[c], k) as real else 0.0) + Debt(call, k) as real
  {
    hide Debt;
    var calls' := calls[c := call];
    if c in calls {
      assert calls'.Keys == calls.Keys;
      SumOverUpdate(calls.Keys, DebtOf(calls, k), DebtOf(calls', k), c);
    } else {
      assert calls'.Keys == calls.Keys + {c};
      SumOverAdd(calls.Keys, DebtOf(calls', k), c);
      SumOverEqual(calls.Keys, DebtOf(calls, k), DebtOf(calls', k));
    }
  }

  lemma LevelBumped(g: Gauge, l: Label, delta: int, k: Class)
    requires l.status != UnlistedStatus
    ensures Level(BumpLabel(g, l, delta), k) == Level(g, k) + delta * Has(k, Some(l))
  {
    TierSumBumped(g, l.tier, l.status, delta);
  }

  function LabelAt(nodes: Nodes, n: NodeId): Option<Label> {
    if n in nodes then Some(LabelOf(nodes[n])) else None
  }

  /** A step of call c that replaces node n by x shifts a class by what the call now owes less what the class
      gained. */
  lemma ReplacedDrift(s: State, c: CallId, n: NodeId, x: Node, call: Call, k: Class)
    requires c in s.calls && Debt(s.calls[c], k) == 0
    ensures Drift(State(s.nodes[n := x], s.gauge, s.calls[c := call]), k)
      == Drift(s, k) + (Debt(call, k) - Has(k, Some(LabelOf(x))) + Has(k, LabelAt(s.nodes, n))) as real
  {
    hide Level, Owed, CountOf, Debt;
    OwedChanged(s.calls, c, call, k);
    CountReplaced(s.nodes, n, x, InClass(k));
  }

  lemma QuietStep(s: State, c: CallId, call: Call, k: Class)
    requires (c in s.calls ==> Debt(s.calls[c], k) == 0) && Debt(call, k) == 0
    ensures Drift(s.(calls := s.calls[c := call]), k) == Drift(s, k)
  {
    hide Level, Owed, CountOf, Debt;
    OwedChanged(s.calls, c, call, k);
  }

  lemma GaugeStep(s: State, c: CallId, s': State, k: Class)
    requires Wf(s) && c in s.calls && CallStep(s, c, s') && (s.calls[c].Moving? || s.calls[c].Adding?)
    ensures Drift(s', k) == Drift(s, k)
  {
    hide Level, Owed, CountOf, InClass, Has, BumpLabel;
    var call := s.calls[c];
    OwedChanged(s.calls, c, if call.Moving? then Adding(call.to) else Done, k);
    if call.Moving? {
      LevelBumped(s.gauge, call.from, -1, k);
    } else {
      LevelBumped(s.gauge, call.to, 1, k);
    }
  }

  // ------------------------------------------------ status updates

  /** The label a status update acts on: the one it read, when the row still carries it or when the update
      and whatever came between wrote the same status the read had returned. */
  predicate Fresh(prior: Option<Label>, actual: Label, status: Status) {
    || prior == Some(actual)
    || (actual.status == status && (prior.Some? ==> prior.value.status == status))
  }

  ghost function AfterUpdating(s: State, c: CallId): State
    requires c in s.calls && s.calls[c].Updating?
  {
    var call := s.calls[c];
    State(SetStatus(s.nodes, call.n, call.status), s.gauge, s.calls[c := AfterUpdate(call.status, call.prior)])
  }

  /** How a status update shifts a class. */
  lemma UpdateDrift(s: State, c: CallId, k: Class)
    requires c in s.calls && s.calls[c].Updating? && s.calls[c].n in s.nodes
    ensures var call := s.calls[c];
      var actual := LabelOf(s.nodes[call.n]);
      Drift(AfterUpdating(s, c), k) == Drift(s, k)
        + (Debt(AfterUpdate(call.status, call.prior), k) - Has(k, Some(Label(actual.tier, call.status))) + Has(k, Some(actual))) as real
  {
    hide Drift;
    var call := s.calls[c];
    ReplacedDrift(s, c, call.n, s.nodes[call.n].(status := call.status), AfterUpdate(call.status, call.prior), k);
  }

  /** A status update shifts no cell exactly when its read was fresh. */
  lemma UpdateKeepsCellsIffFresh(s: State, c: CallId)
    requires c in s.calls && s.calls[c].Updating? && s.calls[c].n in s.nodes
    ensures (forall t, u :: Drift(AfterUpdating(s, c), OfCell(t, u)) == Drift(s, OfCell(t, u)))
      <==> Fresh(s.calls[c].prior, LabelOf(s.nodes[s.calls[c].n]), s.calls[c].status)
  {
    hide Drift, AfterUpdating, AfterUpdate, Debt, Has;
    var call := s.calls[c];
    var actual := LabelOf(s.nodes[call.n]);
    forall t, u
      ensures Drift(AfterUpdating(s, c), OfCell(t, u)) == Drift(s, OfCell(t, u))
        <==> Debt(AfterUpdate(call.status, call.prior), OfCell(t, u))
               == Has(OfCell(t, u), Some(Label(actual.tier, call.status))) - Has(OfCell(t, u), Some(actual))
    {
      UpdateDrift(s, c, OfCell(t, u));
    }
    FreshMoves(call.prior, actual, call.status);
  }

  lemma FreshMoves(prior: Option<Label>, actual: Label, status: Status)
    ensures Fresh(prior, actual, status) <==>
      forall t, u :: Debt(AfterUpdate(status, prior), OfCell(t, u))
        == Has(OfCell(t, u), Some(Label(actual.tier, status))) - Has(OfCell(t, u), Some(actual))
  {
    var d := AfterUpdate(status, prior);
    if !Fresh(prior, actual, status) {
      var k := OfCell(actual.tier, actual.status);
      if actual.status == status {
        var l := prior.value;
        assert Debt(d, OfCell(l.tier, l.status)) == -1;
        assert Debt(d, OfCell(l.tier, l.status))
          != Has(OfCell(l.tier, l.status), Some(Label(actual.tier, status))) - Has(OfCell(l.tier, l.status), Some(actual));
      } else {
        assert Has(k, Some(Label(actual.tier, status))) - Has(k, Some(actual)) == -1;
        assert Debt(d, OfCell(k.t, k.s)) != -1;
      }
    }
  }

  // ------------------------------------------------ registrations

  function TierOf(l: Option<Label>): Option<Tier> {
    match l
    case None => None
    case Some(x) => Some(x.tier)
  }

  /** The state after call c has upserted row n. */
  function AfterUpserting(s: State, c: CallId, n: NodeId): State
    requires c in s.calls && s.calls[c].Upserting?
  {
    var call := s.calls[c];
    var x := Node(call.key, call.tier, Pending);
    State(s.nodes[n := x], s.gauge, s.calls[c := AfterWrite(call.prior, LabelOf(x))])
  }

  /** How a registration shifts a class: by the row it overwrote less the row it had read. */
  lemma UpsertDrift(s: State, c: CallId, n: NodeId, k: Class)
    requires Listed(s.nodes) && c in s.calls && s.calls[c].Upserting? && IsTarget(s.nodes, s.calls[c].key, s.calls[c].newId, n)
    ensures Drift(AfterUpserting(s, c, n), k)
      == Drift(s, k) + (Has(k, Holder(s.nodes, s.calls[c].key)) - Has(k, s.calls[c].prior)) as real
  {
    hide Drift, Has;
    var call := s.calls[c];
    var x := Node(call.key, call.tier, Pending);
    ReplacedDrift(s, c, n, x, AfterWrite(call.prior, LabelOf(x)), k);
    NoneHas(k);
    if Owns(s.nodes, n, call.key) {
      HolderIs(s.nodes, n, call.key);
    }
  }

  lemma NoneHas(k: Class)
    ensures Has(k, None) == 0
  {
  }

  /** A registration shifts no tier exactly when the row it read and the row it overwrote are of one tier, or
      both absent; and no cell exactly when they carry the same label. */
  lemma UpsertKeepsIffCurrent(s: State, c: CallId, n: NodeId)
    requires Listed(s.nodes) && c in s.calls && s.calls[c].Upserting? && IsTarget(s.nodes, s.calls[c].key, s.calls[c].newId, n)
    ensures var prior, actual := s.calls[c].prior, Holder(s.nodes, s.calls[c].key);
      && ((forall t :: Drift(AfterUpserting(s, c, n), OfTier(t)) == Drift(s, OfTier(t))) <==> TierOf(prior) == TierOf(actual))
      && ((forall t, u :: Drift(AfterUpserting(s, c, n), OfCell(t, u)) == Drift(s, OfCell(t, u))) <==> prior == actual)
  {
    hide Drift, Has, Holder, AfterUpserting, IsTarget;
    var prior, actual := s.calls[c].prior, Holder(s.nodes, s.calls[c].key);
    forall t
      ensures Drift(AfterUpserting(s, c, n), OfTier(t)) == Drift(s, OfTier(t)) <==> Has(OfTier(t), actual) == Has(OfTier(t), prior)
    {
      UpsertDrift(s, c, n, OfTier(t));
    }
    forall t, u
      ensures Drift(AfterUpserting(s, c, n), OfCell(t, u)) == Drift(s, OfCell(t, u)) <==> Has(OfCell(t, u), actual) == Has(OfCell(t, u), prior)
    {
      UpsertDrift(s, c, n, OfCell(t, u));
    }
    SameHas(prior, actual);
  }

  lemma SameHas(a: Option<Label>, b: Option<Label>)
    ensures (forall t :: Has(OfTier(t), b) == Has(OfTier(t), a)) <==> TierOf(a) == TierOf(b)
    ensures (forall t, u :: Has(OfCell(t, u), b) == Has(OfCell(t, u), a)) <==> a == b
  {
    if TierOf(a) != TierOf(b) {
      var t := if a.Some? then a.value.tier else b.value.tier;
      assert Has(OfTier(t), b) != Has(OfTier(t), a);
    }
    if a != b {
      var l := if a.Some? then a.value else b.value;
      assert Has(OfCell(l.tier, l.status), b) != Has(OfCell(l.tier, l.status), a);
    }
  }

  // ------------------------------------------------ activations

  /** An activation reads and writes one row in one statement, and shifts nothing. */
  lemma ActivateDrift(s: State, c: CallId, n: NodeId, k: Class)
    requires c in s.calls && s.calls[c] == Activating(n) && n in s.nodes
    ensures var l := LabelOf(s.nodes[n]);
      Drift(State(s.nodes[n := s.nodes[n].(status := Active)], s.gauge, s.calls[c := Moving(l, Label(l.tier, Active))]), k) == Drift(s, k)
  {
    hide Drift;
    var l := LabelOf(s.nodes[n]);
    ReplacedDrift(s, c, n, s.nodes[n].(status := Active), Moving(l, Label(l.tier, Active)), k);
  }
}
