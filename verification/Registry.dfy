/**
 Node registration and status changes with the gauge of nodes by tier and status
 (internal/registry/registry.go), and the stake verifier's status changes that bypass the gauge
 (internal/stake/verifier.go). Operations run one at a time. Whether a registration's timestamp, key and
 signature check out is a parameter.
 */
module Registry {
  import opened Options

  type NodeId = nat

  /** `Unlisted` stands for any text the CHECK constraints of the nodes table reject. */
  datatype Tier = T1 | T2 | T3 | UnlistedTier
  datatype Status = Pending | Active | Degraded | Suspended | UnlistedStatus

  datatype Node = Node(key: string, tier: Tier, status: Status)

  type Nodes = map<NodeId, Node>
  type Gauge = map<(Tier, Status), int>

  datatype Ledger = Ledger(nodes: Nodes, gauge: Gauge)

  function Cell(g: Gauge, t: Tier, s: Status): int {
    if (t, s) in g then g[(t, s)] else 0
  }

  function Bump(g: Gauge, t: Tier, s: Status, delta: int): Gauge {
    g[(t, s) := Cell(g, t, s) + delta]
  }

  // ------------------------------------------------ operations on values

  datatype Op =
    | Register(key: string, tier: Tier, newId: NodeId)
    | Activate(n: NodeId)
    | UpdateStatus(n: NodeId, status: Status, readFails: bool)
    | MarkDegraded(n: NodeId)
    | Suspend(n: NodeId)

  /** The node registered under a key, if any; keys are unique. */
  ghost predicate Owns(nodes: Nodes, n: NodeId, key: string) {
    n in nodes && nodes[n].key == key
  }

  ghost function Registered(l: Ledger, key: string, tier: Tier, newId: NodeId): Ledger {
    if tier == UnlistedTier then l
    else if exists n :: Owns(l.nodes, n, key) then
      var n :| Owns(l.nodes, n, key);
      var prior := l.nodes[n];
      Ledger(l.nodes[n := Node(key, tier, Pending)],
             Bump(Bump(l.gauge, prior.tier, prior.status, -1), tier, Pending, 1))
    else if newId in l.nodes then l
    else Ledger(l.nodes[newId := Node(key, tier, Pending)], Bump(l.gauge, tier, Pending, 1))
  }

  function SetStatus(nodes: Nodes, n: NodeId, status: Status): Nodes {
    if n in nodes then nodes[n := nodes[n].(status := status)] else nodes
  }

  function Activated(l: Ledger, n: NodeId): Ledger {
    if n in l.nodes && l.nodes[n].status == Pending
    then Ledger(SetStatus(l.nodes, n, Active),
                Bump(Bump(l.gauge, l.nodes[n].tier, Pending, -1), l.nodes[n].tier, Active, 1))
    else l
  }

  function Updated(l: Ledger, n: NodeId, status: Status, readFails: bool): Ledger {
    if n !in l.nodes || status == UnlistedStatus then l
    else
      var prior := l.nodes[n];
      Ledger(SetStatus(l.nodes, n, status),
             if readFails then l.gauge
             else Bump(Bump(l.gauge, prior.tier, prior.status, -1), prior.tier, status, 1))
  }

  ghost function Apply(l: Ledger, op: Op): Ledger {
    match op
    case Register(key, tier, newId) => Registered(l, key, tier, newId)
    case Activate(n) => Activated(l, n)
    case UpdateStatus(n, status, readFails) => Updated(l, n, status, readFails)
    case MarkDegraded(n) =>
      if n in l.nodes && l.nodes[n].status == Active then l.(nodes := SetStatus(l.nodes, n, Degraded)) else l
    case Suspend(n) => l.(nodes := SetStatus(l.nodes, n, Suspended))
  }

  ghost function ApplyAll(l: Ledger, ops: seq<Op>): Ledger {
    if ops == [] then l else Apply(ApplyAll(l, ops[..|ops| - 1]), ops[|ops| - 1])
  }

  // ------------------------------------------------ the registry object

  /** The nodes table, which the registry and the stake verifier share. */
  class NodeTable {
    var nodes: Nodes

    constructor (nodes: Nodes)
      ensures this.nodes == nodes
    {
      this.nodes := nodes;
    }
  }

  /** One node has left cell `from` of the gauge, if any, and entered cell `to`; the other cells are as before. */
  ghost predicate Shifted(g: Gauge, g': Gauge, from: Option<(Tier, Status)>, to: (Tier, Status)) {
    forall t, s :: Cell(g', t, s) == Cell(g, t, s) - (if from == Some((t, s)) then 1 else 0) + (if to == (t, s) then 1 else 0)
  }

  lemma MoveShifts(g: Gauge, t: Tier, s: Status, t': Tier, s': Status)
    ensures Shifted(g, Bump(Bump(g, t, s, -1), t', s', 1), Some((t, s)), (t', s'))
  {
  }

  lemma AddShifts(g: Gauge, t: Tier, s: Status)
    ensures Shifted(g, Bump(g, t, s, 1), None, (t, s))
  {
  }

  class Registry {
    const table: NodeTable
    var gauge: Gauge

    ghost function Value(): Ledger
      reads this, table
    {
      Ledger(table.nodes, gauge)
    }

    ghost predicate Valid()
      reads this, table
    {
      UniqueKeys(table.nodes)
    }

    constructor (table: NodeTable)
      requires UniqueKeys(table.nodes)
      ensures Valid() && this.table == table && gauge == map[]
    {
      this.table, gauge := table, map[];
    }

    /** `admitted` says that the timestamp, key and signature checks passed and the statement succeeded. */
    method Register(key: string, tier: Tier, newId: NodeId, admitted: bool) returns (id: Option<NodeId>)
      requires Valid()
      modifies this, table
      ensures Valid()
      ensures Value() == if admitted then Apply(old(Value()), Op.Register(key, tier, newId)) else old(Value())
      ensures id.None? <==>
        !admitted || tier == UnlistedTier || (newId in old(table.nodes) && forall n :: !Owns(old(table.nodes), n, key))
      ensures id.None? ==> Value() == old(Value())
      ensures id.Some? ==>
        (var n := id.value;
         && n in table.nodes && table.nodes[n] == Node(key, tier, Pending) && (n in old(table.nodes) ==> Owns(old(table.nodes), n, key))
         && table.nodes.Keys == old(table.nodes.Keys) + {n}
         && (forall m :: m in old(table.nodes) && m != n ==> table.nodes[m] == old(table.nodes)[m])
         && Shifted(old(gauge), gauge,
                    if n in old(table.nodes) then Some((old(table.nodes)[n].tier, old(table.nodes)[n].status)) else None, (tier, Pending)))
    {
      hide Shifted, Bump;
      if !admitted || tier == UnlistedTier {
        return None;
      }
      var nodes := table.nodes;
      if n :| n in nodes && nodes[n].key == key {
        assert Owns(nodes, n, key);
        assert forall m :: Owns(nodes, m, key) ==> m == n;
        var prior := nodes[n];
        MoveShifts(gauge, prior.tier, prior.status, tier, Pending);
        table.nodes := nodes[n := Node(key, tier, Pending)];
        gauge := Bump(gauge, prior.tier, prior.status, -1);
        gauge := Bump(gauge, tier, Pending, 1);
        return Some(n);
      }
      assert forall m :: !Owns(nodes, m, key);
      if newId in nodes {
        return None;
      }
      AddShifts(gauge, tier, Pending);
      table.nodes := nodes[newId := Node(key, tier, Pending)];
      gauge := Bump(gauge, tier, Pending, 1);
      return Some(newId);
    }

    /** `ok` says that the statement succeeded. */
    method Activate(n: NodeId, ok: bool)
      requires Valid()
      modifies this, table
      ensures Valid() && Value() == if ok then Apply(old(Value()), Op.Activate(n)) else old(Value())
      ensures var was := old(table.nodes);
        if ok && n in was && was[n].status == Pending
        then table.nodes == was[n := was[n].(status := Active)]
             && Shifted(old(gauge), gauge, Some((was[n].tier, Pending)), (was[n].tier, Active))
        else table.nodes == was && gauge == old(gauge)
    {
      if !ok || n !in table.nodes || table.nodes[n].status != Pending {
        return;
      }
      hide Shifted, Bump;
      var tier := table.nodes[n].tier;
      MoveShifts(gauge, tier, Pending, tier, Active);
      table.nodes := SetStatus(table.nodes, n, Active);
      gauge := Bump(gauge, tier, Pending, -1);
      gauge := Bump(gauge, tier, Active, 1);
    }

    /** The read that precedes the update may fail silently; the update then leaves the gauge alone. */
    method UpdateStatus(n: NodeId, status: Status, readFails: bool, ok: bool)
      requires Valid()
      modifies this, table
      ensures Valid() && Value() == if ok then Apply(old(Value()), Op.UpdateStatus(n, status, readFails)) else old(Value())
      ensures var was := old(table.nodes);
        if ok && n in was && status != UnlistedStatus
        then table.nodes == was[n := was[n].(status := status)]
             && if readFails then gauge == old(gauge)
                else Shifted(old(gauge), gauge, Some((was[n].tier, was[n].status)), (was[n].tier, status))
        else table.nodes == was && gauge == old(gauge)
    {
      if !ok || n !in table.nodes || status == UnlistedStatus {
        return;
      }
      hide Shifted, Bump;
      var prior := table.nodes[n];
      MoveShifts(gauge, prior.tier, prior.status, prior.tier, status);
      table.nodes := SetStatus(table.nodes, n, status);
      if !readFails {
        gauge := Bump(gauge, prior.tier, prior.status, -1);
        gauge := Bump(gauge, prior.tier, status, 1);
      }
    }
  }

  ghost predicate UniqueKeys(nodes: Nodes) {
    forall n, m :: n in nodes && m in nodes && nodes[n].key == nodes[m].key ==> n == m
  }

  // ------------------------------------------------ what the gauge should say

  ghost function Where(nodes: Nodes, p: Node -> bool): set<NodeId> {
    set n | n in nodes && p(nodes[n])
  }

  ghost function CountOf(nodes: Nodes, p: Node -> bool): nat {
    |Where(nodes, p)|
  }

  function InCell(t: Tier, s: Status): Node -> bool {
    (x: Node) => x.tier == t && x.status == s
  }

  function InTier(t: Tier): Node -> bool {
    (x: Node) => x.tier == t
  }

  /** Every cell equals the number of nodes with that tier and status. */
  ghost predicate Agrees(l: Ledger) {
    forall t, s :: Cell(l.gauge, t, s) == CountOf(l.nodes, InCell(t, s))
  }

  function TierSum(g: Gauge, t: Tier): int {
    Cell(g, t, Pending) + Cell(g, t, Active) + Cell(g, t, Degraded) + Cell(g, t, Suspended)
  }

  /** Every tier's total over the listed statuses equals the number of nodes of that tier. */
  ghost predicate TierAgrees(l: Ledger) {
    forall t :: TierSum(l.gauge, t) == CountOf(l.nodes, InTier(t))
  }

  ghost predicate Listed(nodes: Nodes) {
    UniqueKeys(nodes) && forall n :: n in nodes ==> nodes[n].tier != UnlistedTier && nodes[n].status != UnlistedStatus
  }

  function Indicator(b: bool): int {
    if b then 1 else 0
  }

  lemma CountReplaced(nodes: Nodes, n: NodeId, x: Node, p: Node -> bool)
    ensures CountOf(nodes[n := x], p)
      == CountOf(nodes, p) - Indicator(n in nodes && p(nodes[n])) + Indicator(p(x))
  {
    hide Where;
    var rest := Where(nodes, p) - {n};
    WithOrWithout(nodes, n, p);
    WithOrWithout(nodes[n := x], n, p);
    OthersKept(nodes, n, x, p);
    assert |rest + {n}| == |rest| + 1;
  }

  lemma OthersKept(nodes: Nodes, n: NodeId, x: Node, p: Node -> bool)
    ensures Where(nodes[n := x], p) - {n} == Where(nodes, p) - {n}
  {
  }

  lemma WithOrWithout(nodes: Nodes, n: NodeId, p: Node -> bool)
    ensures var rest := Where(nodes, p) - {n};
      Where(nodes, p) == if n in nodes && p(nodes[n]) then rest + {n} else rest
  {
  }

  /** Replacing node n by x, and moving the gauge from its old cell to its new one. */
  lemma MovedAgrees(l: Ledger, n: NodeId, x: Node)
    requires n in l.nodes && Agrees(l)
    ensures Agrees(Ledger(l.nodes[n := x], Bump(Bump(l.gauge, l.nodes[n].tier, l.nodes[n].status, -1), x.tier, x.status, 1)))
  {
    hide CountOf;
    forall t, s
      ensures CountOf(l.nodes[n := x], InCell(t, s))
        == CountOf(l.nodes, InCell(t, s)) - Indicator(InCell(t, s)(l.nodes[n])) + Indicator(InCell(t, s)(x))
    {
      CountReplaced(l.nodes, n, x, InCell(t, s));
    }
  }

  lemma AddedAgrees(l: Ledger, n: NodeId, x: Node)
    requires n !in l.nodes && Agrees(l)
    ensures Agrees(Ledger(l.nodes[n := x], Bump(l.gauge, x.tier, x.status, 1)))
  {
    hide CountOf;
    forall t, s
      ensures CountOf(l.nodes[n := x], InCell(t, s)) == CountOf(l.nodes, InCell(t, s)) + Indicator(InCell(t, s)(x))
    {
      CountReplaced(l.nodes, n, x, InCell(t, s));
    }
  }

  /** Register, Activate and an UpdateStatus whose read succeeds. */
  predicate Gauged(op: Op) {
    op.Register? || op.Activate? || (op.UpdateStatus? && !op.readFails)
  }

  lemma GaugedAgrees(l: Ledger, op: Op)
    requires Agrees(l) && Gauged(op)
    ensures Agrees(Apply(l, op))
  {
    hide Agrees, Bump;
    match op
    case Register(key, tier, newId) =>
      if tier != UnlistedTier {
        if exists n :: Owns(l.nodes, n, key) {
          var n :| Owns(l.nodes, n, key) && Registered(l, key, tier, newId) ==
            Ledger(l.nodes[n := Node(key, tier, Pending)],
                   Bump(Bump(l.gauge, l.nodes[n].tier, l.nodes[n].status, -1), tier, Pending, 1));
          MovedAgrees(l, n, Node(key, tier, Pending));
        } else if newId !in l.nodes {
          AddedAgrees(l, newId, Node(key, tier, Pending));
        }
      }
    case Activate(n) =>
      if n in l.nodes && l.nodes[n].status == Pending {
        MovedAgrees(l, n, l.nodes[n].(status := Active));
      }
    case UpdateStatus(n, status, _) =>
      if n in l.nodes && status != UnlistedStatus {
        MovedAgrees(l, n, l.nodes[n].(status := status));
      }
  }

  /** Runs of gauged operations keep every cell equal to its number of nodes. */
  lemma {:induction false} GaugeMatchesNodes(l: Ledger, ops: seq<Op>)
    requires Agrees(l) && forall op :: op in ops ==> Gauged(op)
    ensures Agrees(ApplyAll(l, ops))
    decreases |ops|
  {
    hide Agrees;
    if ops != [] {
      var n := |ops| - 1;
      GaugeMatchesNodes(l, ops[..n]);
      GaugedAgrees(ApplyAll(l, ops[..n]), ops[n]);
    }
  }

  /** A status change that bypasses the gauge keeps the agreement exactly when it changes nothing. */
  lemma BypassBreaksCells(l: Ledger, n: NodeId, status: Status)
    requires Agrees(l) && n in l.nodes
    ensures Agrees(l.(nodes := SetStatus(l.nodes, n, status))) <==> l.nodes[n].status == status
  {
    var x := l.nodes[n].(status := status);
    var t, s := l.nodes[n].tier, l.nodes[n].status;
    CountReplaced(l.nodes, n, x, InCell(t, s));
    if s == status {
      assert l.nodes[n := x] == l.nodes;
    }
  }

  lemma TierSumBumped(g: Gauge, t: Tier, s: Status, delta: int)
    requires s != UnlistedStatus
    ensures forall u :: TierSum(Bump(g, t, s, delta), u) == TierSum(g, u) + delta * Indicator(u == t)
  {
  }

  /** Replacing node n by x moves the tier counts as a tier-preserving change of the gauge must. */
  lemma MovedTiers(l: Ledger, n: NodeId, x: Node, g: Gauge)
    requires n in l.nodes && TierAgrees(l)
    requires forall t :: TierSum(g, t) == TierSum(l.gauge, t) - Indicator(l.nodes[n].tier == t) + Indicator(x.tier == t)
    ensures TierAgrees(Ledger(l.nodes[n := x], g))
  {
    hide CountOf, TierSum;
    forall t
      ensures CountOf(l.nodes[n := x], InTier(t))
        == CountOf(l.nodes, InTier(t)) - Indicator(l.nodes[n].tier == t) + Indicator(x.tier == t)
    {
      CountReplaced(l.nodes, n, x, InTier(t));
    }
  }

  lemma AddedTiers(l: Ledger, n: NodeId, x: Node, g: Gauge)
    requires n !in l.nodes && TierAgrees(l)
    requires forall t :: TierSum(g, t) == TierSum(l.gauge, t) + Indicator(x.tier == t)
    ensures TierAgrees(Ledger(l.nodes[n := x], g))
  {
    hide CountOf, TierSum;
    forall t
      ensures CountOf(l.nodes[n := x], InTier(t)) == CountOf(l.nodes, InTier(t)) + Indicator(x.tier == t)
    {
      CountReplaced(l.nodes, n, x, InTier(t));
    }
  }

  /** The gauge after one decrement and one increment. */
  lemma MovedGauge(g: Gauge, t: Tier, s: Status, t': Tier, s': Status)
    requires s != UnlistedStatus && s' != UnlistedStatus
    ensures forall u ::
      TierSum(Bump(Bump(g, t, s, -1), t', s', 1), u) == TierSum(g, u) - Indicator(t == u) + Indicator(t' == u)
  {
    hide TierSum, Bump;
    TierSumBumped(g, t, s, -1);
    TierSumBumped(Bump(g, t, s, -1), t', s', 1);
  }

  lemma RegisterKeepsTiers(l: Ledger, key: string, tier: Tier, newId: NodeId)
    requires TierAgrees(l) && Listed(l.nodes)
    ensures TierAgrees(Registered(l, key, tier, newId))
  {
    hide TierAgrees, TierSum, Bump;
    if tier != UnlistedTier {
      var x := Node(key, tier, Pending);
      if exists n :: Owns(l.nodes, n, key) {
        var n :| Owns(l.nodes, n, key) && Registered(l, key, tier, newId) ==
          Ledger(l.nodes[n := x], Bump(Bump(l.gauge, l.nodes[n].tier, l.nodes[n].status, -1), tier, Pending, 1));
        MovedGauge(l.gauge, l.nodes[n].tier, l.nodes[n].status, tier, Pending);
        MovedTiers(l, n, x, Registered(l, key, tier, newId).gauge);
      } else if newId !in l.nodes {
        TierSumBumped(l.gauge, tier, Pending, 1);
        AddedTiers(l, newId, x, Registered(l, key, tier, newId).gauge);
      }
    }
  }

  lemma ListedKept(l: Ledger, op: Op)
    requires Listed(l.nodes)
    ensures Listed(Apply(l, op).nodes)
  {
    if op.Register? {
      assert forall n :: n in l.nodes && l.nodes[n].key == op.key ==> Owns(l.nodes, n, op.key);
    }
  }

  lemma TiersKept(l: Ledger, op: Op)
    requires TierAgrees(l) && Listed(l.nodes)
    ensures TierAgrees(Apply(l, op))
  {
    hide TierAgrees, Registered, TierSum, Bump;
    match op
    case Register(key, tier, newId) => RegisterKeepsTiers(l, key, tier, newId);
    case Activate(n) =>
      if n in l.nodes && l.nodes[n].status == Pending {
        MovedGauge(l.gauge, l.nodes[n].tier, Pending, l.nodes[n].tier, Active);
        MovedTiers(l, n, l.nodes[n].(status := Active), Apply(l, op).gauge);
      }
    case UpdateStatus(n, status, _) =>
      if n in l.nodes && status != UnlistedStatus {
        MovedGauge(l.gauge, l.nodes[n].tier, l.nodes[n].status, l.nodes[n].tier, status);
        MovedTiers(l, n, l.nodes[n].(status := status), Apply(l, op).gauge);
      }
    case MarkDegraded(n) =>
      if n in l.nodes && l.nodes[n].status == Active {
        MovedTiers(l, n, l.nodes[n].(status := Degraded), l.gauge);
      }
    case Suspend(n) =>
      if n in l.nodes {
        MovedTiers(l, n, l.nodes[n].(status := Suspended), l.gauge);
      }
  }

  /** Runs of any operations, including those that bypass the gauge and status updates whose read fails,
      keep every tier's total equal to its number of nodes. */
  lemma {:induction false} TierTotalsMatchNodes(l: Ledger, ops: seq<Op>)
    requires TierAgrees(l) && Listed(l.nodes)
    ensures TierAgrees(ApplyAll(l, ops)) && Listed(ApplyAll(l, ops).nodes)
    decreases |ops|
  {
    hide TierAgrees, Listed, Apply;
    if ops != [] {
      var n := |ops| - 1;
      TierTotalsMatchNodes(l, ops[..n]);
      TiersKept(ApplyAll(l, ops[..n]), ops[n]);
      ListedKept(ApplyAll(l, ops[..n]), ops[n]);
    }
  }
}
