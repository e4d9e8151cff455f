/**
 Stake verification and the periodic re-verification of active nodes (internal/stake/verifier.go).
 Amounts are whole satoshis; the stored bonus is rounded to thousandths as its column is.
 */
module StakeSweep {
  import opened Options
  import Registry

  type NodeId = Registry.NodeId
  type Nodes = Registry.Nodes

  datatype Channel = Channel(id: string, capacity: int, balance: int)

  datatype StakeStatus = Active | Degraded | ForceClosed

  /** A row of node_stakes. */
  datatype Stake = Stake(channel: string, capacity: int, balance: int, minimum: int, bonus: real,
                         status: StakeStatus, verifiedAt: int, degradedSince: Option<int>)

  type Stakes = map<NodeId, Stake>

  function TierMinimum(tier: Registry.Tier): Option<int> {
    match tier
    case T1 => Some(100_000)
    case T2 => Some(500_000)
    case T3 => Some(2_000_000)
    case UnlistedTier => None
  }

  // ------------------------------------------------ the bonus

  /** clamp(1 + (stake - min) / min * 0.5, 1, 2). */
  function ComputeBonus(stake: int, min: int): (b: real)
    requires min > 0
    ensures 1.0 <= b <= 2.0
  {
    if stake <= min then 1.0
    else
      var bonus := 1.0 + (stake - min) as real / min as real * 0.5;
      if bonus > 2.0 then 2.0 else bonus
  }

  /** What a NUMERIC(4,3) column keeps of it. */
  function Thousandths(b: real): real {
    (b * 1000.0 + 0.5).Floor as real / 1000.0
  }

  lemma BonusMonotone(a: int, b: int, min: int)
    requires min > 0 && a <= b
    ensures ComputeBonus(a, min) <= ComputeBonus(b, min)
  {
    if a > min {
      var m := min as real;
      assert (a - min) as real / m <= (b - min) as real / m;
    }
  }

  /** The stored bonus never falls as the stake grows, stays in [1, 2], and is the bonus of the stake to the
      nearest thousandth. */
  lemma StoredBonus(a: int, b: int, min: int)
    requires min > 0 && a <= b
    ensures Thousandths(ComputeBonus(a, min)) <= Thousandths(ComputeBonus(b, min))
    ensures 1.0 <= Thousandths(ComputeBonus(a, min)) <= 2.0
    ensures forall x :: IsBonus(x, a, min) ==> IsStored(Thousandths(ComputeBonus(a, min)), x)
  {
    BonusMonotone(a, b, min);
    var x, y := ComputeBonus(a, min) * 1000.0 + 0.5, ComputeBonus(b, min) * 1000.0 + 0.5;
    FloorMonotone(x, y);
    FloorMonotone(1000.5, x);
    FloorMonotone(x, 2000.5);
    assert 1000.5.Floor == 1000 && 2000.5.Floor == 2000;
    forall z | IsBonus(z, a, min)
      ensures IsStored(Thousandths(ComputeBonus(a, min)), z)
    {
      ComputesBonus(a, min);
      BonusUnique(ComputeBonus(a, min), z, a, min);
      KeepsThousandths(z);
    }
  }

  lemma BonusUnique(x: real, y: real, balance: int, min: int)
    requires min > 0 && IsBonus(x, balance, min) && IsBonus(y, balance, min)
    ensures x == y
  {
    if min < balance < 3 * min {
      var m := 2.0 * min as real;
      assert m * (x - 1.0) == m * (y - 1.0);
      assert m * (x - y) == 0.0;
    }
  }

  lemma FloorMonotone(x: real, y: real)
    requires x <= y
    ensures x.Floor <= y.Floor
  {
  }

  /** The bonus of a balance: 1 up to the minimum, 2 from three times the minimum on, and in between 1 plus half
      of the excess over the minimum. */
  ghost predicate IsBonus(b: real, balance: int, min: int) {
    && (balance <= min ==> b == 1.0)
    && (min <= balance <= 3 * min ==> 2.0 * min as real * (b - 1.0) == (balance - min) as real)
    && (balance >= 3 * min ==> b == 2.0)
  }

  lemma HalfExcess(d: real, m: real) returns (q: real)
    requires m > 0.0
    ensures q == d / m && q * m == d && (q < 2.0 <==> d < 2.0 * m)
  {
    q := d / m;
    assert q * m == d;
    QuotientBelow(q, m, d);
  }

  lemma QuotientBelow(q: real, m: real, d: real)
    requires m > 0.0 && q * m == d
    ensures q < 2.0 <==> d < 2.0 * m
  {
    var e := q - 2.0;
    assert e * m == d - 2.0 * m;
    if e >= 0.0 {
      assert e * m >= 0.0;
    } else {
      assert (-e) * m > 0.0;
    }
  }

  lemma BonusScaled(b: real, q: real, m: real, d: real)
    requires b == 1.0 + q * 0.5 && q * m == d
    ensures 2.0 * m * (b - 1.0) == d
  {
    assert 2.0 * m * (q * 0.5) == q * m;
  }

  lemma ComputesBonus(balance: int, min: int)
    requires min > 0
    ensures IsBonus(ComputeBonus(balance, min), balance, min)
  {
    if balance > min {
      var d, m := (balance - min) as real, min as real;
      var q := HalfExcess(d, m);
      BonusScaled(1.0 + q * 0.5, q, m, d);
    }
  }

  /** What the stake table keeps of a bonus: thousandths, within half of one. */
  ghost predicate IsStored(kept: real, b: real) {
    -0.0005 <= kept - b <= 0.0005 && (kept * 1000.0).Floor as real == kept * 1000.0
  }

  lemma KeepsThousandths(b: real)
    ensures IsStored(Thousandths(b), b)
  {
    var n := (b * 1000.0 + 0.5).Floor;
    assert Thousandths(b) * 1000.0 == n as real;
  }

  // ------------------------------------------------ the best qualifying channel

  /** The first channel of largest local balance among those that meet the minimum. */
  function Best(channels: seq<Channel>, min: int): Option<Channel> {
    if channels == [] then None
    else
      var n := |channels| - 1;
      var best, ch := Best(channels[..n], min), channels[n];
      if ch.balance >= min && (best.None? || ch.balance > best.value.balance) then Some(ch) else best
  }

  /** No channel qualifies exactly when none is found, and the one found has the largest balance of all. */
  lemma {:induction false} BestIsLargest(channels: seq<Channel>, min: int)
    ensures Best(channels, min).None? <==> forall ch :: ch in channels ==> ch.balance < min
    ensures Best(channels, min).Some? ==>
      var best := Best(channels, min).value;
      best in channels && best.balance >= min && forall ch :: ch in channels ==> ch.balance <= best.balance
    ensures Best(channels, min).Some? ==> exists i :: IsFirst(channels, i, Best(channels, min).value)
    decreases |channels|
  {
    if channels != [] {
      var n := |channels| - 1;
      BestIsLargest(channels[..n], min);
      assert channels == channels[..n] + [channels[n]];
      if Best(channels, min).Some? {
        if Best(channels, min) == Best(channels[..n], min) {
          var i :| IsFirst(channels[..n], i, Best(channels[..n], min).value);
          assert IsFirst(channels, i, Best(channels, min).value);
        } else {
          forall h | 0 <= h < n
            ensures channels[h].balance < channels[n].balance
          {
            assert channels[..n][h] in channels[..n];
          }
          assert IsFirst(channels, n, channels[n]);
        }
      }
    }
  }

  /** The channel stands at position i, and no earlier one has as large a balance. */
  ghost predicate IsFirst(channels: seq<Channel>, i: int, ch: Channel) {
    0 <= i < |channels| && channels[i] == ch && forall h :: 0 <= h < i ==> channels[h].balance < ch.balance
  }

  datatype Verdict =
    | QueryError
    | Insufficient(minimum: int)
    | Verified(channel: Channel, minimum: int, bonus: real)

  /** Verifies a stake. `channels` is absent when the client fails; `configured` says there is a client. */
  method VerifyStake(tier: Registry.Tier, configured: bool, channels: Option<seq<Channel>>) returns (v: Verdict)
    ensures v == StakeVerdict(tier, configured, channels)
    ensures v.QueryError? <==> tier == Registry.UnlistedTier || (configured && channels.None?)
    ensures !v.QueryError? ==>
      v.minimum == if tier == Registry.T1 then 100_000 else if tier == Registry.T2 then 500_000 else 2_000_000
    ensures v.Insufficient? <==> !v.QueryError? && (configured ==> forall ch :: ch in channels.value ==> ch.balance < v.minimum)
    ensures v.Verified? ==>
      (exists i :: IsFirst(channels.value, i, v.channel)) && (forall ch :: ch in channels.value ==> ch.balance <= v.channel.balance)
    ensures v.Verified? ==> v.channel.balance >= v.minimum && IsBonus(v.bonus, v.channel.balance, v.minimum)
  {
    VerdictMeans(tier, configured, channels);
    var tierMin := TierMinimum(tier);
    if tierMin.None? {
      return QueryError;
    }
    if !configured {
      return Insufficient(tierMin.value);
    }
    if channels.None? {
      return QueryError;
    }
    var chs, min := channels.value, tierMin.value;
    var best: Option<Channel> := None;
    for i := 0 to |chs|
      invariant best == Best(chs[..i], min)
    {
      assert chs[..i + 1][..i] == chs[..i];
      if chs[i].balance >= min {
        if best.None? || chs[i].balance > best.value.balance {
          best := Some(chs[i]);
        }
      }
    }
    assert chs[..|chs|] == chs;
    if best.None? {
      return Insufficient(min);
    }
    return Verified(best.value, min, ComputeBonus(best.value.balance, min));
  }

  /** An error for an unknown tier or a failing client, insufficient without a client, and otherwise the verdict
      of the best qualifying channel. */
  function StakeVerdict(tier: Registry.Tier, configured: bool, channels: Option<seq<Channel>>): Verdict {
    if TierMinimum(tier).None? then QueryError
    else if !configured then Insufficient(TierMinimum(tier).value)
    else if channels.None? then QueryError
    else VerdictOf(channels.value, TierMinimum(tier).value)
  }

  lemma VerdictMeans(tier: Registry.Tier, configured: bool, channels: Option<seq<Channel>>)
    ensures var v := StakeVerdict(tier, configured, channels);
      && (v.QueryError? <==> tier == Registry.UnlistedTier || (configured && channels.None?))
      && (!v.QueryError? ==> v.minimum == if tier == Registry.T1 then 100_000 else if tier == Registry.T2 then 500_000 else 2_000_000)
      && (v.Insufficient? <==> !v.QueryError? && (configured ==> forall ch :: ch in channels.value ==> ch.balance < v.minimum))
      && (v.Verified? ==>
            (exists i :: IsFirst(channels.value, i, v.channel)) && (forall ch :: ch in channels.value ==> ch.balance <= v.channel.balance)
            && v.channel.balance >= v.minimum && IsBonus(v.bonus, v.channel.balance, v.minimum))
  {
    hide IsBonus, ComputeBonus;
    if TierMinimum(tier).Some? && configured && channels.Some? {
      var min := TierMinimum(tier).value;
      BestIsLargest(channels.value, min);
      if Best(channels.value, min).Some? {
        ComputesBonus(Best(channels.value, min).value.balance, min);
      }
    }
  }

  function VerdictOf(channels: seq<Channel>, min: int): Verdict
    requires min > 0
  {
    match Best(channels, min)
    case None => Insufficient(min)
    case Some(ch) => Verified(ch, min, ComputeBonus(ch.balance, min))
  }

  // ------------------------------------------------ the sweep of all rows at once

  /** What a stake row becomes; an existing row keeps its tier_minimum. Registration stores a negative
      verdict too, with its empty channel and zero amounts. */
  function Refreshed(row: Option<Stake>, v: Verdict, now: int): Stake
    requires !v.QueryError?
  {
    var minimum := if row.Some? then row.value.minimum else v.minimum;
    match v
    case Insufficient(_) => Stake("", 0, 0, minimum, 0.0, Active, now, None)
    case Verified(ch, _, bonus) => Stake(ch.id, ch.capacity, ch.balance, minimum, Thousandths(bonus), Active, now, None)
  }

  ghost predicate IsRow(row: Stake, v: Verdict, now: int) {
    && row.status == Active && row.degradedSince == None && row.verifiedAt == now
    && (v.Verified? ==>
          row.channel == v.channel.id && row.capacity == v.channel.capacity && row.balance == v.channel.balance && IsStored(row.bonus, v.bonus))
    && (v.Insufficient? ==> row.channel == "" && row.capacity == 0 && row.balance == 0 && row.bonus == 0.0)
  }

  lemma RefreshedMeans(row: Option<Stake>, v: Verdict, now: int)
    requires !v.QueryError?
    ensures IsRow(Refreshed(row, v, now), v, now)
    ensures Refreshed(row, v, now).minimum == if row.Some? then row.value.minimum else v.minimum
  {
    if v.Verified? {
      KeepsThousandths(v.bonus);
    }
  }

  function ChannelOf(v: Verdict): string {
    if v.Verified? then v.channel.id else ""
  }

  function DegradedRow(row: Stake, now: int): Stake {
    if row.degradedSince.None? then row.(status := Degraded, degradedSince := Some(now)) else row
  }

  predicate Due(nodes: Nodes, stakes: Stakes, n: NodeId) {
    n in nodes && n in stakes && nodes[n].status == Registry.Active
  }

  /** What a sweep meets: the channels the client lists for each key, where it can; rows that cannot be scanned;
      and nodes whose UPDATE of the nodes table or of the stake table fails. */
  datatype World = World(
    listings: string -> Option<seq<Channel>>,
    unscanned: NodeId -> bool,
    nodeLost: NodeId -> bool,
    stakeLost: NodeId -> bool)

  /** The verdict on a node; one whose row cannot be scanned is passed over like one that cannot be verified. */
  function VerdictFor(nodes: Nodes, n: NodeId, w: World): Verdict
    requires n in nodes
  {
    if w.unscanned(n) then QueryError else StakeVerdict(nodes[n].tier, true, w.listings(nodes[n].key))
  }

  function SweptNode(nodes: Nodes, stakes: Stakes, w: World, n: NodeId): Registry.Node
    requires n in nodes
  {
    if Due(nodes, stakes, n) && VerdictFor(nodes, n, w).Insufficient? && !w.nodeLost(n)
    then nodes[n].(status := Registry.Degraded)
    else nodes[n]
  }

  function SweptStake(nodes: Nodes, stakes: Stakes, w: World, now: int, n: NodeId): Stake
    requires n in stakes
  {
    if !Due(nodes, stakes, n) then stakes[n]
    else match VerdictFor(nodes, n, w)
         case QueryError => stakes[n]
         case Insufficient(_) => if w.nodeLost(n) || w.stakeLost(n) then stakes[n] else DegradedRow(stakes[n], now)
         case Verified(ch, min, bonus) =>
           if w.stakeLost(n) then stakes[n] else Refreshed(Some(stakes[n]), Verified(ch, min, bonus), now)
  }

  function SweptNodes(nodes: Nodes, stakes: Stakes, w: World): Nodes {
    map n | n in nodes :: SweptNode(nodes, stakes, w, n)
  }

  function SweptStakes(nodes: Nodes, stakes: Stakes, w: World, now: int): Stakes {
    map n | n in stakes :: SweptStake(nodes, stakes, w, now, n)
  }

  // ------------------------------------------------ the sweep, row after row

  /** No other node's row holds the channel. */
  ghost predicate Free(stakes: Stakes, n: NodeId, channel: string) {
    forall m :: m in stakes && m != n ==> stakes[m].channel != channel
  }

  function RowOf(stakes: Stakes, n: NodeId): Option<Stake> {
    if n in stakes then Some(stakes[n]) else None
  }

  /** The upsert; channel_id is UNIQUE, so it fails when another node's row holds the channel. */
  ghost function Persisted(stakes: Stakes, n: NodeId, v: Verdict, now: int): Stakes
    requires !v.QueryError?
  {
    if Free(stakes, n, ChannelOf(v)) then stakes[n := Refreshed(RowOf(stakes, n), v, now)] else stakes
  }

  /** The stake rows after one node has been re-verified. */
  ghost function StakesAfter(nodes: Nodes, stakes: Stakes, w: World, now: int, n: NodeId): Stakes {
    if n !in nodes || n !in stakes then stakes
    else match VerdictFor(nodes, n, w)
         case QueryError => stakes
         case Insufficient(_) => if w.nodeLost(n) || w.stakeLost(n) then stakes else stakes[n := DegradedRow(stakes[n], now)]
         case Verified(ch, min, bonus) => if w.stakeLost(n) then stakes else Persisted(stakes, n, Verified(ch, min, bonus), now)
  }

  /** The stake rows after the given nodes have been re-verified in order. */
  ghost function SweepRows(nodes: Nodes, stakes: Stakes, w: World, now: int, rows: seq<NodeId>): (ss: Stakes)
    ensures ss.Keys == stakes.Keys
  {
    if rows == [] then stakes
    else
      var m := |rows| - 1;
      StakesAfter(nodes, SweepRows(nodes, stakes, w, now, rows[..m]), w, now, rows[m])
  }

  /** What the sweep's query returns: the active staked nodes, each once. */
  ghost predicate IsDueListing(rows: seq<NodeId>, nodes: Nodes, stakes: Stakes) {
    (forall n :: n in rows <==> Due(nodes, stakes, n)) && forall i, j :: 0 <= i < j < |rows| ==> rows[i] != rows[j]
  }

  // ------------------------------------------------ the verifier object

  class Verifier {
    const table: Registry.NodeTable
    var stakes: Stakes

    /** node_stakes.node_id references nodes. */
    ghost predicate Valid()
      reads this, table
    {
      stakes.Keys <= table.nodes.Keys
    }

    constructor (table: Registry.NodeTable, ss: Stakes)
      requires ss.Keys <= table.nodes.Keys
      ensures Valid() && this.table == table && stakes == ss
    {
      this.table, stakes := table, ss;
    }

    /** Upserts a stake row, if the statement succeeds: active, not degraded, verified now, with the verdict's channel
        and amounts and its bonus in thousandths; a negative verdict has an empty channel and zeros. */
    method PersistStake(n: NodeId, v: Verdict, now: int, dbOk: bool) returns (ok: bool)
      requires Valid() && !v.QueryError?
      modifies this`stakes
      ensures Valid()
      ensures ok <==> dbOk && n in table.nodes && Free(old(stakes), n, ChannelOf(v))
      ensures stakes == if ok then old(stakes)[n := Refreshed(RowOf(old(stakes), n), v, now)] else old(stakes)
      ensures ok ==> n in stakes && IsRow(stakes[n], v, now) && stakes[n].minimum == if n in old(stakes) then old(stakes)[n].minimum else v.minimum
    {
      RefreshedMeans(RowOf(stakes, n), v, now);
      if !dbOk || n !in table.nodes {
        return false;
      }
      if m :| m in stakes && m != n && stakes[m].channel == ChannelOf(v) {
        return false;
      }
      stakes := stakes[n := Refreshed(RowOf(stakes, n), v, now)];
      return true;
    }

    /** Degrades the node if it is active, then stamps its stake if that is not stamped yet; stops at a failing
        statement. */
    method MarkDegraded(n: NodeId, now: int, nodeOk: bool, stakeOk: bool) returns (ok: bool)
      requires Valid()
      modifies this, table
      ensures Valid() && (ok <==> nodeOk && stakeOk)
      ensures table.nodes == if nodeOk && n in old(table.nodes) && old(table.nodes)[n].status == Registry.Active
                             then old(table.nodes)[n := old(table.nodes)[n].(status := Registry.Degraded)] else old(table.nodes)
      ensures stakes == if ok && n in old(stakes) then old(stakes)[n := DegradedRow(old(stakes)[n], now)] else old(stakes)
      ensures ok && n in old(stakes) && old(stakes)[n].degradedSince == None ==>
        n in stakes && stakes[n] == old(stakes)[n].(status := Degraded, degradedSince := Some(now))
      ensures n in old(stakes) && old(stakes)[n].degradedSince != None ==> stakes == old(stakes)
    {
      if !nodeOk {
        return false;
      }
      if n in table.nodes && table.nodes[n].status == Registry.Active {
        table.nodes := table.nodes[n := table.nodes[n].(status := Registry.Degraded)];
      }
      if !stakeOk {
        return false;
      }
      if n in stakes && stakes[n].degradedSince.None? {
        stakes := stakes[n := stakes[n].(status := Degraded, degradedSince := Some(now))];
      }
      assert n in stakes ==> stakes == old(stakes)[n := DegradedRow(old(stakes)[n], now)];
      return true;
    }

    /** Re-verifies one active staked node; an error, of the client or of a statement, is passed over. */
    method Reverify(n: NodeId, w: World, now: int)
      requires Valid() && Due(table.nodes, stakes, n)
      modifies this, table
      ensures Valid()
      ensures table.nodes == old(table.nodes)[n := SweptNode(old(table.nodes), old(stakes), w, n)]
      ensures stakes == StakesAfter(old(table.nodes), old(stakes), w, now, n)
    {
      if w.unscanned(n) {
        return;
      }
      var node := table.nodes[n];
      var v := VerifyStake(node.tier, true, w.listings(node.key));
      assert v == VerdictFor(table.nodes, n, w);
      match v {
        case QueryError =>
        case Insufficient(_) => var _ := MarkDegraded(n, now, !w.nodeLost(n), !w.stakeLost(n));
        case Verified(_, _, _) => var _ := PersistStake(n, v, now, !w.stakeLost(n));
      }
    }

    /** Re-verifies the rows the query returned, one after the other; without a client it does nothing. */
    method VerifyAllActive(rows: seq<NodeId>, configured: bool, w: World, now: int)
      requires Valid() && IsDueListing(rows, table.nodes, stakes)
      modifies this, table
      ensures Valid()
      ensures !configured ==> table.nodes == old(table.nodes) && stakes == old(stakes)
      ensures configured ==> table.nodes == SweptNodes(old(table.nodes), old(stakes), w)
      ensures configured ==> stakes == SweepRows(old(table.nodes), old(stakes), w, now, rows)
    {
      hide StakesAfter, SweptNode, VerdictFor;
      if !configured {
        return;
      }
      ghost var ns, ss := table.nodes, stakes;
      for i := 0 to |rows|
        invariant Valid() && stakes == SweepRows(ns, ss, w, now, rows[..i])
        invariant NodesUpTo(ns, ss, table.nodes, w, rows, i)
      {
        var n := rows[i];
        NotYet(ns, ss, table.nodes, w, rows, i);
        SameVerdict(ns, ss, table.nodes, stakes, w, now, n);
        OneMore(ns, ss, table.nodes, w, rows, i);
        assert rows[..i + 1][..i] == rows[..i];
        Reverify(n, w, now);
      }
      assert rows[..|rows|] == rows;
      AllSwept(ns, ss, table.nodes, w, rows);
    }
  }

  /** Nodes among the first i rows have been swept, the others are untouched. */
  ghost predicate NodesUpTo(ns: Nodes, ss: Stakes, nodes: Nodes, w: World, rows: seq<NodeId>, i: nat)
    requires i <= |rows|
  {
    && nodes.Keys == ns.Keys
    && (forall n :: n in ns ==> nodes[n] == if n in rows[..i] then SweptNode(ns, ss, w, n) else ns[n])
  }

  lemma NotYet(ns: Nodes, ss: Stakes, nodes: Nodes, w: World, rows: seq<NodeId>, i: nat)
    requires i < |rows| && NodesUpTo(ns, ss, nodes, w, rows, i) && IsDueListing(rows, ns, ss)
    ensures var n := rows[i]; Due(ns, ss, n) && n in nodes && nodes[n] == ns[n]
  {
    assert rows[i] in rows;
  }

  lemma SameVerdict(ns: Nodes, ss: Stakes, nodes: Nodes, stakes: Stakes, w: World, now: int, n: NodeId)
    requires n in ns && n in nodes && nodes[n] == ns[n] && stakes.Keys == ss.Keys && n in ss
    ensures SweptNode(nodes, stakes, w, n) == SweptNode(ns, ss, w, n)
    ensures StakesAfter(nodes, stakes, w, now, n) == StakesAfter(ns, stakes, w, now, n)
    ensures Due(nodes, stakes, n) == Due(ns, ss, n)
  {
  }

  lemma OneMore(ns: Nodes, ss: Stakes, nodes: Nodes, w: World, rows: seq<NodeId>, i: nat)
    requires i < |rows| && NodesUpTo(ns, ss, nodes, w, rows, i) && rows[i] in ns
    ensures NodesUpTo(ns, ss, nodes[rows[i] := SweptNode(ns, ss, w, rows[i])], w, rows, i + 1)
  {
    hide SweptNode;
    assert rows[..i + 1] == rows[..i] + [rows[i]];
  }

  lemma AllSwept(ns: Nodes, ss: Stakes, nodes: Nodes, w: World, rows: seq<NodeId>)
    requires NodesUpTo(ns, ss, nodes, w, rows, |rows|) && forall n :: n in rows <==> Due(ns, ss, n)
    ensures nodes == SweptNodes(ns, ss, w)
  {
    hide VerdictFor;
    assert rows[..|rows|] == rows;
  }

  // ------------------------------------------------ rows that do not interfere

  /** Channel ids are never shared: no node's listing names another node's listed or stored channel. */
  ghost predicate DistinctChannels(nodes: Nodes, stakes: Stakes, w: World) {
    forall n, m, ch :: n in nodes && m in nodes && n != m && Lists(w, nodes[n].key, ch) ==>
      && (m in stakes ==> ch.id != stakes[m].channel)
      && forall other :: Lists(w, nodes[m].key, other) ==> ch.id != other.id
  }

  ghost predicate Lists(w: World, key: string, ch: Channel) {
    w.listings(key).Some? && ch in w.listings(key).value
  }

  lemma VerifiedListed(nodes: Nodes, n: NodeId, w: World)
    requires n in nodes && VerdictFor(nodes, n, w).Verified?
    ensures Lists(w, nodes[n].key, VerdictFor(nodes, n, w).channel)
  {
    BestIsLargest(w.listings(nodes[n].key).value, TierMinimum(nodes[n].tier).value);
  }

  /** A stored channel id is the old one or comes from its own node's listing. */
  lemma StoredChannel(nodes: Nodes, stakes: Stakes, w: World, now: int, m: NodeId)
    requires m in stakes && m in nodes
    ensures var stored := SweptStake(nodes, stakes, w, now, m).channel;
      stored == stakes[m].channel || exists ch :: Lists(w, nodes[m].key, ch) && ch.id == stored
  {
    if VerdictFor(nodes, m, w).Verified? {
      VerifiedListed(nodes, m, w);
    }
  }

  /** Rows among the first i have been swept, the others are untouched. */
  ghost predicate StakesUpTo(ns: Nodes, ss: Stakes, stakes: Stakes, w: World, now: int, rows: seq<NodeId>) {
    && stakes.Keys == ss.Keys
    && (forall n :: n in ss ==> stakes[n] == if n in rows then SweptStake(ns, ss, w, now, n) else ss[n])
  }

  /** No other row holds the channel about to be stored. */
  lemma ChannelFree(ns: Nodes, ss: Stakes, stakes: Stakes, w: World, now: int, rows: seq<NodeId>, n: NodeId)
    requires StakesUpTo(ns, ss, stakes, w, now, rows) && ss.Keys <= ns.Keys && DistinctChannels(ns, ss, w)
    requires n in ns && VerdictFor(ns, n, w).Verified?
    ensures Free(stakes, n, VerdictFor(ns, n, w).channel.id)
  {
    hide SweptStake, VerdictFor;
    VerifiedListed(ns, n, w);
    forall m | m in stakes && m != n
      ensures stakes[m].channel != VerdictFor(ns, n, w).channel.id
    {
      StoredChannel(ns, ss, w, now, m);
    }
  }

  lemma {:induction false} SweptRows(ns: Nodes, ss: Stakes, w: World, now: int, rows: seq<NodeId>)
    requires ss.Keys <= ns.Keys && DistinctChannels(ns, ss, w) && forall n :: n in rows ==> Due(ns, ss, n)
    requires forall i, j :: 0 <= i < j < |rows| ==> rows[i] != rows[j]
    ensures StakesUpTo(ns, ss, SweepRows(ns, ss, w, now, rows), w, now, rows)
    decreases |rows|
  {
    hide DistinctChannels, VerdictFor;
    if rows != [] {
      var m := |rows| - 1;
      var n := rows[m];
      SweptRows(ns, ss, w, now, rows[..m]);
      var stakes := SweepRows(ns, ss, w, now, rows[..m]);
      assert n in rows && n !in rows[..m] && rows == rows[..m] + [n];
      if VerdictFor(ns, n, w).Verified? {
        ChannelFree(ns, ss, stakes, w, now, rows[..m], n);
      }
      assert StakesAfter(ns, stakes, w, now, n) == stakes[n := SweptStake(ns, ss, w, now, n)];
    }
  }

  /** When channel ids are distinct, the sweep row after row is the sweep of all rows at once, in whatever order
      the query returned them. */
  lemma SweepIsSimultaneous(ns: Nodes, ss: Stakes, w: World, now: int, rows: seq<NodeId>)
    requires ss.Keys <= ns.Keys && DistinctChannels(ns, ss, w) && IsDueListing(rows, ns, ss)
    ensures SweepRows(ns, ss, w, now, rows) == SweptStakes(ns, ss, w, now)
  {
    hide VerdictFor, Refreshed, DegradedRow, DistinctChannels;
    SweptRows(ns, ss, w, now, rows);
  }

  ghost predicate UniqueChannels(stakes: Stakes) {
    forall n, m :: n in stakes && m in stakes && n != m ==> stakes[n].channel != stakes[m].channel
  }

  /** Whatever the client lists, no sweep stores one channel under two nodes. */
  lemma {:induction false} SweepKeepsChannelsUnique(ns: Nodes, ss: Stakes, w: World, now: int, rows: seq<NodeId>)
    requires UniqueChannels(ss)
    ensures UniqueChannels(SweepRows(ns, ss, w, now, rows))
    decreases |rows|
  {
    hide UniqueChannels, StakesAfter;
    if rows != [] {
      var m := |rows| - 1;
      SweepKeepsChannelsUnique(ns, ss, w, now, rows[..m]);
      StepKeepsChannelsUnique(ns, SweepRows(ns, ss, w, now, rows[..m]), w, now, rows[m]);
    }
  }

  lemma StepKeepsChannelsUnique(nodes: Nodes, stakes: Stakes, w: World, now: int, n: NodeId)
    requires UniqueChannels(stakes)
    ensures UniqueChannels(StakesAfter(nodes, stakes, w, now, n))
  {
    hide VerdictFor, Thousandths;
  }

  // ------------------------------------------------ what a sweep achieves

  /** No error meets node n. */
  predicate Clear(w: World, nodes: Nodes, n: NodeId) {
    n in nodes && !w.unscanned(n) && !w.nodeLost(n) && !w.stakeLost(n) && w.listings(nodes[n].key).Some?
  }

  /** Where no error meets it, an active staked node of a listed tier stays active exactly when its largest local
      balance meets the tier minimum; its stake row then stores that balance, its channel, and the bonus of it in
      thousandths, and otherwise is degraded from now on unless it was before. */
  lemma SweepVerdict(nodes: Nodes, stakes: Stakes, w: World, now: int, n: NodeId)
    requires Due(nodes, stakes, n) && nodes[n].tier != Registry.UnlistedTier && Clear(w, nodes, n)
    ensures var tier, chs := nodes[n].tier, w.listings(nodes[n].key).value;
      var min := if tier == Registry.T1 then 100_000 else if tier == Registry.T2 then 500_000 else 2_000_000;
      var node, was, stake := SweptNodes(nodes, stakes, w)[n], stakes[n], SweptStakes(nodes, stakes, w, now)[n];
      && (node.status == Registry.Active <==> exists ch :: ch in chs && ch.balance >= min)
      && (node.status == Registry.Active ==>
            stake.status == Active && stake.degradedSince.None? && stake.verifiedAt == now && stake.minimum == was.minimum
            && (exists ch :: ch in chs && ch.balance == stake.balance && ch.id == stake.channel && ch.capacity == stake.capacity)
            && (forall ch :: ch in chs ==> ch.balance <= stake.balance)
            && exists b :: IsBonus(b, stake.balance, min) && IsStored(stake.bonus, b))
      && (node.status != Registry.Active ==>
            node.status == Registry.Degraded
            && stake == if was.degradedSince == None then was.(status := Degraded, degradedSince := Some(now)) else was)
  {
    hide IsBonus, ComputeBonus, IsStored, Thousandths;
    var chs, min := w.listings(nodes[n].key).value, TierMinimum(nodes[n].tier).value;
    BestIsLargest(chs, min);
    if Best(chs, min).Some? {
      var b := ComputeBonus(Best(chs, min).value.balance, min);
      ComputesBonus(Best(chs, min).value.balance, min);
      KeepsThousandths(b);
    }
  }

  predicate SameButTime(a: Stake, b: Stake) {
    a == b.(verifiedAt := a.verifiedAt)
  }

  lemma SimultaneousIdempotent(nodes: Nodes, stakes: Stakes, w: World, now: int, later: int)
    ensures var ns, ss := SweptNodes(nodes, stakes, w), SweptStakes(nodes, stakes, w, now);
      var ss' := SweptStakes(ns, ss, w, later);
      && SweptNodes(ns, ss, w) == ns
      && ss'.Keys == ss.Keys
      && forall n :: n in ss ==> SameButTime(ss'[n], ss[n])
  {
    hide StakeVerdict;
  }

  /** A sweep stores only channels of each node's own listing, so ids stay distinct. */
  lemma DistinctAfterSweep(ns: Nodes, ss: Stakes, w: World, now: int)
    requires ss.Keys <= ns.Keys && DistinctChannels(ns, ss, w)
    ensures DistinctChannels(SweptNodes(ns, ss, w), SweptStakes(ns, ss, w, now), w)
  {
    hide SweptStake, VerdictFor;
    var ns', ss' := SweptNodes(ns, ss, w), SweptStakes(ns, ss, w, now);
    assert forall n :: n in ns ==> ns'[n].key == ns[n].key;
    forall m | m in ss
      ensures ss'[m].channel == ss[m].channel || exists ch :: Lists(w, ns[m].key, ch) && ch.id == ss'[m].channel
    {
      StoredChannel(ns, ss, w, now, m);
    }
  }

  /** Sweeping twice over the same listings and with the same errors, each time row after row in whatever order
      the query returned, changes nothing more than the verification times. */
  lemma SweepIdempotent(ns: Nodes, ss: Stakes, w: World, now: int, later: int, rows: seq<NodeId>, again: seq<NodeId>)
    requires ss.Keys <= ns.Keys && DistinctChannels(ns, ss, w) && IsDueListing(rows, ns, ss)
    requires IsDueListing(again, SweptNodes(ns, ss, w), SweepRows(ns, ss, w, now, rows))
    ensures var ns', ss' := SweptNodes(ns, ss, w), SweepRows(ns, ss, w, now, rows);
      var ss'' := SweepRows(ns', ss', w, later, again);
      && SweptNodes(ns', ss', w) == ns'
      && ss''.Keys == ss'.Keys
      && forall n :: n in ss' ==> SameButTime(ss''[n], ss'[n])
  {
    hide DistinctChannels, SweptNode, SweptStake, IsDueListing, SweepRows;
    SweepIsSimultaneous(ns, ss, w, now, rows);
    DistinctAfterSweep(ns, ss, w, now);
    SimultaneousIdempotent(ns, ss, w, now, later);
    SweepIsSimultaneous(SweptNodes(ns, ss, w), SweptStakes(ns, ss, w, now), w, later, again);
  }
}
