/**
 Admission of a node (internal/rpc/server.go): register it, verify its stake, persist the verdict, activate it.
 Only an error of the verification stops the sequence; a verdict that the stake is insufficient does not.
 */
module Admission {
  import opened Options
  import opened Registry
  import opened StakeSweep

  datatype Response =
    | Refused                       // the registration failed
    | StakePending(id: NodeId)      // the stake could not be verified
    | ActivationFailed(id: NodeId)
    | Admitted(id: NodeId)

  /** The stake rows after the verdict on node n was persisted, or not. */
  ghost function StakesAfterVerdict(stakes: Stakes, n: NodeId, v: Verdict, persistOk: bool, now: int): Stakes {
    if v.QueryError? || !persistOk then stakes else Persisted(stakes, n, v, now)
  }

  /** The node after its registration, the verdict on its stake, and the activating statement. */
  function NodeAfterVerdict(key: string, tier: Tier, v: Verdict, activateOk: bool): Node {
    Node(key, tier, if v.QueryError? || !activateOk then Pending else Status.Active)
  }

  class Server {
    const registry: Registry
    const verifier: Verifier

    ghost predicate Valid()
      reads this, registry, verifier, registry.table, verifier.table
    {
      registry.table == verifier.table && registry.Valid() && verifier.Valid()
    }

    constructor (registry: Registry, verifier: Verifier)
      requires registry.table == verifier.table && registry.Valid() && verifier.Valid()
      ensures Valid() && this.registry == registry && this.verifier == verifier
    {
      this.registry, this.verifier := registry, verifier;
    }

    /** `channels` is what the Lightning client listed, if it did. */
    method RegisterNode(key: string, tier: Tier, newId: NodeId, admitted: bool, configured: bool, channels: Option<seq<Channel>>,
                        persistOk: bool, activateOk: bool, now: int) returns (r: Response)
      requires Valid()
      modifies registry, verifier, registry.table
      ensures Valid()
      ensures r.Refused? <==>
        !admitted || tier == UnlistedTier || (newId in old(registry.table.nodes) && forall n :: !Owns(old(registry.table.nodes), n, key))
      ensures r.Refused? ==> registry.Value() == old(registry.Value()) && verifier.stakes == old(verifier.stakes)
      ensures !r.Refused? ==>
        (var v, nodes, n := StakeVerdict(tier, configured, channels), registry.table.nodes, r.id;
         && r == (if v.QueryError? then StakePending(n) else if activateOk then Admitted(n) else ActivationFailed(n))
         && nodes.Keys == old(registry.table.nodes.Keys) + {n} && nodes[n] == NodeAfterVerdict(key, tier, v, activateOk)
         && nodes[n] == Node(key, tier, if !v.QueryError? && activateOk then Status.Active else Pending)
         && (n in old(registry.table.nodes) ==> Owns(old(registry.table.nodes), n, key))
         && (forall m :: m in old(registry.table.nodes) && m != n ==> nodes[m] == old(registry.table.nodes)[m])
         && verifier.stakes == StakesAfterVerdict(old(verifier.stakes), n, v, persistOk, now))
      ensures !r.Refused? ==>
        (var l := Apply(old(registry.Value()), Op.Register(key, tier, newId));
         registry.Value() == if r.Admitted? then Apply(l, Op.Activate(r.id)) else l)
    {
      hide Registered, StakeVerdict;
      var id := registry.Register(key, tier, newId, admitted);
      if id.None? {
        return Refused;
      }
      var n := id.value;
      var v := VerifyStake(tier, configured, channels);
      if v.QueryError? {
        return StakePending(n);
      }
      var _ := verifier.PersistStake(n, v, now, persistOk);
      registry.Activate(n, activateOk);
      if !activateOk {
        return ActivationFailed(n);
      }
      return Admitted(n);
    }
  }

  // ------------------------------------------------ does an active node have a stake?

  /** An active stake row whose balance meets the tier's minimum. */
  predicate Qualifies(stakes: Stakes, n: NodeId, tier: Tier) {
    n in stakes && stakes[n].status == StakeStatus.Active && TierMinimum(tier).Some? && stakes[n].balance >= TierMinimum(tier).value
  }

  /** A registered node ends active exactly when its stake could be verified, whatever the verdict, and the
      activating statement succeeded. It then has a qualifying stake row exactly when a listed channel meets
      the minimum, the largest one is free to be stored and was; or when the verdict could not be stored and it
      had a qualifying row already. */
  lemma ActiveQualifiesIff(key: string, tier: Tier, stakes: Stakes, n: NodeId, configured: bool, channels: Option<seq<Channel>>,
                           persistOk: bool, activateOk: bool, now: int)
    requires tier != UnlistedTier
    ensures var v, min := StakeVerdict(tier, configured, channels), TierMinimum(tier).value;
      var active := NodeAfterVerdict(key, tier, v, activateOk).status == Status.Active;
      var stored := persistOk && Free(stakes, n, ChannelOf(v));
      && (active <==> (configured ==> channels.Some?) && activateOk)
      && (active && Qualifies(StakesAfterVerdict(stakes, n, v, persistOk, now), n, tier) <==>
            active && if stored then configured && exists ch :: ch in channels.value && ch.balance >= min
                      else Qualifies(stakes, n, tier))
  {
    if configured && channels.Some? {
      BestIsLargest(channels.value, TierMinimum(tier).value);
    }
  }

  /** A new t1 node whose key has no channel at all ends active, with a stake row of no channel and no balance. */
  lemma ActiveWithoutStake(key: string)
    ensures var v := StakeVerdict(T1, true, Some([]));
      && NodeAfterVerdict(key, T1, v, true).status == Status.Active
      && StakesAfterVerdict(map[], 0, v, true, 0) == map[0 := Stake("", 0, 0, 100_000, 0.0, StakeStatus.Active, 0, None)]
      && !Qualifies(StakesAfterVerdict(map[], 0, v, true, 0), 0, T1)
  {
    assert Free(map[], 0, "");
  }
}
