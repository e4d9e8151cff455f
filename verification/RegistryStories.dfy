/**
 Interleavings of the registry's operations (internal/registry/registry.go) that leave the gauge wrong: two
 suspensions of one node, and two registrations of one new key. Both start from any table with no call under
 way and end with none.
 */
module RegistryStories {
  import opened Options
  import opened Registry
  import opened RegistryRaces
  import opened RegistryRuns

  datatype Story = Story(run: seq<State>, acts: seq<Action>)

  ghost predicate Happens(t: Story) {
    IsRun(t.run, t.acts)
  }

  ghost function Now(t: Story): State
    requires t.run != []
  {
    t.run[|t.run| - 1]
  }

  lemma Do(t: Story, a: Action, s: State) returns (t': Story)
    requires Happens(t) && Does(Now(t), a, s)
    ensures Happens(t') && t'.run != [] && Now(t') == s && t'.run[0] == t.run[0]
  {
    hide Does, Listed;
    t' := Story(t.run + [s], t.acts + [a]);
    forall i | 0 <= i < |t'.acts|
      ensures Does(t'.run[i], t'.acts[i], t'.run[i + 1])
    {
      if i < |t.acts| {
        assert t'.run[i] == t.run[i] && t'.run[i + 1] == t.run[i + 1] && t'.acts[i] == t.acts[i];
      }
    }
  }

  /** A call starts and takes its first step, which changes nothing but its program counter. */
  lemma Open(t: Story, c: CallId, call: Call, next: Call) returns (t': Story)
    requires Happens(t) && c !in Now(t).calls && (call.Preparing? || call.Reading?)
    requires call.Preparing? ==> next == Upserting(call.key, call.tier, call.newId, Holder(Now(t).nodes, call.key))
    requires call.Reading? ==> call.n in Now(t).nodes && next == Updating(call.n, call.status, Some(LabelOf(Now(t).nodes[call.n])))
    ensures Happens(t') && t'.run != [] && Now(t') == Now(t).(calls := Now(t).calls[c := next]) && t'.run[0] == t.run[0]
    ensures forall k :: Drift(Now(t'), k) == Drift(Now(t), k)
  {
    hide Holder, Drift, Listed;
    var s := Now(t);
    t' := Do(t, Start(c, call), s.(calls := s.calls[c := call]));
    assert s.calls[c := call][c := next] == s.calls[c := next];
    t' := Do(t', Advance(c), s.(calls := s.calls[c := next]));
    forall k
      ensures Drift(Now(t'), k) == Drift(s, k)
    {
      QuietStep(s, c, next, k);
    }
  }

  lemma Write(t: Story, c: CallId, s: State) returns (t': Story)
    requires Happens(t) && c in Now(t).calls && CallStep(Now(t), c, s)
    ensures Happens(t') && t'.run != [] && Now(t') == s && t'.run[0] == t.run[0]
  {
    hide CallStep, Listed;
    t' := Do(t, Advance(c), s);
  }

  /** A call between its row and the gauge settles; that shifts nothing. */
  lemma Settle(t: Story, c: CallId) returns (t': Story)
    requires Happens(t) && c in Now(t).calls && (Now(t).calls[c].Moving? || Now(t).calls[c].Adding?)
    ensures Happens(t') && t'.run != [] && t'.run[0] == t.run[0]
    ensures Now(t').nodes == Now(t).nodes && Now(t').calls == Now(t).calls[c := Done]
    ensures forall k :: Drift(Now(t'), k) == Drift(Now(t), k)
  {
    hide Drift, Listed;
    var s := Now(t);
    t' := t;
    if s.calls[c].Moving? {
      var s' := State(s.nodes, BumpLabel(s.gauge, s.calls[c].from, -1), s.calls[c := Adding(s.calls[c].to)]);
      t' := SettleStep(t', c, s');
      assert s'.calls[c := Done] == s.calls[c := Done];
    }
    var m := Now(t');
    t' := SettleStep(t', c, State(m.nodes, BumpLabel(m.gauge, m.calls[c].to, 1), m.calls[c := Done]));
  }

  lemma SettleStep(t: Story, c: CallId, s: State) returns (t': Story)
    requires Happens(t) && c in Now(t).calls && (Now(t).calls[c].Moving? || Now(t).calls[c].Adding?) && CallStep(Now(t), c, s)
    ensures Happens(t') && t'.run != [] && Now(t') == s && t'.run[0] == t.run[0]
    ensures forall k :: Drift(s, k) == Drift(Now(t), k)
  {
    hide Drift, Listed, CallStep;
    RunWf(t.run, t.acts, |t.run| - 1);
    t' := Write(t, c, s);
    forall k
      ensures Drift(s, k) == Drift(Now(t), k)
    {
      GaugeStep(Now(t), c, s, k);
    }
  }

  // ------------------------------------------------ two suspensions

  /** Suspends node n by call c, whose read saw label l. */
  lemma SuspendBy(t: Story, c: CallId, n: NodeId, l: Label) returns (t': Story)
    requires Happens(t) && c in Now(t).calls && Now(t).calls[c] == Updating(n, Suspended, Some(l)) && n in Now(t).nodes
    ensures Happens(t') && t'.run != [] && t'.run[0] == t.run[0] && Now(t') == AfterUpdating(Now(t), c)
    ensures var actual := LabelOf(Now(t).nodes[n]);
      forall k :: Drift(Now(t'), k) == Drift(Now(t), k)
        + (Has(k, Some(Label(l.tier, Suspended))) - Has(k, Some(l)) - Has(k, Some(Label(actual.tier, Suspended))) + Has(k, Some(actual))) as real
  {
    hide Drift, Listed, Has;
    t' := Write(t, c, AfterUpdating(Now(t), c));
    forall k
      ensures Drift(Now(t'), k) == Drift(Now(t), k) + (Debt(Moving(l, Label(l.tier, Suspended)), k)
        - Has(k, Some(Label(LabelOf(Now(t).nodes[n]).tier, Suspended))) + Has(k, Some(LabelOf(Now(t).nodes[n])))) as real
    {
      UpdateDrift(Now(t), c, k);
    }
  }

  /** From any table with no call under way and any node not yet suspended: two suspensions that both read
      before either writes both move the gauge, and with no call under way any more the cell the node was in
      is short by one and the cell it is in is over by one. */
  lemma SuspensionRace(nodes: Nodes, gauge: Gauge, n: NodeId) returns (t: Story)
    requires Listed(nodes) && n in nodes && nodes[n].status != Suspended
    ensures Happens(t) && t.run != [] && t.run[0] == State(nodes, gauge, map[]) && Now(t).calls == map[1 := Done, 2 := Done]
    ensures var l, k0 := LabelOf(nodes[n]), t.run[0];
      && Drift(Now(t), OfCell(l.tier, l.status)) == Drift(k0, OfCell(l.tier, l.status)) - 1.0
      && Drift(Now(t), OfCell(l.tier, Suspended)) == Drift(k0, OfCell(l.tier, Suspended)) + 1.0
  {
    hide Drift, Listed, Has;
    var l := LabelOf(nodes[n]);
    t := Story([State(nodes, gauge, map[])], []);
    t := Open(t, 1, Reading(n, Suspended), Updating(n, Suspended, Some(l)));
    t := Open(t, 2, Reading(n, Suspended), Updating(n, Suspended, Some(l)));
    t := SuspendBy(t, 1, n, l);
    t := SuspendBy(t, 2, n, l);
    t := Settle(t, 1);
    t := Settle(t, 2);
    assert Now(t).calls == map[1 := Done, 2 := Done];
    MovedHas(l, Label(l.tier, Suspended));
  }

  lemma MovedHas(l: Label, m: Label)
    requires l != m
    ensures Has(OfCell(l.tier, l.status), Some(l)) == 1 && Has(OfCell(l.tier, l.status), Some(m)) == 0
    ensures Has(OfCell(m.tier, m.status), Some(l)) == 0 && Has(OfCell(m.tier, m.status), Some(m)) == 1
  {
  }

  // ------------------------------------------------ two registrations

  /** The row an upsert overwrites less the row it had read. */
  ghost function Shift(s: State, call: Call, k: Class): real
    requires call.Upserting?
  {
    (Has(k, Holder(s.nodes, call.key)) - Has(k, call.prior)) as real
  }

  lemma RegisterBy(t: Story, c: CallId, n: NodeId) returns (t': Story)
    requires Happens(t) && c in Now(t).calls && Now(t).calls[c].Upserting? && Now(t).calls[c].tier != UnlistedTier
    requires IsTarget(Now(t).nodes, Now(t).calls[c].key, Now(t).calls[c].newId, n)
    ensures Happens(t') && t'.run != [] && t'.run[0] == t.run[0] && Now(t') == AfterUpserting(Now(t), c, n)
    ensures forall k :: Drift(Now(t'), k) == Drift(Now(t), k) + Shift(Now(t), Now(t).calls[c], k)
  {
    hide Drift, Listed, Has, Holder, IsTarget;
    RunWf(t.run, t.acts, |t.run| - 1);
    t' := Write(t, c, AfterUpserting(Now(t), c, n));
    forall k
      ensures Drift(Now(t'), k) == Drift(Now(t), k) + Shift(Now(t), Now(t).calls[c], k)
    {
      UpsertDrift(Now(t), c, n, k);
    }
  }

  /** From any table without the key and with no call under way: two registrations of the key that both start
      before either writes leave one node and count it twice, in its cell and in its tier. */
  lemma RegistrationRace(nodes: Nodes, gauge: Gauge, key: string, tier: Tier, id: NodeId, other: NodeId) returns (t: Story)
    requires Listed(nodes) && (forall m :: !Owns(nodes, m, key)) && tier != UnlistedTier && id !in nodes
    ensures Happens(t) && t.run != [] && t.run[0] == State(nodes, gauge, map[]) && Now(t).calls == map[1 := Done, 2 := Done]
    ensures Now(t).nodes == nodes[id := Node(key, tier, Pending)]
    ensures Drift(Now(t), OfTier(tier)) == Drift(t.run[0], OfTier(tier)) + 1.0
    ensures Drift(Now(t), OfCell(tier, Pending)) == Drift(t.run[0], OfCell(tier, Pending)) + 1.0
  {
    hide Drift, Listed, Has;
    t := Story([State(nodes, gauge, map[])], []);
    t := Open(t, 1, Preparing(key, tier, id), Upserting(key, tier, id, None));
    t := Open(t, 2, Preparing(key, tier, other), Upserting(key, tier, other, None));
    t := RegisterBy(t, 1, id);
    RunWf(t.run, t.acts, |t.run| - 1);
    assert Owns(Now(t).nodes, id, key);
    HolderNow(Now(t).nodes, id, key);
    t := RegisterBy(t, 2, id);
    t := Settle(t, 1);
    t := Settle(t, 2);
    assert Now(t).calls == map[1 := Done, 2 := Done];
    NoneHas(OfTier(tier));
    NoneHas(OfCell(tier, Pending));
    OwnHas(Label(tier, Pending));
  }

  lemma HolderNow(nodes: Nodes, n: NodeId, key: string)
    requires Listed(nodes) && Owns(nodes, n, key)
    ensures Holder(nodes, key) == Some(LabelOf(nodes[n]))
  {
    HolderIs(nodes, n, key);
  }

  lemma OwnHas(l: Label)
    ensures Has(OfTier(l.tier), Some(l)) == 1 && Has(OfCell(l.tier, l.status), Some(l)) == 1
  {
  }
}
