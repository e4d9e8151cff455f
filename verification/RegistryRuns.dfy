/**
 The node gauge over every interleaving of the registry's operations (internal/registry/registry.go) and the
 stake verifier's updates (internal/stake/verifier.go): which steps shift it, and what holds when none does.
 */
module RegistryRuns {
  import opened Sums
  import opened Registry
  import opened RegistryRaces

  /** What a class needs of an action: that a registration overwrites the row it read, as far as the class can
      tell; and for a cell, that no update bypasses the gauge and every status update acts on a fresh read. */
  ghost predicate Sound(s: State, a: Action, k: Class) {
    match a
    case Start(_, _) => true
    case Bypass(n, status) => k.OfCell? && n in s.nodes ==> s.nodes[n].status == status
    case Advance(c) =>
      c in s.calls ==>
        match s.calls[c]
        case Upserting(key, _, _, prior) =>
          if k.OfTier? then TierOf(prior) == TierOf(Holder(s.nodes, key)) else prior == Holder(s.nodes, key)
        case Updating(n, status, prior) => k.OfCell? && n in s.nodes ==> Fresh(prior, LabelOf(s.nodes[n]), status)
        case _ => true
  }

  lemma UpdateStep(s: State, c: CallId, s': State, k: Class)
    requires Wf(s) && c in s.calls && CallStep(s, c, s') && s.calls[c].Updating? && Sound(s, Advance(c), k)
    ensures Drift(s', k) == Drift(s, k)
  {
    hide Drift, Listed;
    var call := s.calls[c];
    if s'.calls[c] == Done && s'.nodes == s.nodes {
      QuietStep(s, c, Done, k);
    } else {
      UpdateDrift(s, c, k);
      if k.OfCell? {
        FreshMoves(call.prior, LabelOf(s.nodes[call.n]), call.status);
      }
    }
  }

  lemma UpsertStep(s: State, c: CallId, s': State, k: Class)
    requires Wf(s) && c in s.calls && CallStep(s, c, s') && s.calls[c].Upserting? && Sound(s, Advance(c), k)
    ensures Drift(s', k) == Drift(s, k)
  {
    hide Drift, Listed, Holder;
    var call := s.calls[c];
    if s'.calls[c] == Done {
      QuietStep(s, c, Done, k);
    } else {
      var x := Node(call.key, call.tier, Pending);
      var n :| IsTarget(s.nodes, call.key, call.newId, n)
        && Continues(s, c, s.nodes[n := x], s.gauge, AfterWrite(call.prior, LabelOf(x)), s');
      UpsertDrift(s, c, n, k);
      SameHas(call.prior, Holder(s.nodes, call.key));
    }
  }

  lemma ActivateStep(s: State, c: CallId, s': State, k: Class)
    requires Wf(s) && c in s.calls && CallStep(s, c, s') && s.calls[c].Activating?
    ensures Drift(s', k) == Drift(s, k)
  {
    hide Drift, Wf;
    if s'.calls[c] == Done {
      QuietStep(s, c, Done, k);
    } else {
      ActivateDrift(s, c, s.calls[c].n, k);
    }
  }

  lemma BypassStep(s: State, n: NodeId, status: Status, k: Class)
    requires Sound(s, Bypass(n, status), k)
    ensures Drift(s.(nodes := SetStatus(s.nodes, n, status)), k) == Drift(s, k)
  {
    hide CountOf, Level, Owed;
    if n in s.nodes {
      CountReplaced(s.nodes, n, s.nodes[n].(status := status), InClass(k));
    }
  }

  /** A sound step shifts nothing. */
  lemma StepDrift(s: State, a: Action, s': State, k: Class)
    requires Wf(s) && Does(s, a, s') && Sound(s, a, k)
    ensures Drift(s', k) == Drift(s, k)
  {
    hide Drift, Wf, Sound, Holder;
    match a
    case Start(c, call) => QuietStep(s, c, call, k);
    case Bypass(n, status) => BypassStep(s, n, status, k);
    case Advance(c) =>
      match s.calls[c] {
        case Preparing(_, _, _) => QuietStep(s, c, s'.calls[c], k);
        case Upserting(_, _, _, _) => UpsertStep(s, c, s', k);
        case Activating(_) => ActivateStep(s, c, s', k);
        case Reading(_, _) => QuietStep(s, c, s'.calls[c], k);
        case Updating(_, _, _) => UpdateStep(s, c, s', k);
        case _ => GaugeStep(s, c, s', k);
      }
  }

  lemma ReplacedListed(nodes: Nodes, n: NodeId, x: Node)
    requires Listed(nodes) && x.tier != UnlistedTier && x.status != UnlistedStatus
    requires forall m :: m in nodes && nodes[m].key == x.key ==> m == n
    ensures Listed(nodes[n := x])
  {
  }

  lemma UpsertListed(s: State, c: CallId, s': State)
    requires Listed(s.nodes) && c in s.calls && s.calls[c].Upserting? && CallStep(s, c, s')
    ensures Listed(s'.nodes) && s.nodes.Keys <= s'.nodes.Keys
  {
    hide Listed;
    var call := s.calls[c];
    var x := Node(call.key, call.tier, Pending);
    if s'.nodes != s.nodes {
      var n :| s'.nodes == s.nodes[n := x] && IsTarget(s.nodes, call.key, call.newId, n);
      TargetOwns(s.nodes, call.key, call.newId, n);
      ReplacedListed(s.nodes, n, x);
    }
  }

  lemma TargetOwns(nodes: Nodes, key: string, newId: NodeId, n: NodeId)
    requires Listed(nodes) && IsTarget(nodes, key, newId, n)
    ensures forall m :: m in nodes && nodes[m].key == key ==> m == n
  {
    assert forall m :: m in nodes && nodes[m].key == key ==> Owns(nodes, m, key);
  }

  lemma StepListed(s: State, a: Action, s': State)
    requires Listed(s.nodes) && Does(s, a, s')
    ensures Listed(s'.nodes) && s.nodes.Keys <= s'.nodes.Keys
  {
    hide BumpLabel, Holder;
    if a.Advance? && s.calls[a.c].Upserting? {
      UpsertListed(s, a.c, s');
    }
  }

  lemma OwnListed(s: State, c: CallId, s': State)
    requires Wf(s) && c in s.calls && CallStep(s, c, s')
    ensures c in s'.calls && CallListed(s'.nodes, s'.calls[c]) && s'.calls == s.calls[c := s'.calls[c]]
  {
    hide BumpLabel, UniqueKeys, IsTarget;
  }

  lemma StepWf(s: State, a: Action, s': State)
    requires Wf(s) && Does(s, a, s')
    ensures Wf(s')
  {
    hide CallStep, Listed;
    StepListed(s, a, s');
    if a.Advance? {
      OwnListed(s, a.c, s');
    }
  }

  // ------------------------------------------------ every run

  lemma {:induction false} RunWf(run: seq<State>, acts: seq<Action>, i: nat)
    requires IsRun(run, acts) && i < |run|
    ensures Wf(run[i])
    decreases i
  {
    hide Does, Listed;
    if i > 0 {
      RunWf(run, acts, i - 1);
      StepWf(run[i - 1], acts[i - 1], run[i]);
    }
  }

  /** Over sound steps a class drifts by nothing. */
  lemma {:induction false} RunDrift(run: seq<State>, acts: seq<Action>, k: Class, i: nat, j: nat)
    requires IsRun(run, acts) && i <= j < |run| && forall m :: i <= m < j ==> Sound(run[m], acts[m], k)
    ensures Drift(run[j], k) == Drift(run[i], k)
    decreases j
  {
    hide Drift, Does, Sound, Wf;
    if i < j {
      RunDrift(run, acts, k, i, j - 1);
      RunWf(run, acts, j - 1);
      StepDrift(run[j - 1], acts[j - 1], run[j], k);
    }
  }

  /** No call is between its row and the gauge. */
  ghost predicate Settled(s: State) {
    forall c :: c in s.calls ==> !s.calls[c].Moving? && !s.calls[c].Adding?
  }

  lemma SettledOwesNothing(s: State, k: Class)
    requires Settled(s)
    ensures Owed(s.calls, k) == 0.0
  {
    var zero: CallId -> real := c => 0.0;
    SumOverScaled(s.calls.Keys, DebtOf(s.calls, k), zero, 0.0);
  }

  lemma SameCount(nodes: Nodes, p: Node -> bool, q: Node -> bool)
    requires forall x :: p(x) <==> q(x)
    ensures CountOf(nodes, p) == CountOf(nodes, q)
  {
    assert Where(nodes, p) == Where(nodes, q);
  }

  /** At rest, a class has not drifted exactly when its level is its number of nodes. */
  lemma DriftAtRest(s: State, k: Class)
    requires Settled(s)
    ensures Drift(s, k) == 0.0 <==> Level(s.gauge, k) == CountOf(s.nodes, InClass(k))
  {
    hide Level, Owed, CountOf;
    SettledOwesNothing(s, k);
  }

  ghost function LedgerOf(s: State): Ledger {
    Ledger(s.nodes, s.gauge)
  }

  lemma TiersAtRest(s: State)
    requires Settled(s)
    ensures TierAgrees(LedgerOf(s)) <==> forall t :: Drift(s, OfTier(t)) == 0.0
  {
    hide Drift, CountOf;
    forall t
      ensures Drift(s, OfTier(t)) == 0.0 <==> TierSum(s.gauge, t) == CountOf(s.nodes, InTier(t))
    {
      DriftAtRest(s, OfTier(t));
      SameCount(s.nodes, InClass(OfTier(t)), InTier(t));
    }
  }

  lemma CellsAtRest(s: State)
    requires Settled(s)
    ensures Agrees(LedgerOf(s)) <==> forall t, u :: Drift(s, OfCell(t, u)) == 0.0
  {
    hide Drift, CountOf;
    forall t, u
      ensures Drift(s, OfCell(t, u)) == 0.0 <==> Cell(s.gauge, t, u) == CountOf(s.nodes, InCell(t, u))
    {
      DriftAtRest(s, OfCell(t, u));
      SameCount(s.nodes, InClass(OfCell(t, u)), InCell(t, u));
    }
  }

  /** In every interleaving of registrations, activations, status updates with reads however stale, and updates
      that bypass the gauge, in which each registration overwrites a row of the tier it read: whenever no call
      is between its row and the gauge, each tier's total is its number of nodes. */
  lemma TierTotalsSurviveRaces(run: seq<State>, acts: seq<Action>, i: nat)
    requires IsRun(run, acts) && i < |run| && TierAgrees(LedgerOf(run[0]))
    requires forall j, t :: 0 <= j < i ==> Sound(run[j], acts[j], OfTier(t))
    ensures Settled(run[i]) ==> TierAgrees(LedgerOf(run[i]))
  {
    hide Drift, Does, TierAgrees, Listed, Sound;
    TiersAtRest(run[0]);
    forall t
      ensures Drift(run[i], OfTier(t)) == 0.0
    {
      RunDrift(run, acts, OfTier(t), 0, i);
    }
    if Settled(run[i]) {
      TiersAtRest(run[i]);
    }
  }

  /** In every interleaving whose registrations and status updates act on what they read and where nothing
      bypasses the gauge, each cell is its number of nodes whenever no call is between its row and the gauge. */
  lemma CellsSurviveFreshRaces(run: seq<State>, acts: seq<Action>, i: nat)
    requires IsRun(run, acts) && i < |run| && Agrees(LedgerOf(run[0]))
    requires forall j, t, u :: 0 <= j < i ==> Sound(run[j], acts[j], OfCell(t, u))
    ensures Settled(run[i]) ==> Agrees(LedgerOf(run[i]))
  {
    hide Drift, Does, Agrees, Listed, Sound;
    CellsAtRest(run[0]);
    forall t, u
      ensures Drift(run[i], OfCell(t, u)) == 0.0
    {
      RunDrift(run, acts, OfCell(t, u), 0, i);
    }
    if Settled(run[i]) {
      CellsAtRest(run[i]);
    }
  }

  /** A class that has drifted is wrong for good: however sound the run goes on, whenever no call is between its
      row and the gauge, its level is not its number of nodes. */
  lemma DriftIsForGood(run: seq<State>, acts: seq<Action>, k: Class, i: nat, j: nat)
    requires IsRun(run, acts) && i <= j < |run| && Drift(run[i], k) != 0.0
    requires forall m :: i <= m < j ==> Sound(run[m], acts[m], k)
    ensures Settled(run[j]) ==> Level(run[j].gauge, k) != CountOf(run[j].nodes, InClass(k))
  {
    hide Drift, Does, Sound, Level, CountOf;
    RunDrift(run, acts, k, i, j);
    if Settled(run[j]) {
      DriftAtRest(run[j], k);
    }
  }
}
