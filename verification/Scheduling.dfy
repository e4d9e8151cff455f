/**
 Node selection and reward (internal/scheduler/scheduler.go) over exact reals, with the reliability
 score they use (internal/registry/registry.go). Random jitter is a parameter.
 */
module Scheduling {
  import opened Options
  import opened Sums
  import opened Registry
  import StakeSweep

  datatype TaskType = Inference | FLRound | GradientAgg | DataIngest | AuditRepo | EmbedData | UnknownTask

  datatype Candidate = Candidate(node: NodeId, tier: Tier, status: Status, reliability: real, supported: seq<TaskType>)

  function MinTier(task: TaskType): int {
    match task
    case GradientAgg => 2
    case DataIngest => 2
    case UnknownTask => 0
    case _ => 1
  }

  function TaskWeight(task: TaskType): real {
    match task
    case Inference => 1.0
    case FLRound => 3.0
    case GradientAgg => 5.0
    case DataIngest => 2.0
    case AuditRepo => 1.5
    case EmbedData => 1.0
    case UnknownTask => 0.0
  }

  function TierNumber(tier: Tier): int {
    match tier
    case T1 => 1
    case T2 => 2
    case T3 => 3
    case UnlistedTier => 0
  }

  function TierMultiplier(tier: Tier): real {
    match tier
    case T1 => 1.0
    case T2 => 2.5
    case T3 => 8.0
    case UnlistedTier => 0.0
  }

  // ------------------------------------------------ reliability

  function TaskFraction(completed: int, total: int): real {
    if total > 0 then completed as real / total as real else 1.0
  }

  /** Heartbeats received over those due at one a minute, at most 1. */
  function UptimeFraction(heartbeats: int, windowSecs: real): real {
    var expected := windowSecs / 60.0;
    if expected >= 1.0
    then (var uptime := heartbeats as real / expected; if uptime > 1.0 then 1.0 else uptime)
    else 1.0
  }

  /** Task success fraction times uptime fraction, clamped to [0, 1]. */
  function ComputeReliability(completed: int, total: int, heartbeats: int, windowSecs: real): (r: real)
    ensures 0.0 <= r <= 1.0
  {
    var r := TaskFraction(completed, total) * UptimeFraction(heartbeats, windowSecs);
    if r < 0.0 then 0.0 else if r > 1.0 then 1.0 else r
  }

  /** A completed task or a heartbeat more never lowers the score, and the score is 1 exactly when every
      task was completed and every due heartbeat received. */
  lemma ReliabilityRewards(completed: nat, total: nat, heartbeats: nat, windowSecs: real)
    requires completed <= total
    ensures ComputeReliability(completed, total, heartbeats, windowSecs) <= ComputeReliability(completed + 1, total, heartbeats, windowSecs)
    ensures ComputeReliability(completed, total, heartbeats, windowSecs) <= ComputeReliability(completed, total, heartbeats + 1, windowSecs)
    ensures ComputeReliability(completed, total, heartbeats, windowSecs) == 1.0
      <==> completed == total && (windowSecs >= 60.0 ==> heartbeats as real >= windowSecs / 60.0)
  {
    hide TaskFraction, UptimeFraction;
    TaskFractionGrows(completed, total);
    UptimeGrows(heartbeats, windowSecs);
    var f, u := TaskFraction(completed, total), UptimeFraction(heartbeats, windowSecs);
    var f', u' := TaskFraction(completed + 1, total), UptimeFraction(heartbeats + 1, windowSecs);
    ProductGrows(f, f', u);
    ProductGrows(u, u', f);
    assert u * f == f * u && u' * f == f * u' && u * f' == f' * u;
    UnitProduct(f, u);
  }

  /** With tasks and heartbeats within what was due, the score is the product of the two fractions. */
  lemma ReliabilityIs(completed: nat, total: nat, heartbeats: nat, windowSecs: real)
    requires 0 < total && completed <= total && windowSecs >= 60.0 && heartbeats as real * 60.0 <= windowSecs
    ensures ComputeReliability(completed, total, heartbeats, windowSecs) * total as real * windowSecs
      == completed as real * heartbeats as real * 60.0
  {
    hide TaskFraction, UptimeFraction;
    TaskFractionGrows(completed, total);
    UptimeGrows(heartbeats, windowSecs);
    var f, u := TaskFraction(completed, total), UptimeFraction(heartbeats, windowSecs);
    UnitProduct(f, u);
    FractionsAre(completed, total, heartbeats, windowSecs);
    var t, w := total as real, windowSecs;
    assert f * u * t * w == (f * t) * (u * w);
    assert completed as real * (heartbeats as real * 60.0) == completed as real * heartbeats as real * 60.0;
  }

  lemma FractionsAre(completed: nat, total: nat, heartbeats: nat, windowSecs: real)
    requires 0 < total && completed <= total && windowSecs >= 60.0 && heartbeats as real * 60.0 <= windowSecs
    ensures TaskFraction(completed, total) * total as real == completed as real
    ensures UptimeFraction(heartbeats, windowSecs) * windowSecs == heartbeats as real * 60.0
  {
    var e := windowSecs / 60.0;
    assert e * 60.0 == windowSecs;
    var q := heartbeats as real / e;
    assert q * e == heartbeats as real;
    assert q <= 1.0;
    assert q * (e * 60.0) == (q * e) * 60.0;
  }

  lemma TaskFractionGrows(completed: nat, total: nat)
    requires completed <= total
    ensures 0.0 <= TaskFraction(completed, total) <= 1.0
    ensures TaskFraction(completed, total) <= TaskFraction(completed + 1, total)
    ensures TaskFraction(completed, total) == 1.0 <==> completed == total
  {
  }

  lemma UptimeGrows(heartbeats: nat, windowSecs: real)
    ensures 0.0 <= UptimeFraction(heartbeats, windowSecs) <= 1.0
    ensures UptimeFraction(heartbeats, windowSecs) <= UptimeFraction(heartbeats + 1, windowSecs)
    ensures UptimeFraction(heartbeats, windowSecs) == 1.0
      <==> (windowSecs >= 60.0 ==> heartbeats as real >= windowSecs / 60.0)
  {
    var expected := windowSecs / 60.0;
    if expected >= 1.0 {
      assert heartbeats as real / expected <= (heartbeats + 1) as real / expected;
    }
  }

  lemma ProductGrows(a: real, b: real, c: real)
    requires a <= b && c >= 0.0
    ensures a * c <= b * c
  {
  }

  lemma UnitProduct(a: real, b: real)
    requires 0.0 <= a <= 1.0 && 0.0 <= b <= 1.0
    ensures 0.0 <= a * b <= 1.0 && (a * b == 1.0 <==> a == 1.0 && b == 1.0)
  {
    assert a * b <= b by { ProductGrows(a, 1.0, b); }
    assert b * a <= a by { ProductGrows(b, 1.0, a); }
    assert 0.0 * b <= a * b by { ProductGrows(0.0, a, b); }
  }

  // ------------------------------------------------ eligibility

  predicate Supports(supported: seq<TaskType>, task: TaskType) {
    supported == [] || task in supported
  }

  function Eligible(task: TaskType): Candidate -> bool {
    (n: Candidate) => TierNumber(n.tier) >= MinTier(task) && Supports(n.supported, task)
  }

  /** The node supports the type, by naming it or naming none, and its tier is high enough: t2 for aggregating
      gradients and ingesting data, any listed tier for the other types, and any at all for an unknown type. */
  predicate IsEligible(n: Candidate, task: TaskType) {
    && (n.supported == [] || task in n.supported)
    && (task == GradientAgg || task == DataIngest ==> n.tier == T2 || n.tier == T3)
    && (task != UnknownTask ==> n.tier != UnlistedTier)
  }

  method SupportsTaskType(supported: seq<TaskType>, task: TaskType) returns (ok: bool)
    ensures ok <==> supported == [] || task in supported
  {
    if |supported| == 0 {
      return true;
    }
    for i := 0 to |supported|
      invariant task !in supported[..i]
    {
      if supported[i] == task {
        return true;
      }
    }
    return false;
  }

  lemma EligibleKept(nodes: seq<Candidate>, task: TaskType)
    ensures forall n :: n in Filter(nodes, Eligible(task)) <==> n in nodes && IsEligible(n, task)
  {
    forall n: Candidate
      ensures n in Filter(nodes, Eligible(task)) <==> n in nodes && IsEligible(n, task)
    {
      FilterMember(nodes, Eligible(task), n);
    }
  }

  method FilterEligible(nodes: seq<Candidate>, task: TaskType) returns (out: seq<Candidate>)
    ensures out == Filter(nodes, Eligible(task))
    ensures forall n :: n in out <==> n in nodes && IsEligible(n, task)
  {
    EligibleKept(nodes, task);
    hide IsEligible;
    out := [];
    for i := 0 to |nodes|
      invariant out == Filter(nodes[..i], Eligible(task))
    {
      assert nodes[..i + 1] == nodes[..i] + [nodes[i]];
      FilterAppend(nodes[..i], nodes[i], Eligible(task));
      if TierNumber(nodes[i].tier) < MinTier(task) {
        continue;
      }
      var ok := SupportsTaskType(nodes[i].supported, task);
      if !ok {
        continue;
      }
      out := out + [nodes[i]];
    }
    assert nodes[..|nodes|] == nodes;
  }

  // ------------------------------------------------ selection

  /** The score before jitter. */
  function Score(n: Candidate): real {
    n.reliability * TierMultiplier(n.tier)
  }

  /** The reliability of a t1 node, two and a half times that of a t2 node, eight times that of a t3 node. */
  ghost predicate IsScore(x: real, n: Candidate) {
    && (n.tier == T1 ==> x == n.reliability)
    && (n.tier == T2 ==> 2.0 * x == 5.0 * n.reliability)
    && (n.tier == T3 ==> x == 8.0 * n.reliability)
    && (n.tier == UnlistedTier ==> x == 0.0)
  }

  lemma ScoreIs(n: Candidate, x: real)
    ensures IsScore(x, n) <==> x == Score(n)
  {
  }

  /** Jitter of at most five percent either way: u is uniform in [0, 1). */
  function Jittered(score: real, u: real): real {
    score * (0.95 + u * 0.10)
  }

  ghost predicate UnitJitter(u: nat -> real) {
    forall i :: 0.0 <= u(i) < 1.0
  }

  ghost predicate Rated(nodes: seq<Candidate>) {
    forall i :: 0 <= i < |nodes| ==> nodes[i].reliability >= 0.0
  }

  /** Picks the highest jittered score; the first of the highest wins. */
  method SelectNode(nodes: seq<Candidate>, u: nat -> real) returns (best: nat)
    requires nodes != [] && Rated(nodes) && UnitJitter(u)
    ensures best < |nodes|
    ensures forall i :: 0 <= i < |nodes| ==> Jittered(Score(nodes[i]), u(i)) <= Jittered(Score(nodes[best]), u(best))
    ensures forall i :: 0 <= i < |nodes| ==> 19.0 * Score(nodes[i]) <= 21.0 * Score(nodes[best])
    ensures forall i, x, y :: 0 <= i < |nodes| && IsScore(x, nodes[i]) && IsScore(y, nodes[best]) ==>
      19.0 * x <= 21.0 * y && x * (0.95 + u(i) * 0.10) <= y * (0.95 + u(best) * 0.10)
  {
    hide Jittered, Score, IsScore;
    best := 0;
    var bestScore := -1.0;
    for i := 0 to |nodes|
      invariant best < |nodes|
      invariant i == 0 ==> bestScore == -1.0
      invariant i > 0 ==> best < i && bestScore == Jittered(Score(nodes[best]), u(best))
      invariant forall j :: 0 <= j < i ==> Jittered(Score(nodes[j]), u(j)) <= bestScore
    {
      var score := Jittered(Score(nodes[i]), u(i));
      ScoreNonNegative(nodes[i], u(i));
      if score > bestScore {
        bestScore := score;
        best := i;
      }
    }
    forall i | 0 <= i < |nodes|
      ensures 19.0 * Score(nodes[i]) <= 21.0 * Score(nodes[best])
    {
      NearBest(Score(nodes[i]), u(i), Score(nodes[best]), u(best)) by {
        ScoreNonNegative(nodes[i], u(i));
        ScoreNonNegative(nodes[best], u(best));
      }
    }
    SelectionMeans(nodes, u, best);
  }

  lemma SelectionMeans(nodes: seq<Candidate>, u: nat -> real, best: nat)
    requires best < |nodes|
    requires forall i :: 0 <= i < |nodes| ==> Jittered(Score(nodes[i]), u(i)) <= Jittered(Score(nodes[best]), u(best))
    requires forall i :: 0 <= i < |nodes| ==> 19.0 * Score(nodes[i]) <= 21.0 * Score(nodes[best])
    ensures forall i, x, y :: 0 <= i < |nodes| && IsScore(x, nodes[i]) && IsScore(y, nodes[best]) ==>
      19.0 * x <= 21.0 * y && x * (0.95 + u(i) * 0.10) <= y * (0.95 + u(best) * 0.10)
  {
    hide Score, IsScore;
    forall i, x, y | 0 <= i < |nodes| && IsScore(x, nodes[i]) && IsScore(y, nodes[best])
      ensures 19.0 * x <= 21.0 * y && x * (0.95 + u(i) * 0.10) <= y * (0.95 + u(best) * 0.10)
    {
      ScoreIs(nodes[i], x);
      ScoreIs(nodes[best], y);
    }
  }

  lemma ScoreNonNegative(n: Candidate, u: real)
    requires n.reliability >= 0.0 && u >= 0.0
    ensures Score(n) >= 0.0 && Jittered(Score(n), u) >= 0.0
  {
    assert TierMultiplier(n.tier) >= 0.0;
    assert Score(n) >= 0.0;
    assert 0.95 + u * 0.10 >= 0.0;
  }

  /** Winning with the most favourable jitter against the least favourable still takes 19/21 of the score. */
  lemma NearBest(x: real, u: real, best: real, v: real)
    requires 0.0 <= u && v <= 1.0 && x >= 0.0 && best >= 0.0
    requires Jittered(x, u) <= Jittered(best, v)
    ensures 19.0 * x <= 21.0 * best
  {
    assert x * (0.95 + u * 0.10) >= x * 0.95 by {
      assert x * (u * 0.10) >= 0.0;
    }
    assert best * (0.95 + v * 0.10) <= best * 1.05 by {
      assert best * ((1.0 - v) * 0.10) >= 0.0;
    }
  }

  // ------------------------------------------------ reward

  const BASE_RATE_SATS: real := 10.0

  /** Conversion to an integer drops the fraction, toward zero. */
  function Truncate(x: real): int {
    if x >= 0.0 then x.Floor else -((-x).Floor)
  }

  lemma TruncateMonotone(x: real, y: real)
    requires x <= y
    ensures Truncate(x) <= Truncate(y)
  {
    if x >= 0.0 {
      StakeSweep.FloorMonotone(x, y);
    } else {
      StakeSweep.FloorMonotone(0.0, -x);
      if y < 0.0 {
        StakeSweep.FloorMonotone(-y, -x);
      } else {
        StakeSweep.FloorMonotone(0.0, y);
      }
    }
  }

  /** The reward before the stake bonus. */
  function Rate(tier: Tier, task: TaskType): (c: real)
    ensures c >= 0.0
  {
    BASE_RATE_SATS * TierMultiplier(tier) * TaskWeight(task)
  }

  function Amount(tier: Tier, task: TaskType, bonus: real): real {
    Rate(tier, task) * bonus
  }

  function RewardFor(tier: Tier, task: TaskType, bonus: real): int {
    Truncate(Amount(tier, task, bonus))
  }

  /** Satoshis for a task of weight one. */
  function TierRate(tier: Tier): real {
    if tier == T1 then 10.0 else if tier == T2 then 25.0 else if tier == T3 then 80.0 else 0.0
  }

  function TaskRate(task: TaskType): real {
    if task == FLRound then 3.0 else if task == GradientAgg then 5.0 else if task == DataIngest then 2.0
    else if task == AuditRepo then 1.5 else if task == UnknownTask then 0.0 else 1.0
  }

  lemma RateIs(tier: Tier, task: TaskType)
    ensures Rate(tier, task) == TierRate(tier) * TaskRate(task)
  {
    match tier
    case T1 =>
    case T2 =>
    case T3 =>
    case UnlistedTier =>
  }

  /** Ten satoshis times 1, 2.5 or 8 for the tier, times the weight of the work, times the bonus, with the fraction
      dropped toward zero. */
  ghost predicate IsReward(r: int, tier: Tier, task: TaskType, bonus: real) {
    var exact := TierRate(tier) * TaskRate(task) * bonus;
    && (exact >= 0.0 ==> r as real <= exact < r as real + 1.0)
    && (exact <= 0.0 ==> r as real - 1.0 < exact <= r as real)
  }

  lemma RewardIs(tier: Tier, task: TaskType, bonus: real)
    ensures IsReward(RewardFor(tier, task, bonus), tier, task, bonus)
  {
    hide Rate, TierRate, TaskRate, Truncate;
    RateIs(tier, task);
    Truncates(Amount(tier, task, bonus));
  }

  lemma Truncates(x: real)
    ensures x >= 0.0 ==> Truncate(x) as real <= x < Truncate(x) as real + 1.0
    ensures x <= 0.0 ==> Truncate(x) as real - 1.0 < x <= Truncate(x) as real
  {
    if x < 0.0 {
      var n := (-x).Floor;
      assert n as real <= -x < n as real + 1.0;
    }
  }

  lemma RewardMonotone(tier: Tier, task: TaskType, a: real, b: real)
    requires a <= b
    ensures RewardFor(tier, task, a) <= RewardFor(tier, task, b)
  {
    hide Truncate, Amount;
    AmountMonotone(tier, task, a, b);
    TruncateMonotone(Amount(tier, task, a), Amount(tier, task, b));
  }

  lemma AmountMonotone(tier: Tier, task: TaskType, a: real, b: real)
    requires a <= b
    ensures Amount(tier, task, a) <= Amount(tier, task, b)
  {
    ProductGrows(a, b, Rate(tier, task));
  }

  /** Through bonus, stored thousandths and truncation, a larger verified stake in a tier never earns
      less, and every reward lies between those for multipliers 1 and 2. */
  lemma RewardFollowsStake(tier: Tier, task: TaskType, a: int, b: int, min: int)
    requires min > 0 && a <= b
    ensures var ra := RewardFor(tier, task, StakeSweep.Thousandths(StakeSweep.ComputeBonus(a, min)));
      var rb := RewardFor(tier, task, StakeSweep.Thousandths(StakeSweep.ComputeBonus(b, min)));
      RewardFor(tier, task, 1.0) <= ra <= rb <= RewardFor(tier, task, 2.0)
  {
    hide RewardFor, StakeSweep.Thousandths, StakeSweep.ComputeBonus;
    StakeSweep.StoredBonus(a, b, min);
    StakeSweep.StoredBonus(b, b, min);
    var x, y := StakeSweep.Thousandths(StakeSweep.ComputeBonus(a, min)), StakeSweep.Thousandths(StakeSweep.ComputeBonus(b, min));
    RewardMonotone(tier, task, 1.0, x);
    RewardMonotone(tier, task, x, y);
    RewardMonotone(tier, task, y, 2.0);
  }

  // ------------------------------------------------ scheduling

  datatype Assignment = Assignment(node: NodeId, task: TaskType, reward: int)

  datatype Outcome = ListingFailed | NoneEligible | NotPersisted | Assigned(assignment: Assignment)

  function IsActive(): Candidate -> bool {
    (n: Candidate) => n.status == Active
  }

  /** The most reliable first. */
  ghost predicate Ranked(s: seq<Candidate>) {
    forall i, j :: 0 <= i < j < |s| ==> s[i].reliability >= s[j].reliability
  }

  function Rank(s: seq<Candidate>, n: Candidate): seq<Candidate> {
    if s == [] || s[|s| - 1].reliability >= n.reliability then s + [n]
    else Rank(s[..|s| - 1], n) + [s[|s| - 1]]
  }

  lemma AppendRanked(r: seq<Candidate>, m: multiset<Candidate>, x: Candidate)
    requires Ranked(r) && multiset(r) == m && forall y :: y in m ==> y.reliability >= x.reliability
    ensures Ranked(r + [x]) && multiset(r + [x]) == m + multiset{x}
  {
    forall i | 0 <= i < |r|
      ensures r[i].reliability >= x.reliability
    {
      assert r[i] in multiset(r);
    }
  }

  lemma DropLast(s: seq<Candidate>)
    requires Ranked(s) && s != []
    ensures var k := |s| - 1;
      && Ranked(s[..k]) && multiset(s) == multiset(s[..k]) + multiset{s[k]}
      && forall y :: y in multiset(s) ==> y.reliability >= s[k].reliability
  {
    var k := |s| - 1;
    assert s == s[..k] + [s[k]];
    forall y | y in multiset(s)
      ensures y.reliability >= s[k].reliability
    {
      var i :| 0 <= i < |s| && s[i] == y;
    }
  }

  lemma {:induction false} RankRanks(s: seq<Candidate>, n: Candidate)
    requires Ranked(s)
    ensures Ranked(Rank(s, n)) && multiset(Rank(s, n)) == multiset(s) + multiset{n}
    decreases |s|
  {
    hide Ranked;
    if s == [] {
      AppendRanked(s, multiset{}, n);
    } else {
      var k := |s| - 1;
      DropLast(s);
      if s[k].reliability >= n.reliability {
        AppendRanked(s, multiset(s), n);
      } else {
        RankRanks(s[..k], n);
        AppendRanked(Rank(s[..k], n), multiset(s[..k]) + multiset{n}, s[k]);
      }
    }
  }

  /** The active nodes, the most reliable first. */
  method ListActive(nodes: seq<Candidate>) returns (listed: seq<Candidate>)
    ensures multiset(listed) == multiset(Filter(nodes, IsActive())) && Ranked(listed)
  {
    hide Rank, Ranked;
    listed := [];
    EmptyRanked();
    for i := 0 to |nodes|
      invariant multiset(listed) == multiset(Filter(nodes[..i], IsActive())) && Ranked(listed)
    {
      assert nodes[..i + 1] == nodes[..i] + [nodes[i]];
      FilterAppend(nodes[..i], nodes[i], IsActive());
      if nodes[i].status == Active {
        RankRanks(listed, nodes[i]);
        listed := Rank(listed, nodes[i]);
      }
    }
    assert nodes[..|nodes|] == nodes;
  }

  lemma EmptyRanked()
    ensures Ranked([])
  {
  }

  predicate Candidates(nodes: seq<Candidate>, task: TaskType, n: Candidate) {
    n in nodes && n.status == Active && IsEligible(n, task)
  }

  /** Schedules a task over all nodes, if the active ones can be listed; `persistOk` says that the assignment
      could be stored. */
  method Schedule(nodes: seq<Candidate>, listOk: bool, task: TaskType, u: nat -> real, bonusOf: NodeId -> real, persistOk: bool)
      returns (o: Outcome, chosen: Option<Candidate>)
    requires UnitJitter(u) && Rated(nodes)
    ensures o.ListingFailed? <==> !listOk
    ensures o.NoneEligible? <==> listOk && forall n :: !Candidates(nodes, task, n)
    ensures chosen.None? <==> o.ListingFailed? || o.NoneEligible?
    ensures chosen.Some? ==>
      (Candidates(nodes, task, chosen.value)
       && o == (if persistOk
                then Assigned(Assignment(chosen.value.node, task, RewardFor(chosen.value.tier, task, bonusOf(chosen.value.node))))
                else NotPersisted)
       && (o.Assigned? ==> IsReward(o.assignment.reward, chosen.value.tier, task, bonusOf(chosen.value.node)))
       && forall n, x, y :: Candidates(nodes, task, n) && IsScore(x, n) && IsScore(y, chosen.value) ==> 19.0 * x <= 21.0 * y)
  {
    hide Score, Eligible, Filter, Ranked, IsEligible, IsScore, IsReward, RewardFor;
    if !listOk {
      return ListingFailed, None;
    }
    var listed := ListActive(nodes);
    var eligible := FilterEligible(listed, task);
    forall n: Candidate
      ensures n in eligible <==> Candidates(nodes, task, n)
    {
      FilterMember(nodes, IsActive(), n);
      assert n in listed <==> n in multiset(listed);
    }
    if |eligible| == 0 {
      return NoneEligible, None;
    }
    assert eligible[0] in eligible;
    assert Rated(eligible) by {
      forall i | 0 <= i < |eligible|
        ensures eligible[i].reliability >= 0.0
      {
        assert eligible[i] in eligible;
      }
    }
    var k := SelectNode(eligible, u);
    var node := eligible[k];
    assert node in eligible;
    var reward := RewardFor(node.tier, task, bonusOf(node.node));
    RewardIs(node.tier, task, bonusOf(node.node));
    if !persistOk {
      return NotPersisted, Some(node);
    }
    return Assigned(Assignment(node.node, task, reward)), Some(node);
  }
}
