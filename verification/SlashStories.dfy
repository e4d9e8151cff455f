/**
 Automatic slashing with calls interleaved (internal/stake/verifier.go). Two calls that record a signal at the
 same time can both find the threshold reached and both slash, over the same signals: so under interleaving the
 slashes are earned exactly when the threshold is at most one. What always holds is one signal per slash.
 */
module SlashStories {
  import opened Options
  import opened Sums
  import opened Slashing
  import opened SlashDriver
  import Registry
  import StakeSweep

  // ------------------------------------------------ one signal per automatic slash, always

  /** On the way to an automatic event that is not recorded yet. */
  predicate Pursuing(pc: Pc) {
    (pc.FetchingChannel? || pc.ClosingChannel? || pc.InsertingEvent?) && pc.automatic
  }

  ghost function Pursuits(s: State): set<CallId> {
    set c | c in s.calls && Pursuing(s.calls[c])
  }

  ghost predicate Backed(s: State) {
    |AutomaticEvents(s)| + |Pursuits(s)| <= |s.signals|
  }

  /** Who pursues after call c has moved on to pc. */
  lemma PursuitsMoved(s: State, s': State, c: CallId, pc: Pc)
    requires s'.calls == s.calls[c := pc]
    ensures Pursuits(s') == if Pursuing(pc) then Pursuits(s) + {c} else Pursuits(s) - {c}
  {
  }

  lemma PursuitsCount(s: State, s': State, c: CallId, pc: Pc)
    requires s'.calls == s.calls[c := pc]
    ensures |Pursuits(s')| <= |Pursuits(s)| + (if Pursuing(pc) then 1 else 0)
    ensures c in s.calls && Pursuing(s.calls[c]) && Pursuing(pc) ==> |Pursuits(s')| == |Pursuits(s)|
    ensures c in s.calls && Pursuing(s.calls[c]) && !Pursuing(pc) ==> |Pursuits(s')| == |Pursuits(s)| - 1
  {
    PursuitsMoved(s, s', c, pc);
    assert c in Pursuits(s) ==> Pursuits(s) + {c} == Pursuits(s);
    assert |Pursuits(s) - {c}| <= |Pursuits(s)|;
  }

  /** A call's step in the terms that matter here. */
  lemma StepShape(threshold: int, s: State, c: CallId, s': State)
    requires c in s.calls && CallStep(threshold, s, c, s')
    ensures c in s'.calls && s'.calls == s.calls[c := s'.calls[c]]
    ensures |s'.signals| == |s.signals| + if s.calls[c].Recording? then 1 else 0
    ensures Pursuing(s'.calls[c]) ==> s.calls[c].Recording? || Pursuing(s.calls[c])
  {
    hide Filter, Unlinked, LinkAll, CallStep;
    if s.calls[c].Recording? || s.calls[c].Linking? {
      SignalShape(threshold, s, c, s');
    } else {
      PlainCall(threshold, s, c, s');
      PursuitShape(threshold, s, c, s');
    }
  }

  lemma SignalShape(threshold: int, s: State, c: CallId, s': State)
    requires c in s.calls && CallStep(threshold, s, c, s') && (s.calls[c].Recording? || s.calls[c].Linking?)
    ensures c in s'.calls && s'.calls == s.calls[c := s'.calls[c]]
    ensures |s'.signals| == |s.signals| + if s.calls[c].Recording? then 1 else 0
    ensures s.calls[c].Linking? ==> s'.calls[c] == Done
  {
    hide Filter, Unlinked, LinkAll;
  }

  lemma PursuitShape(threshold: int, s: State, c: CallId, s': State)
    requires c in s.calls && CallStep(threshold, s, c, s') && c in s'.calls
    ensures Pursuing(s'.calls[c]) ==> s.calls[c].Recording? || Pursuing(s.calls[c])
  {
    hide Filter, Unlinked, SetNode, SetStake, DegradeStake, LinkAll;
  }

  lemma EventShape(threshold: int, s: State, c: CallId, s': State)
    requires c in s.calls && CallStep(threshold, s, c, s') && c in s'.calls
    ensures s.calls[c].InsertingEvent? ==>
      !Pursuing(s'.calls[c]) && s'.calls[c].SuspendingNode? && s'.calls[c].e !in s.events
      && s'.events == s.events[s'.calls[c].e := SlashEvent(s.calls[c].n, s.calls[c].channel, s.calls[c].automatic)]
    ensures !s.calls[c].InsertingEvent? ==> s'.events == s.events
  {
    hide Filter, Unlinked, SetNode, SetStake, DegradeStake, LinkAll;
  }

  lemma StepBacked(threshold: int, s: State, c: CallId, s': State)
    requires c in s.calls && CallStep(threshold, s, c, s') && Backed(s)
    ensures Backed(s')
  {
    hide CallStep, Pursuits;
    StepShape(threshold, s, c, s');
    EventShape(threshold, s, c, s');
    PursuitsCount(s, s', c, s'.calls[c]);
    if s.calls[c].InsertingEvent? {
      var e := s'.calls[c].e;
      assert AutomaticEvents(s') == if s.calls[c].automatic then AutomaticEvents(s) + {e} else AutomaticEvents(s);
    } else {
      assert AutomaticEvents(s') == AutomaticEvents(s);
    }
  }

  /** In every interleaving, with calls that stop anywhere, there are at least as many signals as automatic
      slashing events. */
  lemma {:induction false} OneSignalEach(threshold: int, run: seq<State>, acts: seq<Action>, i: nat)
    requires IsRun(threshold, run, acts) && i < |run|
    ensures Backed(run[i])
    ensures |AutomaticEvents(run[i])| <= |run[i].signals|
    decreases i
  {
    hide CallStep, Pursuits;
    if i == 0 {
      assert Pursuits(run[0]) == {} by { NoPursuits(run[0]); }
      assert AutomaticEvents(run[0]) == {};
    } else {
      OneSignalEach(threshold, run, acts, i - 1);
      var s, a, s' := run[i - 1], acts[i - 1], run[i];
      assert Does(threshold, s, a, s');
      assert a.Advance? || AutomaticEvents(s') == AutomaticEvents(s);
      match a
      case Advance(c) => StepBacked(threshold, s, c, s');
      case Start(c, pc) => PursuitsCount(s, s', c, pc);
      case Stop(c) => PursuitsCount(s, s', c, Done);
      case _ => SamePursuits(s, s');
    }
  }

  lemma NoPursuits(s: State)
    requires s.calls == map[]
    ensures Pursuits(s) == {}
  {
  }

  lemma SamePursuits(s: State, s': State)
    requires s'.calls == s.calls
    ensures Pursuits(s') == Pursuits(s)
  {
  }

  // ------------------------------------------------ a story of two slashes over the same signals

  datatype Story = Story(run: seq<State>, acts: seq<Action>)

  ghost predicate Happens(threshold: int, t: Story) {
    IsRun(threshold, t.run, t.acts)
  }

  ghost function Now(t: Story): State
    requires t.run != []
  {
    t.run[|t.run| - 1]
  }

  lemma Do(threshold: int, t: Story, a: Action, s: State) returns (t': Story)
    requires Happens(threshold, t) && Does(threshold, Now(t), a, s)
    ensures Happens(threshold, t') && t'.run != [] && Now(t') == s
  {
    hide Does;
    t' := Story(t.run + [s], t.acts + [a]);
    forall i | 0 <= i < |t'.acts|
      ensures Does(threshold, t'.run[i], t'.acts[i], t'.run[i + 1])
    {
      if i < |t.acts| {
        assert t'.run[i] == t.run[i] && t'.run[i + 1] == t.run[i + 1] && t'.acts[i] == t.acts[i];
      }
    }
  }

  const ROW: StakeSweep.Stake := StakeSweep.Stake("channel", 0, 0, 0, 1.0, StakeSweep.Active, 0, None)

  /** The row once the node has registered again, with another channel. */
  const NEXT_ROW: StakeSweep.Stake := ROW.(channel := "next channel")

  function Open(k: nat): seq<Signal> {
    seq(k, i => Signal(0, None))
  }

  lemma {:induction false} AllOpen(k: nat)
    ensures |Filter(Open(k), Unlinked(0))| == k
    ensures Open(k) + [Signal(0, None)] == Open(k + 1)
    decreases k
  {
    if k > 0 {
      AllOpen(k - 1);
      assert Open(k)[..k - 1] == Open(k - 1);
    }
  }

  /** Call c records a signal against node 0, whose count includes it. */
  lemma Record(threshold: int, t: Story, c: CallId, k: nat) returns (t': Story)
    requires Happens(threshold, t) && c !in Now(t).calls && Now(t).signals == Open(k)
    ensures Happens(threshold, t') && t'.run != []
    ensures Now(t') == Now(t).(signals := Open(k + 1), calls := Now(t).calls[c := AfterSignal(threshold, 0, true, k + 1)])
  {
    hide Filter, Unlinked;
    var s := Now(t);
    var next := AfterSignal(threshold, 0, true, k + 1);
    t' := Do(threshold, t, Start(c, Recording(0, true)), s.(calls := s.calls[c := Recording(0, true)]));
    AllOpen(k);
    AllOpen(k + 1);
    assert s.calls[c := Recording(0, true)][c := next] == s.calls[c := next];
    t' := Do(threshold, t', Advance(c), s.(signals := Open(k + 1), calls := s.calls[c := next]));
  }

  /** Node 0 has a stake and k signals, short of the threshold, recorded one after the other. */
  lemma {:induction false} Recorded(threshold: int, k: nat) returns (t: Story)
    requires k < threshold
    ensures Happens(threshold, t) && t.run != []
    ensures Now(t).signals == Open(k) && Now(t).stakes == map[0 := ROW] && Now(t).events == map[] && Now(t).finished == {}
    ensures forall c :: c in Now(t).calls ==> c < k
    decreases k
  {
    if k == 0 {
      var s := State(map[], map[], [], map[], {}, {}, map[]);
      t := Story([s], []);
      t := Do(threshold, t, Persist(0, ROW), s.(stakes := s.stakes[0 := ROW]));
      assert Open(0) == [];
    } else {
      t := Recorded(threshold, k - 1);
      t := Record(threshold, t, k - 1, k - 1);
    }
  }

  /** An undisturbed automatic slash of node 0. */
  lemma SlashSteps(threshold: int, s: State, c: CallId, e: EventId) returns (steps: Steps)
    requires c in s.calls && s.calls[c] == FetchingChannel(0, true) && 0 in s.stakes && e !in s.events
    ensures IsCallRun(threshold, c, steps) && steps[0] == s
    ensures var s' := Last(steps);
      && s'.calls == s.calls[c := Done] && s'.stakes.Keys == s.stakes.Keys && s'.events.Keys == s.events.Keys + {e}
      && s'.signals == LinkAll(s.signals, 0, e) && s'.finished == s.finished + {e}
  {
    hide IsCallRun, Last, Filter, Unlinked, LinkAll, SetNode;
    var channel := s.stakes[0].channel;
    var s1 := With(s, c, ClosingChannel(0, channel, true));
    var s2 := With(s1.(closed := s1.closed + {channel}), c, InsertingEvent(0, channel, true));
    var s3 := With(s2.(events := s2.events[e := SlashEvent(0, channel, true)]), c, SuspendingNode(0, e, true));
    var s4 := With(s3.(nodes := SetNode(s3.nodes, 0, Registry.Suspended)), c, ForceClosing(0, e, true));
    steps := [s];
    StartRun(threshold, c, s);
    steps := Then(threshold, c, steps, s1);
    steps := Then(threshold, c, steps, s2);
    steps := Then(threshold, c, steps, s3);
    steps := Then(threshold, c, steps, s4);
    steps := LastSteps(threshold, s4, c, e, steps);
    assert s4.calls[c := Done] == s.calls[c := Done];
  }

  lemma LastSteps(threshold: int, s: State, c: CallId, e: EventId, before: Steps) returns (steps: Steps)
    requires IsCallRun(threshold, c, before) && Last(before) == s && c in s.calls && s.calls[c] == ForceClosing(0, e, true)
    ensures IsCallRun(threshold, c, steps) && steps[0] == before[0]
    ensures var s' := Last(steps);
      && s'.calls == s.calls[c := Done] && s'.stakes.Keys == s.stakes.Keys && s'.events == s.events
      && s'.signals == LinkAll(s.signals, 0, e) && s'.finished == s.finished + {e}
  {
    hide IsCallRun, Last, Filter, Unlinked, LinkAll;
    var s1 := With(s.(stakes := SetStake(s.stakes, 0, StakeSweep.ForceClosed)), c, Linking(0, e, true));
    var s2 := With(s1.(signals := LinkAll(s1.signals, 0, e), finished := s1.finished + {e}), c, Done);
    steps := Then(threshold, c, before, s1);
    steps := Then(threshold, c, steps, s2);
    assert s2.calls == s.calls[c := Done];
  }

  lemma SlashBy(threshold: int, t: Story, c: CallId, e: EventId) returns (t': Story)
    requires Happens(threshold, t) && c in Now(t).calls && Now(t).calls[c] == FetchingChannel(0, true)
    requires 0 in Now(t).stakes && e !in Now(t).events
    ensures Happens(threshold, t') && t'.run != []
    ensures Now(t').calls == Now(t).calls[c := Done] && 0 in Now(t').stakes && Now(t').events.Keys == Now(t).events.Keys + {e}
    ensures |Now(t').signals| == |Now(t).signals| && Now(t').finished == Now(t).finished + {e}
  {
    hide IsCallRun, Does;
    var steps := SlashSteps(threshold, Now(t), c, e);
    var acts := StepsContinueRun(threshold, t.run, t.acts, c, steps);
    t' := Story(t.run + steps[1..], acts);
    assert Now(t') == Last(steps);
  }

  /** For every threshold there is a run in which two automatic slashes finish over one signal more than the
      threshold; the second closes a channel of its own. */
  lemma TwoSlashes(threshold: int) returns (t: Story)
    requires threshold >= 1
    ensures Happens(threshold, t) && t.run != [] && |Now(t).finished| == 2 && |Now(t).signals| == threshold + 1
  {
    var k := threshold - 1;
    t := Recorded(threshold, k);
    t := Record(threshold, t, k, k);
    t := Record(threshold, t, k + 1, k + 1);
    t := SlashBy(threshold, t, k, 0);
    t := Do(threshold, t, Persist(0, NEXT_ROW), Now(t).(stakes := Now(t).stakes[0 := NEXT_ROW]));
    t := SlashBy(threshold, t, k + 1, 1);
    assert Now(t).finished == {0, 1};
  }

  /** Over all interleavings, finished automatic slashes times the threshold stay within the signals recorded
      exactly when the threshold is at most one. */
  lemma EarnedUnderRacesIff(threshold: int)
    ensures threshold <= 1 <==>
      forall run: seq<State>, acts: seq<Action>, i: nat ::
        IsRun(threshold, run, acts) && i < |run| ==> |run[i].finished| * threshold <= |run[i].signals|
  {
    hide IsRun;
    if threshold <= 1 {
      forall run: seq<State>, acts: seq<Action>, i: nat | IsRun(threshold, run, acts) && i < |run|
        ensures |run[i].finished| * threshold <= |run[i].signals|
      {
        OneSignalEach(threshold, run, acts, i);
        FinishedAreEvents(threshold, run, acts, i);
        AtMostOnce(|run[i].finished|, threshold, |run[i].signals|);
      }
    } else {
      var t := TwoSlashes(threshold);
      assert |t.run[|t.run| - 1].finished| * threshold > |t.run[|t.run| - 1].signals|;
    }
  }

  lemma AtMostOnce(n: nat, threshold: int, m: nat)
    requires threshold <= 1 && n <= m
    ensures n * threshold <= m
  {
    if threshold < 1 {
      assert n * threshold <= 0;
    }
  }

  lemma FinishedAreEvents(threshold: int, run: seq<State>, acts: seq<Action>, i: nat)
    requires IsRun(threshold, run, acts) && i < |run|
    ensures |run[i].finished| <= |AutomaticEvents(run[i])|
  {
    hide IsRun;
    RunInv(threshold, run, acts, i);
    var s := run[i];
    assert s.finished <= AutomaticEvents(s);
    assert AutomaticEvents(s) == s.finished + (AutomaticEvents(s) - s.finished);
  }
}
