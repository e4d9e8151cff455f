/**
 The statements one call issues with nothing in between, as a sequence of points of the round protocol;
 and the theorem that such a sequence, started where a run of the protocol stands, continues that run.
 */
module RoundTraces {
  import opened RoundProtocol

  /** The rows and a call's program counter between two statements. */
  datatype Point = Point(rounds: Rounds, call: Call)

  type Trace = s: seq<Point> | |s| > 0 witness [Point(map[], CloseQuery)]

  ghost predicate Follows(cfg: Config, c: CallId, p: Point, q: Point) {
    exists events :: CallStep(cfg, c, p.rounds, p.call, q.rounds, q.call, events)
  }

  ghost predicate IsTrace(cfg: Config, c: CallId, steps: Trace) {
    forall i :: 0 <= i < |steps| - 1 ==> Follows(cfg, c, steps[i], steps[i + 1])
  }

  ghost function Last(steps: Trace): Point {
    steps[|steps| - 1]
  }

  // ------------------------------------------------ building traces

  lemma StartTrace(cfg: Config, c: CallId, p: Point)
    ensures IsTrace(cfg, c, [p]) && Last([p]) == p
  {
  }

  lemma Extend(cfg: Config, c: CallId, steps: Trace, q: Point, events: seq<Event>)
    requires IsTrace(cfg, c, steps)
    requires CallStep(cfg, c, Last(steps).rounds, Last(steps).call, q.rounds, q.call, events)
    ensures IsTrace(cfg, c, steps + [q]) && Last(steps + [q]) == q
  {
    hide CallStep;
    assert Follows(cfg, c, Last(steps), q);
  }

  ghost function Step(cfg: Config, c: CallId, steps: Trace, q: Point, events: seq<Event>): (r: Trace)
    requires IsTrace(cfg, c, steps)
    requires CallStep(cfg, c, Last(steps).rounds, Last(steps).call, q.rounds, q.call, events)
    ensures IsTrace(cfg, c, r) && Last(r) == q && r[0] == steps[0]
  {
    Extend(cfg, c, steps, q, events);
    steps + [q]
  }

  lemma Joined(cfg: Config, c: CallId, a: Trace, b: Trace)
    requires IsTrace(cfg, c, a) && IsTrace(cfg, c, b) && Last(a) == b[0]
    ensures IsTrace(cfg, c, a + b[1..]) && Last(a + b[1..]) == Last(b)
  {
    hide Follows;
    var s := a + b[1..];
    forall i | 0 <= i < |s| - 1
      ensures Follows(cfg, c, s[i], s[i + 1])
    {
      if i >= |a| - 1 {
        var j := i - (|a| - 1);
        assert s[i] == b[j] && s[i + 1] == b[j + 1];
      }
    }
  }

  ghost function Join(cfg: Config, c: CallId, a: Trace, b: Trace): (r: Trace)
    requires IsTrace(cfg, c, a) && IsTrace(cfg, c, b) && Last(a) == b[0]
    ensures IsTrace(cfg, c, r) && Last(r) == Last(b) && r[0] == a[0]
  {
    Joined(cfg, c, a, b);
    a + b[1..]
  }

  /** Where a TryAggregate runs: on its own, or inside a CloseExpired pass. */
  datatype Context = Alone | Inside(todo: seq<RoundNo>, closed: nat)

  function At(ctx: Context, pc: Pc): Call {
    match ctx
    case Alone => Try(pc)
    case Inside(todo, closed) => CloseInner(todo, closed, pc)
  }

  lemma TryIsCallStep(cfg: Config, c: CallId, ctx: Context, rs: Rounds, pc: Pc, rs': Rounds, pc': Pc, events: seq<Event>)
    requires TryStep(cfg, c, rs, pc, rs', pc', events)
    ensures CallStep(cfg, c, rs, At(ctx, pc), rs', At(ctx, pc'), events)
  {
    hide FilterOutcome, Produced, IsListing;
    assert !pc.Return?;
  }

  /** A trace continued by one step of a TryAggregate in its context. */
  ghost function TryTo(cfg: Config, c: CallId, ctx: Context, steps: Trace, pc: Pc, rs': Rounds, pc': Pc, events: seq<Event>): (r: Trace)
    requires IsTrace(cfg, c, steps) && Last(steps).call == At(ctx, pc)
    requires TryStep(cfg, c, Last(steps).rounds, pc, rs', pc', events)
    ensures IsTrace(cfg, c, r) && Last(r) == Point(rs', At(ctx, pc')) && r[0] == steps[0]
  {
    TryIsCallStep(cfg, c, ctx, Last(steps).rounds, pc, rs', pc', events);
    Step(cfg, c, steps, Point(rs', At(ctx, pc')), events)
  }

  // ------------------------------------------------ a trace continues a run

  ghost function End(run: seq<State>): State
    requires run != []
  {
    run[|run| - 1]
  }

  lemma DoesExtend(cfg: Config, path: seq<State>, acts: seq<Action>, a: Action, s: State)
    requires IsPath(cfg, path, acts) && Does(cfg, End(path), a, s)
    ensures IsPath(cfg, path + [s], acts + [a]) && End(path + [s]) == s && (path + [s])[0] == path[0]
  {
    hide Does;
    var path', acts' := path + [s], acts + [a];
    forall i | 0 <= i < |acts'|
      ensures Does(cfg, path'[i], acts'[i], path'[i + 1])
    {
      if i < |acts| {
        assert path'[i] == path[i] && path'[i + 1] == path[i + 1] && acts'[i] == acts[i];
      }
    }
  }

  lemma AdvanceDoes(cfg: Config, s: State, c: CallId, rs': Rounds, call': Call, events: seq<Event>)
    requires c in s.calls && CallStep(cfg, c, s.rounds, s.calls[c], rs', call', events)
    ensures Does(cfg, s, Advance(c), State(rs', s.calls[c := call'], s.log + events))
  {
    hide CallStep;
    var log := s.log + events;
    assert log[|s.log|..] == events;
  }

  /** What one call does undisturbed, from where a path ends, continues the path. */
  lemma {:induction false} TraceContinuesPath(cfg: Config, path: seq<State>, acts: seq<Action>, c: CallId, steps: Trace)
      returns (path': seq<State>, acts': seq<Action>)
    requires IsPath(cfg, path, acts) && IsTrace(cfg, c, steps)
    requires c in End(path).calls && Point(End(path).rounds, End(path).calls[c]) == steps[0]
    ensures IsPath(cfg, path', acts') && |path'| == |path| + |steps| - 1 && path'[..|path|] == path && acts'[..|acts|] == acts
    ensures forall i :: |acts| <= i < |acts'| ==> acts'[i] == Advance(c)
    ensures forall i :: 0 <= i < |steps| ==> path'[|path| - 1 + i].rounds == steps[i].rounds
    ensures End(path').calls == End(path).calls[c := Last(steps).call]
    decreases |steps|
  {
    hide Follows, Does;
    if |steps| == 1 {
      path', acts' := path, acts;
      assert End(path).calls[c := steps[0].call] == End(path).calls;
    } else {
      var n := |steps| - 1;
      assert IsTrace(cfg, c, steps[..n]);
      path', acts' := TraceContinuesPath(cfg, path, acts, c, steps[..n]);
      var s := End(path');
      assert s.rounds == steps[n - 1].rounds && s.calls[c] == steps[n - 1].call;
      assert Follows(cfg, c, steps[n - 1], steps[n]);
      var s' := OneStep(cfg, s, c, steps[n]);
      DoesExtend(cfg, path', acts', Advance(c), s');
      assert s.calls[c := steps[n].call] == End(path).calls[c := steps[n].call];
      path', acts' := path' + [s'], acts' + [Advance(c)];
    }
  }

  /** What one call does undisturbed, from where a run stands, is a continuation of that run: so every state
      it passes through satisfies what is proved of all runs. */
  lemma TraceContinuesRun(cfg: Config, run: seq<State>, acts: seq<Action>, c: CallId, steps: Trace)
      returns (run': seq<State>, acts': seq<Action>)
    requires IsRun(cfg, run, acts) && IsTrace(cfg, c, steps)
    requires c in End(run).calls && Point(End(run).rounds, End(run).calls[c]) == steps[0]
    ensures IsRun(cfg, run', acts') && |run'| == |run| + |steps| - 1 && run'[..|run|] == run && acts'[..|acts|] == acts
    ensures forall i :: |acts| <= i < |acts'| ==> acts'[i] == Advance(c)
    ensures forall i :: 0 <= i < |steps| ==> run'[|run| - 1 + i].rounds == steps[i].rounds
    ensures End(run').calls == End(run).calls[c := Last(steps).call]
  {
    hide IsTrace, Does;
    run', acts' := TraceContinuesPath(cfg, run, acts, c, steps);
    assert run'[0] == run'[..|run|][0];
  }

  lemma OneStep(cfg: Config, s: State, c: CallId, q: Point) returns (s': State)
    requires c in s.calls && Follows(cfg, c, Point(s.rounds, s.calls[c]), q)
    ensures Does(cfg, s, Advance(c), s') && s'.rounds == q.rounds && s'.calls == s.calls[c := q.call]
  {
    hide CallStep, Does;
    var events :| CallStep(cfg, c, s.rounds, s.calls[c], q.rounds, q.call, events);
    AdvanceDoes(cfg, s, c, q.rounds, q.call, events);
    s' := State(q.rounds, s.calls[c := q.call], s.log + events);
  }
}
