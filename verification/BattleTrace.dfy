/** Every battle is a chain of legitimate acts: each starts on the board the last one left. */
module BattleTrace {
  import opened GameTypes
  import opened BattleSpec

  /** A marker changes nothing; any other act is a living unit's act on the board it found. */
  ghost predicate Legit(layout: seq<Pos>, a: Act) {
    if a.actor.None? then
      a.post == a.pre && |a.events| == 1 && (a.events[0].CycleEnd? || a.events[0].BattleEnd?)
    else
      && a.actor.value in a.pre && a.pre[a.actor.value].alive
      && Outcome(a.post, a.events) == UnitAct(a.pre, layout, a.actor.value, a.cycle, a.tick)
  }

  /** The acts that battle rules allow, as a function value. */
  ghost function LegalBy(layout: seq<Pos>): Act -> bool {
    a => Legit(layout, a)
  }

  ghost predicate StepAt(b: Board, rule: Act -> bool, acts: seq<Act>, k: int)
    requires 0 <= k < |acts|
  {
    acts[k].pre == After(b, acts[..k]) && rule(acts[k])
  }

  /** A chain of acts, each allowed by the rule, that starts on b. */
  ghost predicate Run(b: Board, rule: Act -> bool, acts: seq<Act>) {
    forall k | 0 <= k < |acts| :: StepAt(b, rule, acts, k)
  }

  ghost predicate Allows(rule: Act -> bool, layout: seq<Pos>) {
    forall a {:trigger Legit(layout, a)} :: Legit(layout, a) ==> rule(a)
  }

  lemma RunConcat(b: Board, rule: Act -> bool, x: seq<Act>, y: seq<Act>)
    requires Run(b, rule, x) && Run(After(b, x), rule, y)
    ensures Run(b, rule, x + y)
    ensures After(b, x + y) == After(After(b, x), y)
  {
    forall k | 0 <= k < |x + y| ensures StepAt(b, rule, x + y, k) {
      if k < |x| {
        assert StepAt(b, rule, x, k);
        assert (x + y)[..k] == x[..k];
      } else {
        assert StepAt(After(b, x), rule, y, k - |x|);
        assert (x + y)[..k] == x + y[..k - |x|];
      }
    }
  }

  lemma RunCons(act: Act, rule: Act -> bool, rest: seq<Act>)
    requires rule(act) && Run(act.post, rule, rest)
    ensures Run(act.pre, rule, [act] + rest)
  {
    assert Run(act.pre, rule, [act]) by {
      assert StepAt(act.pre, rule, [act], 0);
    }
    RunConcat(act.pre, rule, [act], rest);
  }

  lemma {:induction false} QueueRuns(b: Board, rule: Act -> bool, layout: seq<Pos>, queue: seq<Pos>, cycle: int, tick: int)
    requires Allows(rule, layout)
    ensures Run(b, rule, RunQueue(b, layout, queue, cycle, tick))
    decreases |queue|
  {
    if queue != [] {
      if AliveIn(b, queue[0]) {
        var act := ActOf(b, layout, queue[0], cycle, tick);
        QueueRuns(act.post, rule, layout, queue[1..], cycle, tick);
        assert Legit(layout, act);
        RunCons(act, rule, RunQueue(act.post, layout, queue[1..], cycle, tick));
      } else {
        QueueRuns(b, rule, layout, queue[1..], cycle, tick);
      }
    }
  }

  lemma {:induction false} TicksRun(b: Board, rule: Act -> bool, layout: seq<Pos>, initSide: Side, cycle: int, tick: int)
    requires Allows(rule, layout)
    requires 1 <= tick <= TICKS_PER_CYCLE + 1
    ensures Run(b, rule, RunTicks(b, layout, initSide, cycle, tick))
    decreases TICKS_PER_CYCLE + 1 - tick
  {
    if tick <= TICKS_PER_CYCLE {
      var queue := ActingOrder(b, initSide, tick);
      QueueRuns(b, rule, layout, queue, cycle, tick);
      var now := RunQueue(b, layout, queue, cycle, tick);
      TicksRun(After(b, now), rule, layout, initSide, cycle, tick + 1);
      RunConcat(b, rule, now, RunTicks(After(b, now), layout, initSide, cycle, tick + 1));
    }
  }

  lemma RunMarker(b: Board, rule: Act -> bool, layout: seq<Pos>, acts: seq<Act>, cycle: int, event: Event)
    requires Allows(rule, layout)
    requires Run(b, rule, acts) && (event.CycleEnd? || event.BattleEnd?)
    ensures Run(b, rule, acts + [Marker(After(b, acts), cycle, event)])
    ensures After(b, acts + [Marker(After(b, acts), cycle, event)]) == After(b, acts)
  {
    var last := [Marker(After(b, acts), cycle, event)];
    assert Legit(layout, last[0]);
    assert Run(After(b, acts), rule, last) by {
      assert StepAt(After(b, acts), rule, last, 0);
    }
    RunConcat(b, rule, acts, last);
  }

  lemma CycleRuns(b: Board, rule: Act -> bool, layout: seq<Pos>, initSide: Side, cycle: int)
    requires Allows(rule, layout)
    ensures Run(b, rule, RunCycle(b, layout, initSide, cycle))
  {
    TicksRun(b, rule, layout, initSide, cycle, 1);
    RunMarker(b, rule, layout, RunTicks(b, layout, initSide, cycle, 1), cycle, CycleEnd(cycle));
  }

  lemma MoreCycles(b: Board, layout: seq<Pos>, initSide: Side, cycle: int)
    requires 1 <= cycle < MAX_CYCLES && !Decided(After(b, RunCycle(b, layout, initSide, cycle)))
    ensures
      var acts := RunCycle(b, layout, initSide, cycle);
      RunCycles(b, layout, initSide, cycle) == acts + RunCycles(After(b, acts), layout, initSide, cycle + 1)
  {
  }

  function Verdict(b: Board, cycle: int, winner: Option<Side>): seq<Act> {
    [Marker(b, cycle, BattleEnd(cycle, winner))]
  }

  lemma LastCycle(b: Board, layout: seq<Pos>, initSide: Side, cycle: int)
    requires 1 <= cycle <= MAX_CYCLES
    requires var end := After(b, RunCycle(b, layout, initSide, cycle)); Decided(end) || cycle == MAX_CYCLES
    ensures
      var acts := RunCycle(b, layout, initSide, cycle);
      var end := After(b, acts);
      RunCycles(b, layout, initSide, cycle)
      == acts + Verdict(end, cycle, if Decided(end) then WinnerOf(end) else None)
  {
  }

  lemma LastCycleRuns(b: Board, rule: Act -> bool, layout: seq<Pos>, initSide: Side, cycle: int)
    requires Allows(rule, layout)
    requires 1 <= cycle <= MAX_CYCLES
    requires var end := After(b, RunCycle(b, layout, initSide, cycle)); Decided(end) || cycle == MAX_CYCLES
    ensures Run(b, rule, RunCycles(b, layout, initSide, cycle))
  {
    var acts := RunCycle(b, layout, initSide, cycle);
    var end := After(b, acts);
    CycleRuns(b, rule, layout, initSide, cycle);
    RunMarker(b, rule, layout, acts, cycle, BattleEnd(cycle, if Decided(end) then WinnerOf(end) else None));
  }

  /** A whole battle, from any cycle on, is a run. */
  lemma {:induction false} BattleRuns(b: Board, rule: Act -> bool, layout: seq<Pos>, initSide: Side, cycle: int)
    requires Allows(rule, layout)
    requires 1 <= cycle <= MAX_CYCLES
    ensures Run(b, rule, RunCycles(b, layout, initSide, cycle))
    decreases MAX_CYCLES - cycle
  {
    var acts := RunCycle(b, layout, initSide, cycle);
    var end := After(b, acts);
    if Decided(end) || cycle == MAX_CYCLES {
      LastCycleRuns(b, rule, layout, initSide, cycle);
    } else {
      CycleRuns(b, rule, layout, initSide, cycle);
      BattleRuns(end, rule, layout, initSide, cycle + 1);
      RunConcat(b, rule, acts, RunCycles(end, layout, initSide, cycle + 1));
      MoreCycles(b, layout, initSide, cycle);
    }
  }

  /** Any act of a run: it is legitimate, and what comes before and after it are runs. */
  lemma RunSplit(b: Board, rule: Act -> bool, acts: seq<Act>, k: nat)
    requires Run(b, rule, acts) && k < |acts|
    ensures Run(b, rule, acts[..k])
    ensures acts[k].pre == After(b, acts[..k]) && rule(acts[k])
    ensures acts[k].post == After(b, acts[..k + 1])
  {
    assert StepAt(b, rule, acts, k);
    forall j | 0 <= j < k ensures StepAt(b, rule, acts[..k], j) {
      assert StepAt(b, rule, acts, j);
      assert acts[..k][..j] == acts[..j];
    }
  }

  lemma RunPrefix(b: Board, rule: Act -> bool, acts: seq<Act>, n: nat)
    requires Run(b, rule, acts) && n <= |acts|
    ensures Run(b, rule, acts[..n])
  {
    forall j | 0 <= j < n ensures StepAt(b, rule, acts[..n], j) {
      assert StepAt(b, rule, acts, j);
      assert acts[..n][..j] == acts[..j];
    }
  }
}
