/** How often a unit acts: counted over the acts of a battle, against its cooldown. */
module BattleTurns {
  import opened GameTypes
  import opened BattleSpec
  import opened BattleTrace
  import opened BattleReplay
  import opened BattleSlows
  import opened BattleLog
  import opened TurnOrder

  /** How many acts of a cycle are turns of the unit on a square. */
  function Turns(acts: seq<Act>, cycle: int, p: Pos): nat {
    if acts == [] then 0
    else (if acts[0].cycle == cycle && acts[0].actor == Some(p) then 1 else 0) + Turns(acts[1..], cycle, p)
  }

  lemma {:induction false} TurnsConcat(x: seq<Act>, y: seq<Act>, cycle: int, p: Pos)
    ensures Turns(x + y, cycle, p) == Turns(x, cycle, p) + Turns(y, cycle, p)
    decreases |x|
  {
    if x == [] {
      assert x + y == y;
    } else {
      assert (x + y)[1..] == x[1..] + y;
      TurnsConcat(x[1..], y, cycle, p);
    }
  }

  lemma MarkerTurns(b: Board, c: int, event: Event, cycle: int, p: Pos)
    ensures Turns([Marker(b, c, event)], cycle, p) == 0
  {
    assert [Marker(b, c, event)][1..] == [];
  }

  // ---- one tick ----

  ghost predicate Distinct(queue: seq<Pos>) {
    forall i, j | 0 <= i < j < |queue| :: queue[i] != queue[j]
  }

  lemma DistinctTail(queue: seq<Pos>)
    requires queue != [] && Distinct(queue)
    ensures Distinct(queue[1..]) && queue[0] !in queue[1..]
    ensures forall p :: p in queue <==> p == queue[0] || p in queue[1..]
  {
    assert queue == [queue[0]] + queue[1..];
  }

  /** Of a queue without repetitions, nobody acts twice, and nobody acts who is not in it. */
  lemma {:induction false} QueueTurns(
    b: Board, layout: seq<Pos>, queue: seq<Pos>, c: int, tick: int, cycle: int, p: Pos)
    requires Distinct(queue)
    ensures Turns(RunQueue(b, layout, queue, c, tick), cycle, p) <= if c == cycle && p in queue then 1 else 0
    decreases |queue|
  {
    if queue != [] {
      DistinctTail(queue);
      if AliveIn(b, queue[0]) {
        var act := ActOf(b, layout, queue[0], c, tick);
        QueueTurns(act.post, layout, queue[1..], c, tick, cycle, p);
        assert ([act] + RunQueue(act.post, layout, queue[1..], c, tick))[1..]
          == RunQueue(act.post, layout, queue[1..], c, tick);
      } else {
        QueueTurns(b, layout, queue[1..], c, tick, cycle, p);
      }
    }
  }

  /** A unit lives, at one speed, on the board that a list of acts starts on and after each of them. */
  ghost predicate Steady(b: Board, acts: seq<Act>, p: Pos, spd: int) {
    forall k | 0 <= k <= |acts| :: AliveIn(After(b, acts[..k]), p) && SpdAt(After(b, acts[..k]), p) == spd
  }

  lemma SteadySplit(b: Board, x: seq<Act>, y: seq<Act>, p: Pos, spd: int)
    requires Steady(b, x + y, p, spd)
    ensures Steady(b, x, p, spd) && Steady(After(b, x), y, p, spd)
    ensures AliveIn(b, p) && SpdAt(b, p) == spd
  {
    assert (x + y)[..0] == [];
    forall k | 0 <= k <= |x| ensures AliveIn(After(b, x[..k]), p) && SpdAt(After(b, x[..k]), p) == spd {
      assert (x + y)[..k] == x[..k];
    }
    forall k | 0 <= k <= |y|
      ensures AliveIn(After(After(b, x), y[..k]), p) && SpdAt(After(After(b, x), y[..k]), p) == spd
    {
      assert (x + y)[..|x| + k] == x + y[..k];
      assert After(b, x + y[..k]) == After(After(b, x), y[..k]);
    }
  }

  /** A unit that stays alive gets its turn if it is in the queue. */
  lemma {:induction false} QueueTakesTurn(
    b: Board, layout: seq<Pos>, queue: seq<Pos>, cycle: int, tick: int, p: Pos, spd: int)
    requires Distinct(queue) && Steady(b, RunQueue(b, layout, queue, cycle, tick), p, spd)
    ensures Turns(RunQueue(b, layout, queue, cycle, tick), cycle, p) == if p in queue then 1 else 0
    decreases |queue|
  {
    var acts := RunQueue(b, layout, queue, cycle, tick);
    assert acts[..0] == [];
    if queue != [] {
      DistinctTail(queue);
      if AliveIn(b, queue[0]) {
        var act := ActOf(b, layout, queue[0], cycle, tick);
        var rest := RunQueue(act.post, layout, queue[1..], cycle, tick);
        assert acts[1..] == rest;
        SteadySplit(b, [act], rest, p, spd);
        QueueTakesTurn(act.post, layout, queue[1..], cycle, tick, p, spd);
      } else {
        QueueTakesTurn(b, layout, queue[1..], cycle, tick, p, spd);
      }
    }
  }

  lemma OrderIsDistinct(b: Board, initSide: Side, tick: int)
    ensures Distinct(ActingOrder(b, initSide, tick))
    ensures forall q :: q in ActingOrder(b, initSide, tick) <==> Acts(b, q, tick)
  {
    ActingOrderAscending(b, initSide, tick);
    var queue := ActingOrder(b, initSide, tick);
    forall i, j | 0 <= i < j < |queue| ensures queue[i] != queue[j] {
      assert Before(b, queue[i], queue[j], initSide);
    }
  }

  // ---- the ticks on which a unit is due ----

  /** The ticks of a cycle on which a unit is due, at full pace and slowed. */
  function Schedule(unitId: UnitId, slowed: bool): set<int> {
    match unitId
    case Fighter => if slowed then {86} else {80}
    case Healer => if slowed then {65} else {50, 100}
    case Ranger => if slowed then {53} else {33, 66, 99}
    case Tank => {100}
  }

  lemma ScheduleIs(u: UnitState, tick: int)
    requires Paced(u) && 1 <= tick <= 100
    ensures ActsOnTick(u.spd, tick) <==> tick in Schedule(u.unitId, u.slowedBy.Some?)
  {
    assert u.spd == match u.unitId
      case Fighter => if u.slowedBy.Some? then 14 else 20
      case Healer => if u.slowedBy.Some? then 35 else 50
      case Ranger => if u.slowedBy.Some? then 47 else 67
      case Tank => 0;
  }

  /** On every tick the living units act whose schedule names it, and no others. */
  lemma DueOnSchedule(b: Board, initSide: Side, tick: int, p: Pos)
    requires SlowsSound(b) && 1 <= tick <= 100
    ensures p in ActingOrder(b, initSide, tick) <==>
      p in b && b[p].alive && tick in Schedule(b[p].unitId, b[p].slowedBy.Some?)
  {
    OrderIsDistinct(b, initSide, tick);
    if p in b {
      ScheduleIs(b[p], tick);
    }
  }

  /** The side that begins goes first; within a side the faster units do, and of equally fast ones the lower slots. */
  lemma SidesThenSpeeds(b: Board, initSide: Side, tick: int, i: nat, j: nat)
    requires i < j < |ActingOrder(b, initSide, tick)|
    ensures
      var p, q := ActingOrder(b, initSide, tick)[i], ActingOrder(b, initSide, tick)[j];
      && p in b && q in b && (p.side != q.side ==> p.side == initSide)
      && (p.side == q.side ==> b[p].spd > b[q].spd || (b[p].spd == b[q].spd && p.slot < q.slot))
  {
    var queue := ActingOrder(b, initSide, tick);
    ActingOrderAscending(b, initSide, tick);
    assert Before(b, queue[i], queue[j], initSide);
    assert Acts(b, queue[i], tick) && Acts(b, queue[j], tick);
  }

  // ---- at most four turns a cycle ----

  /** The unit's turns still to come, from a tick on, if it took all it may. */
  function TurnsLeft(b: Board, p: Pos, tick: int): int
    requires 1 <= tick
  {
    if p in b then TicksUpTo(b[p].unitId, TICKS_PER_CYCLE) - TicksUpTo(b[p].unitId, tick - 1) else 0
  }

  lemma TickTurns(b: Board, layout: seq<Pos>, initSide: Side, c: int, tick: int, cycle: int, p: Pos)
    requires SlowsSound(b) && tick >= 1
    ensures
      var now := RunQueue(b, layout, ActingOrder(b, initSide, tick), c, tick);
      Turns(now, cycle, p) <= if c == cycle then TurnsLeft(b, p, tick) - TurnsLeft(b, p, tick + 1) else 0
  {
    OrderIsDistinct(b, initSide, tick);
    QueueTurns(b, layout, ActingOrder(b, initSide, tick), c, tick, cycle, p);
    assert p in b ==> Paced(b[p]);
    assert Acts(b, p, tick) ==> MayAct(b[p].unitId, tick);
  }

  lemma TickKeeps(b: Board, layout: seq<Pos>, initSide: Side, c: int, tick: int)
    requires SlowsSound(b)
    ensures
      var end := After(b, RunQueue(b, layout, ActingOrder(b, initSide, tick), c, tick));
      SlowsSound(end) && SameUnits(b, end)
  {
    var queue := ActingOrder(b, initSide, tick);
    QueueRuns(b, LegalBy(layout), layout, queue, c, tick);
    RunKeepsAll(b, layout, RunQueue(b, layout, queue, c, tick));
  }

  lemma LeftKeeps(b: Board, e: Board, p: Pos, tick: int)
    requires SameUnits(b, e) && tick >= 1
    ensures TurnsLeft(b, p, tick) == TurnsLeft(e, p, tick)
  {
    assert p in b ==> IdentityOf(b[p]) == IdentityOf(e[p]);
  }

  lemma {:induction false} TicksTurns(b: Board, layout: seq<Pos>, initSide: Side, c: int, tick: int, cycle: int, p: Pos)
    requires SlowsSound(b) && 1 <= tick <= TICKS_PER_CYCLE + 1
    ensures Turns(RunTicks(b, layout, initSide, c, tick), cycle, p) <= if c == cycle then TurnsLeft(b, p, tick) else 0
    decreases TICKS_PER_CYCLE + 1 - tick
  {
    if tick <= TICKS_PER_CYCLE {
      var now := RunQueue(b, layout, ActingOrder(b, initSide, tick), c, tick);
      var end := After(b, now);
      TickTurns(b, layout, initSide, c, tick, cycle, p);
      TickKeeps(b, layout, initSide, c, tick);
      LeftKeeps(b, end, p, tick + 1);
      TicksTurns(end, layout, initSide, c, tick + 1, cycle, p);
      TurnsConcat(now, RunTicks(end, layout, initSide, c, tick + 1), cycle, p);
    }
  }

  function MostTurns(b: Board, p: Pos): nat {
    if p in b then MaxActs(b[p].unitId) else 0
  }

  lemma CycleTurns(b: Board, layout: seq<Pos>, initSide: Side, c: int, cycle: int, p: Pos)
    requires SlowsSound(b)
    ensures Turns(RunCycle(b, layout, initSide, c), cycle, p) <= if c == cycle then MostTurns(b, p) else 0
  {
    var ticks := RunTicks(b, layout, initSide, c, 1);
    TicksTurns(b, layout, initSide, c, 1, cycle, p);
    TurnsConcat(ticks, [Marker(After(b, ticks), c, CycleEnd(c))], cycle, p);
    MarkerTurns(After(b, ticks), c, CycleEnd(c), cycle, p);
    if p in b {
      ActsPerCycle(b[p].unitId);
    }
  }

  lemma LastCycleTurns(b: Board, layout: seq<Pos>, initSide: Side, c: int, cycle: int, p: Pos)
    requires SlowsSound(b) && 1 <= c <= MAX_CYCLES
    requires var end := After(b, RunCycle(b, layout, initSide, c)); Decided(end) || c == MAX_CYCLES
    ensures Turns(RunCycles(b, layout, initSide, c), cycle, p) <= if c == cycle then MostTurns(b, p) else 0
  {
    var acts := RunCycle(b, layout, initSide, c);
    var end := After(b, acts);
    var winner := if Decided(end) then WinnerOf(end) else None;
    CycleTurns(b, layout, initSide, c, cycle, p);
    LastCycle(b, layout, initSide, c);
    MarkerTurns(end, c, BattleEnd(c, winner), cycle, p);
    TurnsConcat(acts, Verdict(end, c, winner), cycle, p);
  }

  lemma CycleKeeps(b: Board, layout: seq<Pos>, initSide: Side, c: int)
    requires SlowsSound(b)
    ensures var end := After(b, RunCycle(b, layout, initSide, c)); SlowsSound(end) && SameUnits(b, end)
  {
    CycleRuns(b, LegalBy(layout), layout, initSide, c);
    RunKeepsAll(b, layout, RunCycle(b, layout, initSide, c));
  }

  lemma NextCycleTurns(b: Board, layout: seq<Pos>, initSide: Side, c: int, cycle: int, p: Pos, rest: seq<Act>)
    requires SlowsSound(b)
    requires
      Turns(rest, cycle, p) <= if c < cycle then MostTurns(After(b, RunCycle(b, layout, initSide, c)), p) else 0
    ensures Turns(RunCycle(b, layout, initSide, c) + rest, cycle, p) <= if c <= cycle then MostTurns(b, p) else 0
  {
    var acts := RunCycle(b, layout, initSide, c);
    CycleTurns(b, layout, initSide, c, cycle, p);
    CycleKeeps(b, layout, initSide, c);
    assert p in b ==> IdentityOf(b[p]) == IdentityOf(After(b, acts)[p]);
    TurnsConcat(acts, rest, cycle, p);
  }

  /**
   * However often it is slowed and released, in every cycle of a battle a tank or fighter acts
   * at most twice, a healer three times and a ranger four times.
   */
  lemma {:induction false} TurnsPerCycle(b: Board, layout: seq<Pos>, initSide: Side, c: int, cycle: int, p: Pos)
    requires SlowsSound(b) && 1 <= c <= MAX_CYCLES
    ensures Turns(RunCycles(b, layout, initSide, c), cycle, p) <= if c <= cycle then MostTurns(b, p) else 0
    ensures MostTurns(b, p) <= 4
    decreases MAX_CYCLES - c
  {
    var end := After(b, RunCycle(b, layout, initSide, c));
    if Decided(end) || c == MAX_CYCLES {
      LastCycleTurns(b, layout, initSide, c, cycle, p);
    } else {
      CycleKeeps(b, layout, initSide, c);
      TurnsPerCycle(end, layout, initSide, c + 1, cycle, p);
      NextCycleTurns(b, layout, initSide, c, cycle, p, RunCycles(end, layout, initSide, c + 1));
      MoreCycles(b, layout, initSide, c);
    }
  }

  // ---- the exact number at one speed ----

  lemma {:induction false} SteadyTicks(
    b: Board, layout: seq<Pos>, initSide: Side, cycle: int, tick: int, p: Pos, spd: int)
    requires 1 <= tick <= TICKS_PER_CYCLE + 1
    requires Steady(b, RunTicks(b, layout, initSide, cycle, tick), p, spd)
    ensures Turns(RunTicks(b, layout, initSide, cycle, tick), cycle, p)
      == SteadyActs(spd, TICKS_PER_CYCLE) - SteadyActs(spd, tick - 1)
    decreases TICKS_PER_CYCLE + 1 - tick
  {
    if tick <= TICKS_PER_CYCLE {
      var queue := ActingOrder(b, initSide, tick);
      var now := RunQueue(b, layout, queue, cycle, tick);
      var rest := RunTicks(After(b, now), layout, initSide, cycle, tick + 1);
      SteadySplit(b, now, rest, p, spd);
      OrderIsDistinct(b, initSide, tick);
      QueueTakesTurn(b, layout, queue, cycle, tick, p, spd);
      SteadyTicks(After(b, now), layout, initSide, cycle, tick + 1, p, spd);
      TurnsConcat(now, rest, cycle, p);
    }
  }

  /** A unit that lives through a cycle at one speed acts floor(100 / cooldown) times in it. */
  lemma SteadyTurns(b: Board, layout: seq<Pos>, initSide: Side, cycle: int, p: Pos, spd: int)
    requires 0 <= spd < TICKS_PER_CYCLE && Steady(b, RunCycle(b, layout, initSide, cycle), p, spd)
    ensures Turns(RunCycle(b, layout, initSide, cycle), cycle, p) == TICKS_PER_CYCLE / Cooldown(spd)
  {
    var ticks := RunTicks(b, layout, initSide, cycle, 1);
    var end := [Marker(After(b, ticks), cycle, CycleEnd(cycle))];
    SteadySplit(b, ticks, end, p, spd);
    SteadyTicks(b, layout, initSide, cycle, 1, p, spd);
    TurnsConcat(ticks, end, cycle, p);
    MarkerTurns(After(b, ticks), cycle, CycleEnd(cycle), cycle, p);
    SteadyCount(spd, TICKS_PER_CYCLE);
  }

  // ---- no turn off schedule ----

  /** Every turn falls on a tick on which the unit, of its kind on board b, may be due. */
  ghost predicate OnSchedule(b: Board, acts: seq<Act>) {
    forall i | 0 <= i < |acts| && acts[i].actor.Some? ::
      && acts[i].actor.value in b
      && acts[i].tick in Schedule(b[acts[i].actor.value].unitId, false) + Schedule(b[acts[i].actor.value].unitId, true)
  }

  ghost predicate MayBeDue(b: Board, p: Pos, tick: int) {
    p in b && tick in Schedule(b[p].unitId, false) + Schedule(b[p].unitId, true)
  }

  lemma {:induction false} QueueOnSchedule(b: Board, c: Board, layout: seq<Pos>, queue: seq<Pos>, cycle: int, tick: int)
    requires forall p <- queue :: MayBeDue(b, p, tick)
    ensures OnSchedule(b, RunQueue(c, layout, queue, cycle, tick))
    decreases |queue|
  {
    if queue != [] {
      assert queue[0] in queue && forall p <- queue[1..] :: p in queue;
      if AliveIn(c, queue[0]) {
        QueueOnSchedule(b, ActOf(c, layout, queue[0], cycle, tick).post, layout, queue[1..], cycle, tick);
      } else {
        QueueOnSchedule(b, c, layout, queue[1..], cycle, tick);
      }
    }
  }

  lemma TickOnSchedule(b: Board, c: Board, layout: seq<Pos>, initSide: Side, cycle: int, tick: int)
    requires SlowsSound(c) && SameUnits(b, c) && 1 <= tick <= 100
    ensures OnSchedule(b, RunQueue(c, layout, ActingOrder(c, initSide, tick), cycle, tick))
  {
    var queue := ActingOrder(c, initSide, tick);
    forall p <- queue ensures MayBeDue(b, p, tick) {
      DueOnSchedule(c, initSide, tick, p);
      assert IdentityOf(b[p]) == IdentityOf(c[p]);
    }
    QueueOnSchedule(b, c, layout, queue, cycle, tick);
  }

  lemma {:induction false} TicksOnSchedule(b: Board, c: Board, layout: seq<Pos>, initSide: Side, cycle: int, tick: int)
    requires SlowsSound(c) && SameUnits(b, c) && 1 <= tick <= TICKS_PER_CYCLE + 1
    ensures OnSchedule(b, RunTicks(c, layout, initSide, cycle, tick))
    decreases TICKS_PER_CYCLE + 1 - tick
  {
    if tick <= TICKS_PER_CYCLE {
      TickOnSchedule(b, c, layout, initSide, cycle, tick);
      TickKeeps(c, layout, initSide, cycle, tick);
      var end := After(c, RunQueue(c, layout, ActingOrder(c, initSide, tick), cycle, tick));
      SameUnitsThen(b, c, end);
      TicksOnSchedule(b, end, layout, initSide, cycle, tick + 1);
    }
  }

  lemma ScheduleConcat(b: Board, x: seq<Act>, y: seq<Act>)
    requires OnSchedule(b, x) && OnSchedule(b, y)
    ensures OnSchedule(b, x + y)
  {
  }

  lemma MarkerOnSchedule(b: Board, c: Board, cycle: int, event: Event)
    ensures OnSchedule(b, [Marker(c, cycle, event)])
  {
  }

  lemma CycleOnSchedule(b: Board, c: Board, layout: seq<Pos>, initSide: Side, cycle: int)
    requires SlowsSound(c) && SameUnits(b, c)
    ensures OnSchedule(b, RunCycle(c, layout, initSide, cycle))
  {
    var ticks := RunTicks(c, layout, initSide, cycle, 1);
    TicksOnSchedule(b, c, layout, initSide, cycle, 1);
    MarkerOnSchedule(b, After(c, ticks), cycle, CycleEnd(cycle));
    ScheduleConcat(b, ticks, [Marker(After(c, ticks), cycle, CycleEnd(cycle))]);
  }

  lemma LastOnSchedule(b: Board, c: Board, layout: seq<Pos>, initSide: Side, cycle: int)
    requires 1 <= cycle <= MAX_CYCLES && OnSchedule(b, RunCycle(c, layout, initSide, cycle))
    requires var end := After(c, RunCycle(c, layout, initSide, cycle)); Decided(end) || cycle == MAX_CYCLES
    ensures OnSchedule(b, RunCycles(c, layout, initSide, cycle))
  {
    var acts := RunCycle(c, layout, initSide, cycle);
    var end := After(c, acts);
    var winner := if Decided(end) then WinnerOf(end) else None;
    LastCycle(c, layout, initSide, cycle);
    MarkerOnSchedule(b, end, cycle, BattleEnd(cycle, winner));
    ScheduleConcat(b, acts, Verdict(end, cycle, winner));
  }

  /** In a whole battle, whatever it does to their pace, units act on ticks of their schedules only. */
  lemma {:induction false} BattleOnSchedule(b: Board, c: Board, layout: seq<Pos>, initSide: Side, cycle: int)
    requires SlowsSound(c) && SameUnits(b, c) && 1 <= cycle <= MAX_CYCLES
    ensures OnSchedule(b, RunCycles(c, layout, initSide, cycle))
    decreases MAX_CYCLES - cycle
  {
    var end := After(c, RunCycle(c, layout, initSide, cycle));
    CycleOnSchedule(b, c, layout, initSide, cycle);
    if Decided(end) || cycle == MAX_CYCLES {
      LastOnSchedule(b, c, layout, initSide, cycle);
    } else {
      CycleKeeps(c, layout, initSide, cycle);
      SameUnitsThen(b, c, end);
      BattleOnSchedule(b, end, layout, initSide, cycle + 1);
      ScheduleConcat(b, RunCycle(c, layout, initSide, cycle), RunCycles(end, layout, initSide, cycle + 1));
      MoreCycles(c, layout, initSide, cycle);
    }
  }
}
