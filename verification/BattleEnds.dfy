/**
 * The board and the log that a list of acts leads to, and how each loop of the engine
 * brings them one step closer.
 */
module BattleEnds {
  import opened GameTypes
  import opened BattleSpec
  import opened BattleTrace

  lemma {:induction false} RenderConcat(x: seq<Act>, y: seq<Act>, layout: seq<Pos>)
    ensures Render(x + y, layout) == Render(x, layout) + Render(y, layout)
    decreases |x|
  {
    if x == [] {
      assert x + y == y;
    } else {
      assert (x + y)[1..] == x[1..] + y;
      RenderConcat(x[1..], y, layout);
    }
  }

  /** How a stretch of the battle ends: with this board and this log. */
  datatype End = End(board: Board, log: seq<LogEntry>)

  function EndOf(b: Board, log: seq<LogEntry>, acts: seq<Act>, layout: seq<Pos>): End {
    End(After(b, acts), log + Render(acts, layout))
  }

  ghost predicate LeadsTo(b: Board, log: seq<LogEntry>, acts: seq<Act>, layout: seq<Pos>, end: End) {
    end == EndOf(b, log, acts, layout)
  }

  lemma LeadsConcat(b: Board, log: seq<LogEntry>, x: seq<Act>, y: seq<Act>, layout: seq<Pos>, end: End)
    requires LeadsTo(b, log, x + y, layout, end)
    ensures
      var mid := EndOf(b, log, x, layout);
      LeadsTo(mid.board, mid.log, y, layout, end)
  {
    RenderConcat(x, y, layout);
    AfterConcat(b, x, y);
    Reassociate(log, Render(x, layout), Render(y, layout));
  }

  lemma AfterConcat(b: Board, x: seq<Act>, y: seq<Act>)
    ensures After(b, x + y) == After(After(b, x), y)
  {
    if y == [] {
      assert x + y == x;
    }
  }

  lemma Reassociate<T>(x: seq<T>, y: seq<T>, z: seq<T>)
    ensures x + (y + z) == (x + y) + z
  {
  }

  lemma LeadsOne(b: Board, log: seq<LogEntry>, act: Act, layout: seq<Pos>)
    ensures EndOf(b, log, [act], layout) == End(act.post, log + Stamp(act.events, Listing(act.post, layout)))
  {
    assert Render([act], layout) == Stamp(act.events, Listing(act.post, layout)) + Render([], layout);
  }

  lemma QueueStep(b: Board, log: seq<LogEntry>, layout: seq<Pos>, p: Pos, rest: seq<Pos>, cycle: int, tick: int, end: End)
    requires p in b
    requires LeadsTo(b, log, RunQueue(b, layout, [p] + rest, cycle, tick), layout, end)
    ensures
      if !b[p].alive then LeadsTo(b, log, RunQueue(b, layout, rest, cycle, tick), layout, end)
      else
        var o := UnitAct(b, layout, p, cycle, tick);
        LeadsTo(o.board, log + Stamp(o.events, Listing(o.board, layout)),
          RunQueue(o.board, layout, rest, cycle, tick), layout, end)
  {
    assert ([p] + rest)[1..] == rest;
    if b[p].alive {
      var act := ActOf(b, layout, p, cycle, tick);
      LeadsConcat(b, log, [act], RunQueue(act.post, layout, rest, cycle, tick), layout, end);
      LeadsOne(b, log, act, layout);
    }
  }

  // ---- ticks ----

  /** One tick leads from a to b. */
  ghost predicate TickGoal(a: End, layout: seq<Pos>, initSide: Side, cycle: int, tick: int, b: End) {
    match a
    case End(board, log) =>
      LeadsTo(board, log, RunQueue(board, layout, ActingOrder(board, initSide, tick), cycle, tick), layout, b)
  }

  ghost predicate TickAt(mids: seq<End>, layout: seq<Pos>, initSide: Side, cycle: int, tick: int, k: int)
    requires 0 <= k < |mids| - 1
  {
    TickGoal(mids[k], layout, initSide, cycle, tick + k, mids[k + 1])
  }

  /** Each entry leads to the next by one tick, the first of them by the given one. */
  ghost predicate TickByTick(mids: seq<End>, layout: seq<Pos>, initSide: Side, cycle: int, tick: int) {
    forall k | 0 <= k < |mids| - 1 :: TickAt(mids, layout, initSide, cycle, tick, k)
  }

  lemma TickGoalAt(mids: seq<End>, layout: seq<Pos>, initSide: Side, cycle: int, tick: int, k: int)
    requires TickByTick(mids, layout, initSide, cycle, tick) && 0 <= k < |mids| - 1
    ensures TickGoal(mids[k], layout, initSide, cycle, tick + k, mids[k + 1])
  {
    assert TickAt(mids, layout, initSide, cycle, tick, k);
  }

  lemma TickStep(start: End, layout: seq<Pos>, initSide: Side, cycle: int, tick: int, end: End) returns (mid: End)
    requires 1 <= tick <= TICKS_PER_CYCLE
    requires LeadsTo(start.board, start.log, RunTicks(start.board, layout, initSide, cycle, tick), layout, end)
    ensures TickGoal(start, layout, initSide, cycle, tick, mid)
    ensures LeadsTo(mid.board, mid.log, RunTicks(mid.board, layout, initSide, cycle, tick + 1), layout, end)
  {
    var b, log := start.board, start.log;
    var now := RunQueue(b, layout, ActingOrder(b, initSide, tick), cycle, tick);
    mid := EndOf(b, log, now, layout);
    LeadsConcat(b, log, now, RunTicks(mid.board, layout, initSide, cycle, tick + 1), layout, end);
  }

  lemma OneMoreTick(start: End, rest: seq<End>, layout: seq<Pos>, initSide: Side, cycle: int, tick: int)
    returns (mids: seq<End>)
    requires rest != [] && TickGoal(start, layout, initSide, cycle, tick, rest[0])
    requires TickByTick(rest, layout, initSide, cycle, tick + 1)
    ensures mids == [start] + rest && TickByTick(mids, layout, initSide, cycle, tick)
  {
    mids := [start] + rest;
    forall k | 0 <= k < |mids| - 1 ensures TickAt(mids, layout, initSide, cycle, tick, k) {
      if k > 0 {
        TickGoalAt(rest, layout, initSide, cycle, tick + 1, k - 1);
      }
    }
  }

  lemma {:induction false} TicksApart(start: End, layout: seq<Pos>, initSide: Side, cycle: int, tick: int, end: End)
    returns (mids: seq<End>)
    requires 1 <= tick <= TICKS_PER_CYCLE + 1
    requires LeadsTo(start.board, start.log, RunTicks(start.board, layout, initSide, cycle, tick), layout, end)
    ensures |mids| == TICKS_PER_CYCLE + 2 - tick && TickByTick(mids, layout, initSide, cycle, tick)
    ensures mids[0] == start && mids[|mids| - 1] == end
    decreases TICKS_PER_CYCLE + 1 - tick
  {
    if tick == TICKS_PER_CYCLE + 1 {
      mids := [start];
    } else {
      var mid := TickStep(start, layout, initSide, cycle, tick, end);
      var rest := TicksApart(mid, layout, initSide, cycle, tick + 1, end);
      mids := OneMoreTick(start, rest, layout, initSide, cycle, tick);
    }
  }

  // ---- cycles ----

  /** The board and the log at the head of a cycle, or at the end of a battle that is over. */
  datatype Stage = Stage(end: End, over: bool)

  /** What closing a cycle adds to the log that its ticks have led to. */
  ghost function Closed(mid: End, layout: seq<Pos>, cycle: int): Stage {
    var states := Listing(mid.board, layout);
    var log := mid.log + [LogEntry(CycleEnd(cycle), states)];
    if Decided(mid.board) then
      Stage(End(mid.board, log + [LogEntry(BattleEnd(cycle, WinnerOf(mid.board)), states)]), true)
    else Stage(End(mid.board, log), false)
  }

  ghost predicate CycleGoal(a: End, layout: seq<Pos>, initSide: Side, cycle: int, next: Stage) {
    match a
    case End(b, log) => next == Closed(EndOf(b, log, RunTicks(b, layout, initSide, cycle, 1), layout), layout, cycle)
  }

  ghost function AfterCycle(now: End, layout: seq<Pos>, initSide: Side, cycle: int): (next: Stage)
    ensures CycleGoal(now, layout, initSide, cycle, next)
  {
    Closed(EndOf(now.board, now.log, RunTicks(now.board, layout, initSide, cycle, 1), layout), layout, cycle)
  }

  /** The battle is over, or it has lasted all its cycles and is about to be closed. */
  ghost predicate FinalStage(s: Stage, layout: seq<Pos>, cycle: int, end: End) {
    match s
    case Stage(now, over) =>
      if over then end == now
      else
        && cycle == MAX_CYCLES + 1
        && end == End(now.board, now.log + [LogEntry(BattleEnd(MAX_CYCLES, None), Listing(now.board, layout))])
  }

  /** Each stage leads to the next by one cycle, and the last one to the end of the battle. */
  ghost predicate CycleByCycle(stages: seq<Stage>, layout: seq<Pos>, initSide: Side, cycle: int, end: End) {
    match end
    case End(_, _) =>
      && stages != []
      && if stages[0].over || cycle == MAX_CYCLES + 1 then FinalStage(stages[0], layout, cycle, end)
      else
        && |stages| > 1
        && CycleGoal(stages[0].end, layout, initSide, cycle, stages[1])
        && CycleByCycle(stages[1..], layout, initSide, cycle + 1, end)
  }

  lemma RunCycleEnds(b: Board, log: seq<LogEntry>, layout: seq<Pos>, initSide: Side, cycle: int)
    ensures
      var mid := EndOf(b, log, RunTicks(b, layout, initSide, cycle, 1), layout);
      EndOf(b, log, RunCycle(b, layout, initSide, cycle), layout)
      == End(mid.board, mid.log + [LogEntry(CycleEnd(cycle), Listing(mid.board, layout))])
  {
    var ticks := RunTicks(b, layout, initSide, cycle, 1);
    var last := Marker(After(b, ticks), cycle, CycleEnd(cycle));
    MarkerEnds(b, log, layout, ticks, last);
  }

  lemma RenderMarker(last: Act, layout: seq<Pos>)
    requires |last.events| == 1
    ensures Render([last], layout) == [LogEntry(last.events[0], Listing(last.post, layout))]
  {
    assert [last][1..] == [];
  }

  lemma MarkerEnds(b: Board, log: seq<LogEntry>, layout: seq<Pos>, acts: seq<Act>, last: Act)
    requires |last.events| == 1
    ensures
      var mid := EndOf(b, log, acts, layout);
      EndOf(b, log, acts + [last], layout)
      == End(last.post, mid.log + [LogEntry(last.events[0], Listing(last.post, layout))])
  {
    RenderConcat(acts, [last], layout);
    RenderMarker(last, layout);
    Reassociate(log, Render(acts, layout), Render([last], layout));
  }

  lemma CycleTicks(a: End, layout: seq<Pos>, initSide: Side, cycle: int, next: Stage) returns (mids: seq<End>)
    requires CycleGoal(a, layout, initSide, cycle, next)
    ensures |mids| == TICKS_PER_CYCLE + 1 && TickByTick(mids, layout, initSide, cycle, 1)
    ensures mids[0] == a && Closed(mids[TICKS_PER_CYCLE], layout, cycle) == next
  {
    var mid := EndOf(a.board, a.log, RunTicks(a.board, layout, initSide, cycle, 1), layout);
    mids := TicksApart(a, layout, initSide, cycle, 1, mid);
  }

  /** How the rest of a battle ends, from the head of a cycle on. */
  ghost function RestEnd(now: End, layout: seq<Pos>, initSide: Side, cycle: int): End
    requires 1 <= cycle <= MAX_CYCLES
  {
    EndOf(now.board, now.log, RunCycles(now.board, layout, initSide, cycle), layout)
  }

  lemma CycleStep(now: End, layout: seq<Pos>, initSide: Side, cycle: int, next: Stage)
    requires 1 <= cycle <= MAX_CYCLES && CycleGoal(now, layout, initSide, cycle, next)
    ensures
      if next.over || cycle == MAX_CYCLES then FinalStage(next, layout, cycle + 1, RestEnd(now, layout, initSide, cycle))
      else RestEnd(next.end, layout, initSide, cycle + 1) == RestEnd(now, layout, initSide, cycle)
  {
    var b, log := now.board, now.log;
    var mid := EndOf(b, log, RunTicks(b, layout, initSide, cycle, 1), layout);
    var acts := RunCycle(b, layout, initSide, cycle);
    RunCycleEnds(b, log, layout, initSide, cycle);
    if Decided(mid.board) || cycle == MAX_CYCLES {
      LastCycle(b, layout, initSide, cycle);
      var last := Verdict(mid.board, cycle, if Decided(mid.board) then WinnerOf(mid.board) else None);
      MarkerEnds(b, log, layout, acts, last[0]);
    } else {
      MoreCycles(b, layout, initSide, cycle);
      LeadsConcat(b, log, acts, RunCycles(mid.board, layout, initSide, cycle + 1), layout, RestEnd(now, layout, initSide, cycle));
    }
  }

  lemma NextStage(stages: seq<Stage>, layout: seq<Pos>, initSide: Side, cycle: int, end: End)
    requires CycleByCycle(stages, layout, initSide, cycle, end)
    ensures
      if stages[0].over || cycle == MAX_CYCLES + 1 then FinalStage(stages[0], layout, cycle, end)
      else
        && |stages| > 1
        && CycleGoal(stages[0].end, layout, initSide, cycle, stages[1])
        && CycleByCycle(stages[1..], layout, initSide, cycle + 1, end)
  {
  }

  function FirstStage(stages: seq<Stage>): Option<Stage> {
    if stages == [] then None else Some(stages[0])
  }

  /** The stages lead from here to the end. */
  ghost predicate LeadOn(stages: seq<Stage>, now: End, layout: seq<Pos>, initSide: Side, cycle: int, end: End) {
    match FirstStage(stages)
    case None => false
    case Some(stage) => stage == Stage(now, false) && CycleByCycle(stages, layout, initSide, cycle, end)
  }

  lemma OneMoreStage(now: End, next: Stage, rest: seq<Stage>, layout: seq<Pos>, initSide: Side, cycle: int, end: End)
    returns (stages: seq<Stage>)
    requires 1 <= cycle < MAX_CYCLES && !next.over && CycleGoal(now, layout, initSide, cycle, next)
    requires LeadOn(rest, next.end, layout, initSide, cycle + 1, end)
    ensures LeadOn(stages, now, layout, initSide, cycle, end)
  {
    stages := [Stage(now, false)] + rest;
    assert stages[1..] == rest;
  }

  lemma LastStages(now: End, next: Stage, layout: seq<Pos>, initSide: Side, cycle: int, end: End)
    returns (stages: seq<Stage>)
    requires 1 <= cycle <= MAX_CYCLES && (next.over || cycle == MAX_CYCLES)
    requires CycleGoal(now, layout, initSide, cycle, next) && FinalStage(next, layout, cycle + 1, end)
    ensures LeadOn(stages, now, layout, initSide, cycle, end)
  {
    stages := [Stage(now, false), next];
    assert stages[1..] == [next];
  }

  lemma LastCycleApart(now: End, layout: seq<Pos>, initSide: Side, cycle: int, next: Stage) returns (stages: seq<Stage>)
    requires 1 <= cycle <= MAX_CYCLES && (next.over || cycle == MAX_CYCLES)
    requires CycleGoal(now, layout, initSide, cycle, next)
    ensures LeadOn(stages, now, layout, initSide, cycle, RestEnd(now, layout, initSide, cycle))
  {
    CycleStep(now, layout, initSide, cycle, next);
    stages := LastStages(now, next, layout, initSide, cycle, RestEnd(now, layout, initSide, cycle));
  }

  lemma CycleApart(now: End, layout: seq<Pos>, initSide: Side, cycle: int, next: Stage, rest: seq<Stage>)
    returns (stages: seq<Stage>)
    requires 1 <= cycle < MAX_CYCLES && !next.over
    requires CycleGoal(now, layout, initSide, cycle, next)
    requires LeadOn(rest, next.end, layout, initSide, cycle + 1, RestEnd(next.end, layout, initSide, cycle + 1))
    ensures LeadOn(stages, now, layout, initSide, cycle, RestEnd(now, layout, initSide, cycle))
  {
    CycleStep(now, layout, initSide, cycle, next);
    stages := OneMoreStage(now, next, rest, layout, initSide, cycle, RestEnd(now, layout, initSide, cycle));
  }

  /** The stages through which a whole battle leads to its end. */
  lemma {:induction false} CyclesApart(now: End, layout: seq<Pos>, initSide: Side, cycle: int)
    returns (stages: seq<Stage>)
    requires 1 <= cycle <= MAX_CYCLES
    ensures LeadOn(stages, now, layout, initSide, cycle, RestEnd(now, layout, initSide, cycle))
    decreases MAX_CYCLES - cycle
  {
    var next := AfterCycle(now, layout, initSide, cycle);
    if next.over || cycle == MAX_CYCLES {
      stages := LastCycleApart(now, layout, initSide, cycle, next);
    } else {
      var rest := CyclesApart(next.end, layout, initSide, cycle + 1);
      stages := CycleApart(now, layout, initSide, cycle, next, rest);
    }
  }

  /** A whole battle, from an empty log on, in stages. */
  lemma BattleStages(b: Board, layout: seq<Pos>, initSide: Side) returns (stages: seq<Stage>, end: End)
    ensures stages != [] && stages[0] == Stage(End(b, []), false) && CycleByCycle(stages, layout, initSide, 1, end)
    ensures end.log == Render(Battle(b, layout, initSide), layout)
  {
    end := RestEnd(End(b, []), layout, initSide, 1);
    stages := CyclesApart(End(b, []), layout, initSide, 1);
  }

  lemma DropOne<T>(s: seq<T>, i: nat)
    requires i < |s|
    ensures s[i..] == [s[i]] + s[i + 1..]
  {
  }
}
