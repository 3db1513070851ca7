/** Shape and size of the log. */
module BattleLog {
  import opened GameTypes
  import opened BattleSpec
  import opened BattleTrace
  import opened BattleReplay
  import opened BattleSlows

  // ---- how many events one act, one tick and one cycle can emit ----

  function Weight(unitId: UnitId): nat {
    match unitId case Fighter => 3 case Healer => 5 case Ranger => 4 case Tank => 2
  }

  lemma ActSize(b: Board, layout: seq<Pos>, a: Pos, cycle: int, tick: int)
    requires a in b
    ensures |UnitAct(b, layout, a, cycle, tick).events| <= Weight(b[a].unitId)
  {
    if b[a].unitId.Healer? {
      HealerSize(b, a, Target(b, layout, a), cycle, tick);
    }
  }

  lemma HealerSize(b: Board, a: Pos, target: Option<Pos>, cycle: int, tick: int)
    requires a in b && (target.Some? ==> target.value in b)
    ensures |HealerAct(b, a, target, cycle, tick).events| <= 5
  {
    var o1 := HealerStrike(b, a, target, cycle, tick);
    SupportSize(o1.board, a, cycle, tick);
  }

  lemma SupportSize(b: Board, h: Pos, cycle: int, tick: int)
    requires h in b
    ensures |SupportEffect(b, h, cycle, tick).events| <= 2
  {
  }

  /** The ticks at which a unit can act, slowed or not. */
  predicate MayAct(unitId: UnitId, tick: int) {
    ActsOnTick(SpdFor(unitId), tick) || ActsOnTick(SlowedSpd(unitId), tick)
  }

  function TicksUpTo(unitId: UnitId, tick: nat): nat
    decreases tick, unitId
  {
    if tick == 0 then 0 else TicksUpTo(unitId, tick - 1) + (if MayAct(unitId, tick) then 1 else 0)
  }

  function Cooldown(spd: int): int { TICKS_PER_CYCLE - spd }

  /** The acts within t ticks under an unchanging speed. */
  function SteadyActs(spd: int, tick: nat): nat
    decreases tick, spd
  {
    if tick == 0 then 0 else SteadyActs(spd, tick - 1) + (if ActsOnTick(spd, tick) then 1 else 0)
  }

  /** An unchanging cooldown c gives floor(t / c) acts within t ticks. */
  lemma {:induction false} SteadyCount(spd: int, tick: nat)
    requires 0 <= spd < TICKS_PER_CYCLE
    ensures SteadyActs(spd, tick) == tick / Cooldown(spd)
  {
    var c := Cooldown(spd);
    if tick > 0 {
      SteadyCount(spd, tick - 1);
      NextMultiple(tick, c);
    }
  }

  lemma {:induction false} TicksBound(unitId: UnitId, tick: nat)
    ensures TicksUpTo(unitId, tick) <= SteadyActs(SpdFor(unitId), tick) + SteadyActs(SlowedSpd(unitId), tick)
  {
    if tick > 0 {
      TicksBound(unitId, tick - 1);
    }
  }

  function MaxActs(unitId: UnitId): nat {
    match unitId case Fighter => 2 case Healer => 3 case Ranger => 4 case Tank => 2
  }

  lemma Quotients(unitId: UnitId)
    ensures 0 <= SpdFor(unitId) < TICKS_PER_CYCLE && 0 <= SlowedSpd(unitId) < TICKS_PER_CYCLE
    ensures TICKS_PER_CYCLE / Cooldown(SpdFor(unitId)) + TICKS_PER_CYCLE / Cooldown(SlowedSpd(unitId)) <= MaxActs(unitId)
  {
  }

  lemma MulMono(w: nat, x: int, y: int)
    requires x <= y
    ensures w * x <= w * y
  {
  }

  /** However often a unit is slowed and released, it acts at most four times in a cycle. */
  lemma ActsPerCycle(unitId: UnitId)
    ensures TicksUpTo(unitId, TICKS_PER_CYCLE) <= MaxActs(unitId) <= 4
    ensures Weight(unitId) * TicksUpTo(unitId, TICKS_PER_CYCLE) <= Weight(unitId) * MaxActs(unitId) <= 16
  {
    TicksBound(unitId, TICKS_PER_CYCLE);
    Quotients(unitId);
    SteadyCount(SpdFor(unitId), TICKS_PER_CYCLE);
    SteadyCount(SlowedSpd(unitId), TICKS_PER_CYCLE);
    MulMono(Weight(unitId), TicksUpTo(unitId, TICKS_PER_CYCLE), MaxActs(unitId));
  }

  lemma NextMultiple(t: int, c: int)
    requires t > 0 && c > 0
    ensures t / c == (t - 1) / c + if t % c == 0 then 1 else 0
  {
    var q, r := (t - 1) / c, (t - 1) % c;
    assert t - 1 == c * q + r;
    if r == c - 1 {
      assert t == c * (q + 1);
      DivMod(t, c, q + 1, 0);
    } else {
      DivMod(t, c, q, r + 1);
    }
  }

  lemma DivMod(t: int, c: int, q: int, r: int)
    requires c > 0 && t == c * q + r && 0 <= r < c
    ensures t / c == q && t % c == r
  {
    var x := t / c - q;
    assert c * x == r - t % c;
    assert x >= 1 ==> c * x >= c;
    assert x <= -1 ==> c * x <= -c;
  }

  function UnitWeight(b: Board, p: Pos): nat {
    if p in b then Weight(b[p].unitId) else 0
  }

  function QueueWeight(b: Board, queue: seq<Pos>): nat {
    if queue == [] then 0 else UnitWeight(b, queue[0]) + QueueWeight(b, queue[1..])
  }

  lemma {:induction false} QueueWeightConcat(b: Board, x: seq<Pos>, y: seq<Pos>)
    ensures QueueWeight(b, x + y) == QueueWeight(b, x) + QueueWeight(b, y)
    decreases |x|
  {
    if x == [] {
      assert x + y == y;
    } else {
      assert (x + y)[1..] == x[1..] + y;
      QueueWeightConcat(b, x[1..], y);
    }
  }

  lemma {:induction false} QueueWeightKeeps(b: Board, c: Board, queue: seq<Pos>)
    requires SameUnits(b, c)
    ensures QueueWeight(b, queue) == QueueWeight(c, queue)
    decreases |queue|
  {
    if queue != [] {
      QueueWeightKeeps(b, c, queue[1..]);
      assert queue[0] in b ==> IdentityOf(b[queue[0]]) == IdentityOf(c[queue[0]]);
    }
  }

  lemma {:induction false} QueueSize(b: Board, layout: seq<Pos>, queue: seq<Pos>, cycle: int, tick: int)
    ensures |AllEvents(RunQueue(b, layout, queue, cycle, tick))| <= QueueWeight(b, queue)
    decreases |queue|
  {
    if queue != [] {
      if AliveIn(b, queue[0]) {
        var act := ActOf(b, layout, queue[0], cycle, tick);
        var rest := RunQueue(act.post, layout, queue[1..], cycle, tick);
        ActSize(b, layout, queue[0], cycle, tick);
        ActKeepsUnits(b, layout, queue[0], cycle, tick);
        QueueWeightKeeps(b, act.post, queue[1..]);
        QueueSize(act.post, layout, queue[1..], cycle, tick);
        assert ([act] + rest)[1..] == rest;
      } else {
        QueueSize(b, layout, queue[1..], cycle, tick);
      }
    }
  }

  lemma {:induction false} EnqueueWeight(b: Board, queue: seq<Pos>, p: Pos)
    ensures QueueWeight(b, Enqueue(b, queue, p)) == QueueWeight(b, queue) + UnitWeight(b, p)
    decreases |queue|
  {
    if queue == [] {
      assert [p][1..] == [];
    } else if SpdAt(b, queue[0]) < SpdAt(b, p) {
      assert ([p] + queue)[1..] == queue;
    } else {
      EnqueueWeight(b, queue[1..], p);
      var rest := Enqueue(b, queue[1..], p);
      assert ([queue[0]] + rest)[1..] == rest;
    }
  }

  /** The events that the units on the first n slots of a side can emit in one tick. */
  function TickCap(b: Board, side: Side, tick: int, n: nat): nat
    requires n <= 9
    decreases n, b
  {
    if n == 0 then 0 else
    TickCap(b, side, tick, n - 1)
    + (if Pos(side, n - 1) in b && MayAct(b[Pos(side, n - 1)].unitId, tick) then UnitWeight(b, Pos(side, n - 1)) else 0)
  }

  lemma {:induction false} SideQueueCap(b: Board, side: Side, tick: int, n: nat)
    requires n <= 9 && forall p <- b :: Paced(b[p])
    ensures QueueWeight(b, SideQueue(b, side, tick, n)) <= TickCap(b, side, tick, n)
  {
    if n > 0 {
      SideQueueCap(b, side, tick, n - 1);
      EnqueueWeight(b, SideQueue(b, side, tick, n - 1), Pos(side, n - 1));
    }
  }

  /** The events that the units on the first n slots of a side can emit in ticks 1 to `tick`. */
  function CycleCap(b: Board, side: Side, tick: nat, n: nat): nat
    requires n <= 9
    decreases n, b
  {
    if n == 0 then 0 else
    CycleCap(b, side, tick, n - 1)
    + (if Pos(side, n - 1) in b then Weight(b[Pos(side, n - 1)].unitId) * TicksUpTo(b[Pos(side, n - 1)].unitId, tick) else 0)
  }

  lemma MulSucc(w: int, t: int, more: bool)
    ensures w * (if more then t + 1 else t) == w * t + if more then w else 0
  {
  }

  lemma TicksStep(u: UnitId, tick: nat)
    requires tick > 0
    ensures TicksUpTo(u, tick) == if MayAct(u, tick) then TicksUpTo(u, tick - 1) + 1 else TicksUpTo(u, tick - 1)
  {
  }

  lemma WeightedTicks(w: int, u: UnitId, tick: nat)
    requires tick > 0
    ensures w * TicksUpTo(u, tick) == w * TicksUpTo(u, tick - 1) + if MayAct(u, tick) then w else 0
  {
    TicksStep(u, tick);
    MulSucc(w, TicksUpTo(u, tick - 1), MayAct(u, tick));
  }

  lemma {:induction false} CycleCapStep(b: Board, side: Side, tick: nat, n: nat)
    requires n <= 9 && tick > 0
    ensures CycleCap(b, side, tick, n) == CycleCap(b, side, tick - 1, n) + TickCap(b, side, tick, n)
  {
    if n > 0 {
      CycleCapStep(b, side, tick, n - 1);
      var p := Pos(side, n - 1);
      if p in b {
        WeightedTicks(Weight(b[p].unitId), b[p].unitId, tick);
      }
    }
  }

  lemma {:induction false} CapsKeep(b: Board, c: Board, side: Side, tick: nat, n: nat)
    requires n <= 9 && SameUnits(b, c)
    ensures CycleCap(b, side, tick, n) == CycleCap(c, side, tick, n)
    ensures UnitsOf(b, side, n) == UnitsOf(c, side, n)
  {
    if n > 0 {
      CapsKeep(b, c, side, tick, n - 1);
      var p := Pos(side, n - 1);
      assert p in b ==> IdentityOf(b[p]) == IdentityOf(c[p]);
    }
  }

  function UnitsOf(b: Board, side: Side, n: nat := 9): nat
    requires n <= 9
    decreases n, b
  {
    if n == 0 then 0 else UnitsOf(b, side, n - 1) + (if Pos(side, n - 1) in b then 1 else 0)
  }

  lemma {:induction false} CycleCapBound(b: Board, side: Side, n: nat)
    requires n <= 9
    ensures CycleCap(b, side, TICKS_PER_CYCLE, n) <= 16 * UnitsOf(b, side, n)
  {
    if n > 0 {
      CycleCapBound(b, side, n - 1);
      var p := Pos(side, n - 1);
      if p in b {
        ActsPerCycle(b[p].unitId);
      }
    }
  }

  function Cap(b: Board, tick: nat): nat {
    CycleCap(b, P1, tick, 9) + CycleCap(b, P2, tick, 9)
  }

  lemma TickSize(b: Board, layout: seq<Pos>, initSide: Side, cycle: int, tick: int)
    requires SlowsSound(b) && tick > 0
    ensures
      var now := RunQueue(b, layout, ActingOrder(b, initSide, tick), cycle, tick);
      |AllEvents(now)| <= Cap(b, tick) - Cap(b, tick - 1)
  {
    var queue := ActingOrder(b, initSide, tick);
    QueueSize(b, layout, queue, cycle, tick);
    QueueWeightConcat(b, SideQueue(b, initSide, tick), SideQueue(b, initSide.Other(), tick));
    SideQueueCap(b, P1, tick, 9);
    SideQueueCap(b, P2, tick, 9);
    CycleCapStep(b, P1, tick, 9);
    CycleCapStep(b, P2, tick, 9);
  }

  lemma {:induction false} AllEventsConcat(x: seq<Act>, y: seq<Act>)
    ensures AllEvents(x + y) == AllEvents(x) + AllEvents(y)
    decreases |x|
  {
    if x == [] {
      assert x + y == y;
    } else {
      assert (x + y)[1..] == x[1..] + y;
      AllEventsConcat(x[1..], y);
    }
  }

  lemma RunKeepsAll(b: Board, layout: seq<Pos>, acts: seq<Act>)
    requires SlowsSound(b) && Run(b, LegalBy(layout), acts)
    ensures SlowsSound(After(b, acts)) && SameUnits(b, After(b, acts))
  {
    assert acts[..|acts|] == acts;
    RunKeepsSlowsSound(b, layout, acts, |acts|);
    RunKeepsUnits(b, layout, acts);
  }

  lemma CapKeeps(b: Board, c: Board, tick: nat)
    requires SameUnits(b, c)
    ensures Cap(b, tick) == Cap(c, tick)
    ensures UnitsOf(b, P1) + UnitsOf(b, P2) == UnitsOf(c, P1) + UnitsOf(c, P2)
  {
    CapsKeep(b, c, P1, tick, 9);
    CapsKeep(b, c, P2, tick, 9);
  }

  lemma TickEndCaps(b: Board, layout: seq<Pos>, initSide: Side, cycle: int, tick: int, end: Board)
    requires SlowsSound(b) && 1 <= tick <= TICKS_PER_CYCLE
    requires end == After(b, RunQueue(b, layout, ActingOrder(b, initSide, tick), cycle, tick))
    ensures SlowsSound(end) && Cap(end, tick) == Cap(b, tick) && Cap(end, TICKS_PER_CYCLE) == Cap(b, TICKS_PER_CYCLE)
  {
    var queue := ActingOrder(b, initSide, tick);
    QueueRuns(b, LegalBy(layout), layout, queue, cycle, tick);
    RunKeepsAll(b, layout, RunQueue(b, layout, queue, cycle, tick));
    CapKeeps(b, end, TICKS_PER_CYCLE);
    CapKeeps(b, end, tick);
  }

  lemma {:induction false} TicksSize(b: Board, layout: seq<Pos>, initSide: Side, cycle: int, tick: int)
    requires SlowsSound(b) && 1 <= tick <= TICKS_PER_CYCLE + 1
    ensures |AllEvents(RunTicks(b, layout, initSide, cycle, tick))| <= Cap(b, TICKS_PER_CYCLE) - Cap(b, tick - 1)
    decreases TICKS_PER_CYCLE + 1 - tick
  {
    if tick <= TICKS_PER_CYCLE {
      var queue := ActingOrder(b, initSide, tick);
      var now := RunQueue(b, layout, queue, cycle, tick);
      var end := After(b, now);
      TickSize(b, layout, initSide, cycle, tick);
      TickEndCaps(b, layout, initSide, cycle, tick, end);
      TicksSize(end, layout, initSide, cycle, tick + 1);
      AllEventsConcat(now, RunTicks(end, layout, initSide, cycle, tick + 1));
    }
  }

  lemma CycleSize(b: Board, layout: seq<Pos>, initSide: Side, cycle: int)
    requires SlowsSound(b)
    ensures |AllEvents(RunCycle(b, layout, initSide, cycle))| <= 16 * (UnitsOf(b, P1) + UnitsOf(b, P2)) + 1
  {
    var ticks := RunTicks(b, layout, initSide, cycle, 1);
    TicksSize(b, layout, initSide, cycle, 1);
    CycleCapBound(b, P1, 9);
    CycleCapBound(b, P2, 9);
    MarkerSize(After(b, ticks), cycle, CycleEnd(cycle));
    AllEventsConcat(ticks, [Marker(After(b, ticks), cycle, CycleEnd(cycle))]);
  }

  lemma MarkerSize(b: Board, cycle: int, event: Event)
    ensures AllEvents([Marker(b, cycle, event)]) == [event]
  {
    assert [Marker(b, cycle, event)][1..] == [];
  }

  lemma LastCycleSize(b: Board, layout: seq<Pos>, initSide: Side, cycle: int)
    requires SlowsSound(b) && 1 <= cycle <= MAX_CYCLES
    requires var end := After(b, RunCycle(b, layout, initSide, cycle)); Decided(end) || cycle == MAX_CYCLES
    ensures |AllEvents(RunCycles(b, layout, initSide, cycle))| <= 16 * (UnitsOf(b, P1) + UnitsOf(b, P2)) + 2
  {
    var acts := RunCycle(b, layout, initSide, cycle);
    var end := After(b, acts);
    CycleSize(b, layout, initSide, cycle);
    LastCycle(b, layout, initSide, cycle);
    var winner := if Decided(end) then WinnerOf(end) else None;
    MarkerSize(end, cycle, BattleEnd(cycle, winner));
    AllEventsConcat(acts, Verdict(end, cycle, winner));
  }

  /** Room for the cycles left, at 16 events per unit and one marker each. */
  function Budget(cycles: nat, n: nat): nat
    decreases cycles, n
  {
    if cycles == 0 then 1 else Budget(cycles - 1, n) + 16 * n + 1
  }

  lemma {:induction false} BudgetIs(cycles: nat, n: nat)
    ensures Budget(cycles, n) == cycles * (16 * n + 1) + 1
  {
    if cycles > 0 {
      BudgetIs(cycles - 1, n);
    }
  }

  /** From cycle c on, n units emit at most (16n + 1) events per cycle and one battle_end. */
  lemma {:induction false} CyclesSize(b: Board, layout: seq<Pos>, initSide: Side, cycle: int, n: nat)
    requires SlowsSound(b) && 1 <= cycle <= MAX_CYCLES && n == UnitsOf(b, P1) + UnitsOf(b, P2)
    ensures |AllEvents(RunCycles(b, layout, initSide, cycle))| <= Budget(MAX_CYCLES + 1 - cycle, n)
    decreases MAX_CYCLES - cycle
  {
    var end := After(b, RunCycle(b, layout, initSide, cycle));
    if Decided(end) || cycle == MAX_CYCLES {
      LastCycleSize(b, layout, initSide, cycle);
    } else {
      CycleKeepsAll(b, layout, initSide, cycle);
      CyclesSize(end, layout, initSide, cycle + 1, n);
      NextCycleSize(b, layout, initSide, cycle, RunCycles(end, layout, initSide, cycle + 1));
      MoreCycles(b, layout, initSide, cycle);
    }
  }

  lemma CycleKeepsAll(b: Board, layout: seq<Pos>, initSide: Side, cycle: int)
    requires SlowsSound(b)
    ensures
      var end := After(b, RunCycle(b, layout, initSide, cycle));
      SlowsSound(end) && UnitsOf(b, P1) + UnitsOf(b, P2) == UnitsOf(end, P1) + UnitsOf(end, P2)
  {
    var acts := RunCycle(b, layout, initSide, cycle);
    CycleRuns(b, LegalBy(layout), layout, initSide, cycle);
    RunKeepsAll(b, layout, acts);
    CapKeeps(b, After(b, acts), 0);
  }

  lemma NextCycleSize(b: Board, layout: seq<Pos>, initSide: Side, cycle: int, rest: seq<Act>)
    requires SlowsSound(b)
    ensures
      |AllEvents(RunCycle(b, layout, initSide, cycle) + rest)|
      <= |AllEvents(rest)| + 16 * (UnitsOf(b, P1) + UnitsOf(b, P2)) + 1
  {
    CycleSize(b, layout, initSide, cycle);
    AllEventsConcat(RunCycle(b, layout, initSide, cycle), rest);
  }

  /** A battle of n units emits at most 480n + 31 events. */
  lemma BattleSize(b: Board, layout: seq<Pos>, initSide: Side)
    requires SlowsSound(b)
    ensures |AllEvents(Battle(b, layout, initSide))| <= 480 * |b| + 31
  {
    UnitsCount(b);
    CyclesSize(b, layout, initSide, 1, |b|);
    BudgetIs(MAX_CYCLES, |b|);
  }

  /** The squares of a side that are taken among its first n slots. */
  ghost function Taken(b: Board, side: Side, n: nat): set<Pos> {
    set p | p in b && p.side == side && p.slot < n
  }

  lemma TakenStep(b: Board, side: Side, n: nat)
    requires 0 < n <= 9
    ensures
      var p := Pos(side, n - 1);
      p !in Taken(b, side, n - 1)
      && Taken(b, side, n) == if p in b then Taken(b, side, n - 1) + {p} else Taken(b, side, n - 1)
  {
  }

  lemma {:induction false} SideCount(b: Board, side: Side, n: nat)
    requires n <= 9
    ensures |Taken(b, side, n)| == UnitsOf(b, side, n)
  {
    if n == 0 {
      assert Taken(b, side, 0) == {};
    } else {
      SideCount(b, side, n - 1);
      TakenStep(b, side, n);
    }
  }

  lemma UnitsCount(b: Board)
    ensures UnitsOf(b, P1) + UnitsOf(b, P2) == |b|
  {
    SideCount(b, P1, 9);
    SideCount(b, P2, 9);
    var s1, s2 := Taken(b, P1, 9), Taken(b, P2, 9);
    assert s1 !! s2 && s1 + s2 == b.Keys;
    assert |b| == |b.Keys|;
  }

  // ---- the order of the log ----

  /** A tick of a cycle on one scale, with room for the end markers behind the last tick. */
  function Instant(cycle: int, tick: int): int { cycle * (TICKS_PER_CYCLE + 2) + tick }

  function TimeOf(a: Act): int { Instant(a.cycle, a.tick) }

  predicate Stamped(e: Event, cycle: int, tick: int) {
    match e
    case CycleEnd(c) => c == cycle
    case BattleEnd(c, _) => c == cycle
    case _ => e.cycle == cycle && e.tick == tick
  }

  ghost predicate AllStamped(events: seq<Event>, cycle: int, tick: int) {
    forall e <- events :: Stamped(e, cycle, tick)
  }

  /** An event of a unit's act, with the cycle and tick of that act. */
  predicate Plain(e: Event, cycle: int, tick: int) {
    !e.CycleEnd? && !e.BattleEnd? && e.cycle == cycle && e.tick == tick
  }

  ghost predicate AllPlain(events: seq<Event>, cycle: int, tick: int) {
    forall e <- events :: Plain(e, cycle, tick)
  }

  lemma DamagePlain(b: Board, t: Pos, dmg: int, s: Pos, cycle: int, tick: int)
    requires t in b && s in b
    ensures AllPlain(Damage(b, t, dmg, s, cycle, tick).events, cycle, tick)
  {
  }

  lemma SupportPlain(b: Board, h: Pos, cycle: int, tick: int)
    requires h in b
    ensures AllPlain(SupportEffect(b, h, cycle, tick).events, cycle, tick)
  {
  }

  lemma HealerPlain(b: Board, a: Pos, target: Option<Pos>, cycle: int, tick: int)
    requires a in b && (target.Some? ==> target.value in b)
    ensures AllPlain(HealerAct(b, a, target, cycle, tick).events, cycle, tick)
  {
    var o1 := HealerStrike(b, a, target, cycle, tick);
    var o2 := SupportEffect(o1.board, a, cycle, tick);
    assert AllPlain(o1.events, cycle, tick);
    SupportPlain(o1.board, a, cycle, tick);
    assert AllPlain(HealerSlow(o2.board, a, target, cycle, tick).events, cycle, tick);
  }

  lemma ActPlain(b: Board, layout: seq<Pos>, a: Pos, cycle: int, tick: int)
    requires a in b
    ensures AllPlain(UnitAct(b, layout, a, cycle, tick).events, cycle, tick)
  {
    var target := Target(b, layout, a);
    if b[a].unitId.Healer? {
      HealerPlain(b, a, target, cycle, tick);
    } else if target.Some? {
      DamagePlain(b, target.value, AtkFor(b[a].unitId, b[a].star), a, cycle, tick);
    }
  }

  /** Events carry the cycle and tick of their act, and time never runs backwards in [lo, hi]. */
  ghost predicate Ordered(acts: seq<Act>, lo: int, hi: int) {
    && (forall i | 0 <= i < |acts| :: lo <= TimeOf(acts[i]) <= hi && AllStamped(acts[i].events, acts[i].cycle, acts[i].tick))
    && (forall i, j | 0 <= i < j < |acts| :: TimeOf(acts[i]) <= TimeOf(acts[j]))
  }

  lemma OrderedConcat(x: seq<Act>, y: seq<Act>, a: int, b: int, c: int)
    requires Ordered(x, a, b) && Ordered(y, b, c) && a <= b <= c
    ensures Ordered(x + y, a, c)
  {
  }

  lemma {:induction false} QueueOrdered(b: Board, layout: seq<Pos>, queue: seq<Pos>, cycle: int, tick: int)
    ensures Ordered(RunQueue(b, layout, queue, cycle, tick), Instant(cycle, tick), Instant(cycle, tick))
    decreases |queue|
  {
    if queue != [] {
      if AliveIn(b, queue[0]) {
        var act := ActOf(b, layout, queue[0], cycle, tick);
        ActPlain(b, layout, queue[0], cycle, tick);
        QueueOrdered(act.post, layout, queue[1..], cycle, tick);
        var t := Instant(cycle, tick);
        assert Ordered([act], t, t);
        OrderedConcat([act], RunQueue(act.post, layout, queue[1..], cycle, tick), t, t, t);
      } else {
        QueueOrdered(b, layout, queue[1..], cycle, tick);
      }
    }
  }

  lemma Widen(acts: seq<Act>, lo: int, hi: int, lo2: int, hi2: int)
    requires Ordered(acts, lo, hi) && lo2 <= lo && hi <= hi2
    ensures Ordered(acts, lo2, hi2)
  {
  }

  lemma NextTickOrdered(
    b: Board, layout: seq<Pos>, queue: seq<Pos>, cycle: int, tick: int, rest: seq<Act>, last: int)
    requires Ordered(rest, Instant(cycle, tick + 1), last) && Instant(cycle, tick + 1) <= last
    ensures Ordered(RunQueue(b, layout, queue, cycle, tick) + rest, Instant(cycle, tick), last)
  {
    var now := RunQueue(b, layout, queue, cycle, tick);
    QueueOrdered(b, layout, queue, cycle, tick);
    Widen(now, Instant(cycle, tick), Instant(cycle, tick), Instant(cycle, tick), Instant(cycle, tick + 1));
    OrderedConcat(now, rest, Instant(cycle, tick), Instant(cycle, tick + 1), last);
  }

  lemma {:induction false} TicksOrdered(b: Board, layout: seq<Pos>, initSide: Side, cycle: int, tick: int)
    requires 1 <= tick <= TICKS_PER_CYCLE + 1
    ensures Ordered(RunTicks(b, layout, initSide, cycle, tick), Instant(cycle, tick), Instant(cycle, TICKS_PER_CYCLE + 1))
    decreases TICKS_PER_CYCLE + 1 - tick
  {
    if tick <= TICKS_PER_CYCLE {
      var queue := ActingOrder(b, initSide, tick);
      var end := After(b, RunQueue(b, layout, queue, cycle, tick));
      TicksOrdered(end, layout, initSide, cycle, tick + 1);
      NextTickOrdered(b, layout, queue, cycle, tick,
        RunTicks(end, layout, initSide, cycle, tick + 1), Instant(cycle, TICKS_PER_CYCLE + 1));
    }
  }

  lemma CycleOrdered(b: Board, layout: seq<Pos>, initSide: Side, cycle: int)
    ensures Ordered(RunCycle(b, layout, initSide, cycle), Instant(cycle, 1), Instant(cycle, TICKS_PER_CYCLE + 1))
  {
    var ticks := RunTicks(b, layout, initSide, cycle, 1);
    TicksOrdered(b, layout, initSide, cycle, 1);
    MarkerOrdered(After(b, ticks), cycle, CycleEnd(cycle));
    var t := Instant(cycle, TICKS_PER_CYCLE + 1);
    OrderedConcat(ticks, [Marker(After(b, ticks), cycle, CycleEnd(cycle))], Instant(cycle, 1), t, t);
  }

  lemma MarkerOrdered(b: Board, cycle: int, event: Event)
    requires Stamped(event, cycle, TICKS_PER_CYCLE + 1)
    ensures Ordered([Marker(b, cycle, event)], Instant(cycle, TICKS_PER_CYCLE + 1), Instant(cycle, TICKS_PER_CYCLE + 1))
  {
  }

  lemma LastCycleOrdered(b: Board, layout: seq<Pos>, initSide: Side, cycle: int)
    requires 1 <= cycle <= MAX_CYCLES
    requires var end := After(b, RunCycle(b, layout, initSide, cycle)); Decided(end) || cycle == MAX_CYCLES
    ensures Ordered(RunCycles(b, layout, initSide, cycle), Instant(cycle, 1), Instant(MAX_CYCLES, TICKS_PER_CYCLE + 1))
  {
    var acts := RunCycle(b, layout, initSide, cycle);
    var end := After(b, acts);
    var winner := if Decided(end) then WinnerOf(end) else None;
    CycleOrdered(b, layout, initSide, cycle);
    MarkerOrdered(end, cycle, BattleEnd(cycle, winner));
    LastCycle(b, layout, initSide, cycle);
    var t := Instant(cycle, TICKS_PER_CYCLE + 1);
    OrderedConcat(acts, Verdict(end, cycle, winner), Instant(cycle, 1), t, t);
    Widen(acts + Verdict(end, cycle, winner), Instant(cycle, 1), t, Instant(cycle, 1), Instant(MAX_CYCLES, TICKS_PER_CYCLE + 1));
  }

  lemma NextCycleOrdered(b: Board, layout: seq<Pos>, initSide: Side, cycle: int, rest: seq<Act>)
    requires 1 <= cycle < MAX_CYCLES && Ordered(rest, Instant(cycle + 1, 1), Instant(MAX_CYCLES, TICKS_PER_CYCLE + 1))
    ensures
      Ordered(RunCycle(b, layout, initSide, cycle) + rest, Instant(cycle, 1), Instant(MAX_CYCLES, TICKS_PER_CYCLE + 1))
  {
    var acts := RunCycle(b, layout, initSide, cycle);
    CycleOrdered(b, layout, initSide, cycle);
    Widen(acts, Instant(cycle, 1), Instant(cycle, TICKS_PER_CYCLE + 1), Instant(cycle, 1), Instant(cycle + 1, 1));
    OrderedConcat(acts, rest, Instant(cycle, 1), Instant(cycle + 1, 1), Instant(MAX_CYCLES, TICKS_PER_CYCLE + 1));
  }

  /** The log is ordered by cycle and tick, and ends by cycle 30. */
  lemma {:induction false} BattleOrdered(b: Board, layout: seq<Pos>, initSide: Side, cycle: int)
    requires 1 <= cycle <= MAX_CYCLES
    ensures Ordered(RunCycles(b, layout, initSide, cycle), Instant(cycle, 1), Instant(MAX_CYCLES, TICKS_PER_CYCLE + 1))
    decreases MAX_CYCLES - cycle
  {
    var end := After(b, RunCycle(b, layout, initSide, cycle));
    if Decided(end) || cycle == MAX_CYCLES {
      LastCycleOrdered(b, layout, initSide, cycle);
    } else {
      BattleOrdered(end, layout, initSide, cycle + 1);
      NextCycleOrdered(b, layout, initSide, cycle, RunCycles(end, layout, initSide, cycle + 1));
      MoreCycles(b, layout, initSide, cycle);
    }
  }

  /** The markers of a log, in order. */
  function Markers(events: seq<Event>): seq<Event> {
    if events == [] then []
    else if events[0].CycleEnd? || events[0].BattleEnd? then [events[0]] + Markers(events[1..])
    else Markers(events[1..])
  }

  lemma {:induction false} MarkersConcat(x: seq<Event>, y: seq<Event>)
    ensures Markers(x + y) == Markers(x) + Markers(y)
    decreases |x|
  {
    if x == [] {
      assert x + y == y;
    } else {
      assert (x + y)[1..] == x[1..] + y;
      MarkersConcat(x[1..], y);
    }
  }

  lemma {:induction false} NoMarkers(events: seq<Event>)
    requires forall e <- events :: !e.CycleEnd? && !e.BattleEnd?
    ensures Markers(events) == []
    decreases |events|
  {
    if events != [] {
      NoMarkers(events[1..]);
    }
  }

  lemma {:induction false} QueueUnmarked(b: Board, layout: seq<Pos>, queue: seq<Pos>, cycle: int, tick: int)
    ensures Markers(AllEvents(RunQueue(b, layout, queue, cycle, tick))) == []
    decreases |queue|
  {
    if queue != [] {
      if AliveIn(b, queue[0]) {
        var act := ActOf(b, layout, queue[0], cycle, tick);
        var rest := RunQueue(act.post, layout, queue[1..], cycle, tick);
        ActPlain(b, layout, queue[0], cycle, tick);
        NoMarkers(act.events);
        QueueUnmarked(act.post, layout, queue[1..], cycle, tick);
        assert ([act] + rest)[1..] == rest;
        MarkersConcat(act.events, AllEvents(rest));
      } else {
        QueueUnmarked(b, layout, queue[1..], cycle, tick);
      }
    }
  }

  lemma {:induction false} TicksUnmarked(b: Board, layout: seq<Pos>, initSide: Side, cycle: int, tick: int)
    requires 1 <= tick <= TICKS_PER_CYCLE + 1
    ensures Markers(AllEvents(RunTicks(b, layout, initSide, cycle, tick))) == []
    decreases TICKS_PER_CYCLE + 1 - tick
  {
    if tick <= TICKS_PER_CYCLE {
      var queue := ActingOrder(b, initSide, tick);
      var now := RunQueue(b, layout, queue, cycle, tick);
      QueueUnmarked(b, layout, queue, cycle, tick);
      TicksUnmarked(After(b, now), layout, initSide, cycle, tick + 1);
      AllEventsConcat(now, RunTicks(After(b, now), layout, initSide, cycle, tick + 1));
      MarkersConcat(AllEvents(now), AllEvents(RunTicks(After(b, now), layout, initSide, cycle, tick + 1)));
    }
  }

  lemma CycleMarked(b: Board, layout: seq<Pos>, initSide: Side, cycle: int)
    ensures Markers(AllEvents(RunCycle(b, layout, initSide, cycle))) == [CycleEnd(cycle)]
  {
    var ticks := RunTicks(b, layout, initSide, cycle, 1);
    TicksUnmarked(b, layout, initSide, cycle, 1);
    MarkerSize(After(b, ticks), cycle, CycleEnd(cycle));
    AllEventsConcat(ticks, [Marker(After(b, ticks), cycle, CycleEnd(cycle))]);
    MarkersConcat(AllEvents(ticks), [CycleEnd(cycle)]);
    OneMarker(CycleEnd(cycle));
  }

  lemma OneMarker(e: Event)
    requires e.CycleEnd? || e.BattleEnd?
    ensures Markers([e]) == [e]
  {
    assert [e][1..] == [];
  }

  function CycleEnds(lo: int, hi: int): seq<Event>
    requires lo <= hi + 1
    decreases hi + 1 - lo
  {
    if lo > hi then [] else [CycleEnd(lo)] + CycleEnds(lo + 1, hi)
  }

  /** Each cycle of the battle is closed by its cycle_end, and one battle_end closes the last. */
  ghost predicate WellClosed(events: seq<Event>, cycle: int) {
    exists k, winner :: cycle <= k <= MAX_CYCLES
      && Markers(events) == CycleEnds(cycle, k) + [BattleEnd(k, winner)]
      && events != [] && events[|events| - 1] == BattleEnd(k, winner)
  }

  lemma LastCycleClosed(b: Board, layout: seq<Pos>, initSide: Side, cycle: int)
    requires 1 <= cycle <= MAX_CYCLES
    requires var end := After(b, RunCycle(b, layout, initSide, cycle)); Decided(end) || cycle == MAX_CYCLES
    ensures WellClosed(AllEvents(RunCycles(b, layout, initSide, cycle)), cycle)
  {
    var acts := RunCycle(b, layout, initSide, cycle);
    var end := After(b, acts);
    var winner := if Decided(end) then WinnerOf(end) else None;
    var last := BattleEnd(cycle, winner);
    LastCycle(b, layout, initSide, cycle);
    CycleMarked(b, layout, initSide, cycle);
    MarkerSize(end, cycle, last);
    AllEventsConcat(acts, Verdict(end, cycle, winner));
    MarkersConcat(AllEvents(acts), [last]);
    OneMarker(last);
    assert CycleEnds(cycle, cycle) == [CycleEnd(cycle)];
  }

  lemma ClosedConcat(x: seq<Event>, y: seq<Event>, cycle: int)
    requires Markers(x) == [CycleEnd(cycle)] && WellClosed(y, cycle + 1) && cycle < MAX_CYCLES
    ensures WellClosed(x + y, cycle)
  {
    var k, winner :| cycle + 1 <= k <= MAX_CYCLES
      && Markers(y) == CycleEnds(cycle + 1, k) + [BattleEnd(k, winner)]
      && y != [] && y[|y| - 1] == BattleEnd(k, winner);
    MarkersConcat(x, y);
    assert (x + y)[|x + y| - 1] == y[|y| - 1];
    assert Markers(x + y) == CycleEnds(cycle, k) + [BattleEnd(k, winner)];
  }

  lemma {:induction false} BattleWellClosed(b: Board, layout: seq<Pos>, initSide: Side, cycle: int)
    requires 1 <= cycle <= MAX_CYCLES
    ensures WellClosed(AllEvents(RunCycles(b, layout, initSide, cycle)), cycle)
    decreases MAX_CYCLES - cycle
  {
    var acts := RunCycle(b, layout, initSide, cycle);
    var end := After(b, acts);
    if Decided(end) || cycle == MAX_CYCLES {
      LastCycleClosed(b, layout, initSide, cycle);
    } else {
      BattleWellClosed(end, layout, initSide, cycle + 1);
      CycleMarked(b, layout, initSide, cycle);
      MoreCycles(b, layout, initSide, cycle);
      var rest := RunCycles(end, layout, initSide, cycle + 1);
      AllEventsConcat(acts, rest);
      ClosedConcat(AllEvents(acts), AllEvents(rest), cycle);
    }
  }
}
