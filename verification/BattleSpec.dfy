/**
 * The battle as pure functions on a board of values. A square plays the role of a
 * reference to a unit; `layout` is the order in which the unit arrays list the squares.
 * The classes of module Engine are proved against these functions.
 *
 * A board named last in a `decreases` clause only keeps the verifier from unrolling a
 * call whose counters are literals.
 */
module BattleSpec {
  import opened GameTypes

  // ---- choosing units ----

  datatype Rank = Rank(major: int, minor: int)

  predicate Less(a: Rank, b: Rank) {
    a.major < b.major || (a.major == b.major && a.minor < b.minor)
  }

  datatype Criterion =
    | OwnLaneFirst(col: int)
    | LowestHp
    | WeakestAlly(exclude: Option<Pos>)

  /** Column-major position, the engine's tie-break between squares of one side. */
  function ColumnMajor(s: Slot): int { 3 * Col(s) + Row(s) }

  function RankOf(c: Criterion, u: UnitState): Rank {
    match c
    case OwnLaneFirst(col) => Rank(if Col(u.pos.slot) == col then 0 else 1, ColumnMajor(u.pos.slot))
    case LowestHp => Rank(u.hp, ColumnMajor(u.pos.slot))
    case WeakestAlly(_) => Rank(u.hp, u.id)
  }

  predicate Eligible(c: Criterion, u: UnitState) {
    u.alive && (c.WeakestAlly? ==> c.exclude != Some(u.pos))
  }

  /** The eligible unit of least rank among the first n slots of a side. */
  function Leader(b: Board, side: Side, c: Criterion, n: nat := 9): (r: Option<Pos>)
    requires n <= 9
    ensures r.Some? ==> r.value in b && r.value.side == side && Eligible(c, b[r.value])
    decreases n, b
  {
    if n == 0 then None else
    var rest := Leader(b, side, c, n - 1);
    var p := Pos(side, n - 1);
    if p !in b || !Eligible(c, b[p]) then rest
    else if rest.None? || Less(RankOf(c, b[p]), RankOf(c, b[rest.value])) then Some(p)
    else rest
  }

  predicate IsStar2Tank(u: UnitState) { u.unitId.Tank? && u.star == 2 }

  /** The first living 2-star tank of a side in array order. */
  function FirstTank2(b: Board, layout: seq<Pos>, side: Side): (r: Option<Pos>)
    ensures r.Some? ==> r.value in b && r.value.side == side && b[r.value].alive && IsStar2Tank(b[r.value])
  {
    if layout == [] then None
    else if layout[0] in b && layout[0].side == side && b[layout[0]].alive && IsStar2Tank(b[layout[0]])
    then Some(layout[0])
    else FirstTank2(b, layout[1..], side)
  }

  function Target(b: Board, layout: seq<Pos>, a: Pos): (r: Option<Pos>)
    requires a in b
    ensures r.Some? ==> r.value in b && r.value.side == a.side.Other() && b[r.value].alive
  {
    var enemy := a.side.Other();
    if b[a].unitId.Ranger? && b[a].star == 2 then Leader(b, enemy, LowestHp)
    else if !b[a].unitId.Ranger? && FirstTank2(b, layout, enemy).Some? then FirstTank2(b, layout, enemy)
    else Leader(b, enemy, OwnLaneFirst(Col(a.slot)))
  }

  // ---- effects ----

  predicate AliveIn(b: Board, p: Pos) {
    p in b && b[p].alive
  }

  datatype Outcome = Outcome(board: Board, events: seq<Event>)

  predicate Revives(u: UnitState, dmg: int) {
    dmg >= u.hp && u.unitId.Tank? && u.star >= 1 && !u.revived
  }

  function Hurt(u: UnitState, dmg: int): UnitState {
    if Revives(u, dmg) then u.(hp := u.maxHp / 2, revived := true)
    else if u.hp - dmg <= 0 then u.(hp := 0, alive := false)
    else u.(hp := u.hp - dmg)
  }

  function Damage(b: Board, t: Pos, dmg: int, s: Pos, cycle: int, tick: int): (o: Outcome)
    requires t in b && s in b
    ensures o.board.Keys == b.Keys
  {
    var u := Hurt(b[t], dmg);
    var attack := Attack(cycle, tick, WhoOf(b[s]), WhoOf(u), dmg, u.hp);
    var events :=
      if Revives(b[t], dmg) then [Revive(cycle, tick, WhoOf(u), u.hp)]
      else if b[t].hp - dmg <= 0 then [Death(cycle, tick, WhoOf(u)), attack]
      else [attack];
    Outcome(b[t := u], events)
  }

  function LifestealEffect(b: Board, f: Pos, dmg: int, cycle: int, tick: int): (o: Outcome)
    requires f in b
    ensures o.board.Keys == b.Keys
  {
    var heal := Max(0, Min(LifestealOf(dmg, b[f].star), b[f].maxHp - b[f].hp));
    var u := b[f].(hp := b[f].hp + heal);
    Outcome(b[f := u], [Lifesteal(cycle, tick, WhoOf(u), heal, u.hp)])
  }

  /** The spill of a primary hit onto the unit behind its target; it never revives anybody. */
  function SpillEffect(b: Board, r: Pos, p: Pos, dmg: int, cycle: int, tick: int): (o: Outcome)
    requires r in b && p in b
    ensures o.board.Keys == b.Keys
  {
    var spill := PierceOf(dmg);
    var hp := Max(0, b[p].hp - spill);
    var pierce := Pierce(cycle, tick, WhoOf(b[r]), WhoOf(b[p]), spill);
    if hp == 0 then Outcome(b[p := b[p].(hp := 0, alive := false)], [pierce, Death(cycle, tick, WhoOf(b[p]))])
    else Outcome(b[p := b[p].(hp := hp)], [pierce])
  }

  function PierceEffect(b: Board, r: Pos, t: Pos, dmg: int, cycle: int, tick: int): (o: Outcome)
    requires r in b && t in b
    ensures o.board.Keys == b.Keys
  {
    if Row(t.slot) + 1 > 2 then Outcome(b, []) else
    var p := Pos(r.side.Other(), t.slot + 3);
    if !AliveIn(b, p) then Outcome(b, []) else SpillEffect(b, r, p, dmg, cycle, tick)
  }

  function HealEffect(b: Board, t: Pos, h: Pos, cycle: int, tick: int): (o: Outcome)
    requires t in b && h in b
    ensures o.board.Keys == b.Keys
  {
    var amount := Min(HEAL_AMOUNT, b[t].maxHp - b[t].hp);
    if amount <= 0 then Outcome(b, []) else
    var u := b[t].(hp := b[t].hp + amount);
    Outcome(b[t := u], [Heal(cycle, tick, WhoOf(u), WhoOf(b[h]), amount, u.hp)])
  }

  function HealChosen(b: Board, t: Option<Pos>, h: Pos, cycle: int, tick: int): (o: Outcome)
    requires (t.Some? ==> t.value in b) && h in b
    ensures o.board.Keys == b.Keys
  {
    if t.None? then Outcome(b, []) else HealEffect(b, t.value, h, cycle, tick)
  }

  /** Heals the weakest living ally; a 2-star healer then heals the weakest of the others. */
  function SupportEffect(b: Board, h: Pos, cycle: int, tick: int): (o: Outcome)
    requires h in b
    ensures o.board.Keys == b.Keys
  {
    var first := Leader(b, h.side, WeakestAlly(None));
    var o1 := HealChosen(b, first, h, cycle, tick);
    if b[h].star != 2 then o1 else
    var o2 := HealChosen(o1.board, Leader(o1.board, h.side, WeakestAlly(first)), h, cycle, tick);
    Outcome(o2.board, o1.events + o2.events)
  }

  function Slowed(u: UnitState, healer: InstanceId): UnitState {
    u.(spd := Max(0, SlowedSpd(u.unitId)), slowActive := true, slowedBy := Some(healer))
  }

  function SlowEffect(b: Board, h: Pos, t: Pos, cycle: int, tick: int): (o: Outcome)
    requires h in b && t in b
    ensures o.board.Keys == b.Keys
  {
    var u := Slowed(b[t], b[h].id);
    Outcome(b[t := u], [Slow(cycle, tick, WhoOf(u), WhoOf(b[h]))])
  }

  function Released(u: UnitState, healer: InstanceId): UnitState {
    if u.slowedBy == Some(healer) then u.(spd := SpdFor(u.unitId), slowActive := false, slowedBy := None)
    else u
  }

  function ClearSlows(b: Board, healer: InstanceId): (r: Board)
    ensures r.Keys == b.Keys
  {
    map p | p in b :: Released(b[p], healer)
  }

  // ---- one act ----

  function FighterAct(b: Board, a: Pos, t: Pos, cycle: int, tick: int): (o: Outcome)
    requires a in b && t in b
    ensures o.board.Keys == b.Keys
  {
    var dmg := AtkFor(Fighter, b[a].star);
    var o1 := Damage(b, t, dmg, a, cycle, tick);
    if dmg > 0 && o1.board[a].star >= 1 then
      var o2 := LifestealEffect(o1.board, a, dmg, cycle, tick);
      Outcome(o2.board, o1.events + o2.events)
    else o1
  }

  function RangerAct(b: Board, a: Pos, t: Pos, cycle: int, tick: int): (o: Outcome)
    requires a in b && t in b
    ensures o.board.Keys == b.Keys
  {
    var dmg := AtkFor(Ranger, b[a].star);
    var o1 := Damage(b, t, dmg, a, cycle, tick);
    if o1.board[a].star == 1 then
      var o2 := PierceEffect(o1.board, a, t, dmg, cycle, tick);
      Outcome(o2.board, o1.events + o2.events)
    else o1
  }

  /** A healer that attacks first releases every unit that she had slowed. */
  function HealerStrike(b: Board, a: Pos, target: Option<Pos>, cycle: int, tick: int): (o: Outcome)
    requires a in b && (target.Some? ==> target.value in b)
    ensures o.board.Keys == b.Keys
  {
    if target.None? then Outcome(b, [])
    else Damage(ClearSlows(b, b[a].id), target.value, AtkFor(Healer, b[a].star), a, cycle, tick)
  }

  function HealerSlow(b: Board, a: Pos, target: Option<Pos>, cycle: int, tick: int): (o: Outcome)
    requires a in b && (target.Some? ==> target.value in b)
    ensures o.board.Keys == b.Keys
  {
    if b[a].star >= 1 && target.Some? then SlowEffect(b, a, target.value, cycle, tick) else Outcome(b, [])
  }

  function HealerAct(b: Board, a: Pos, target: Option<Pos>, cycle: int, tick: int): (o: Outcome)
    requires a in b && (target.Some? ==> target.value in b)
    ensures o.board.Keys == b.Keys
  {
    var o1 := HealerStrike(b, a, target, cycle, tick);
    var o2 := SupportEffect(o1.board, a, cycle, tick);
    var o3 := HealerSlow(o2.board, a, target, cycle, tick);
    Outcome(o3.board, o1.events + o2.events + o3.events)
  }

  function UnitAct(b: Board, layout: seq<Pos>, a: Pos, cycle: int, tick: int): (o: Outcome)
    requires a in b
    ensures o.board.Keys == b.Keys
  {
    var target := Target(b, layout, a);
    if b[a].unitId.Healer? then HealerAct(b, a, target, cycle, tick)
    else if target.None? then Outcome(b, [])
    else if b[a].unitId.Fighter? then FighterAct(b, a, target.value, cycle, tick)
    else if b[a].unitId.Ranger? then RangerAct(b, a, target.value, cycle, tick)
    else Damage(b, target.value, AtkFor(Tank, b[a].star), a, cycle, tick)
  }

  // ---- a whole battle, as the list of its acts ----

  /** One act of a unit, or (without an actor) the end of a cycle or of the battle. */
  datatype Act = Act(pre: Board, cycle: int, tick: int, actor: Option<Pos>, events: seq<Event>, post: Board)

  function SpdAt(b: Board, p: Pos): int {
    if p in b then b[p].spd else 0
  }

  /** Inserts a square by falling speed, behind squares of the same speed. */
  function Enqueue(b: Board, queue: seq<Pos>, p: Pos): seq<Pos> {
    if queue == [] then [p]
    else if SpdAt(b, queue[0]) < SpdAt(b, p) then [p] + queue
    else [queue[0]] + Enqueue(b, queue[1..], p)
  }

  predicate Acts(b: Board, p: Pos, tick: int) {
    p in b && b[p].alive && ActsOnTick(b[p].spd, tick)
  }

  /** The acting units of one side, by falling speed and then by slot. */
  function SideQueue(b: Board, side: Side, tick: int, n: nat := 9): seq<Pos>
    requires n <= 9
    decreases n, b
  {
    if n == 0 then [] else
    var rest := SideQueue(b, side, tick, n - 1);
    if Acts(b, Pos(side, n - 1), tick) then Enqueue(b, rest, Pos(side, n - 1)) else rest
  }

  function ActingOrder(b: Board, initSide: Side, tick: int): seq<Pos> {
    SideQueue(b, initSide, tick) + SideQueue(b, initSide.Other(), tick)
  }

  /** The board after a list of acts that starts on b. */
  function After(b: Board, acts: seq<Act>): Board {
    if acts == [] then b else acts[|acts| - 1].post
  }

  function ActOf(b: Board, layout: seq<Pos>, a: Pos, cycle: int, tick: int): Act
    requires a in b
  {
    var o := UnitAct(b, layout, a, cycle, tick);
    Act(b, cycle, tick, Some(a), o.events, o.board)
  }

  /** Lets the queue act in order; a unit killed earlier in the tick is skipped. */
  function RunQueue(b: Board, layout: seq<Pos>, queue: seq<Pos>, cycle: int, tick: int): seq<Act> {
    if queue == [] then []
    else if !AliveIn(b, queue[0]) then RunQueue(b, layout, queue[1..], cycle, tick)
    else
      var act := ActOf(b, layout, queue[0], cycle, tick);
      [act] + RunQueue(act.post, layout, queue[1..], cycle, tick)
  }

  /** Ticks `tick` to 100 of one cycle. */
  function RunTicks(b: Board, layout: seq<Pos>, initSide: Side, cycle: int, tick: int): seq<Act>
    requires 1 <= tick <= TICKS_PER_CYCLE + 1
    decreases TICKS_PER_CYCLE + 1 - tick, b
  {
    if tick == TICKS_PER_CYCLE + 1 then [] else
    var now := RunQueue(b, layout, ActingOrder(b, initSide, tick), cycle, tick);
    now + RunTicks(After(b, now), layout, initSide, cycle, tick + 1)
  }

  ghost predicate HasLiving(b: Board, side: Side) {
    exists p :: p in b && p.side == side && b[p].alive
  }

  ghost function WinnerOf(b: Board): Option<Side> {
    if !HasLiving(b, P1) && !HasLiving(b, P2) then None
    else if !HasLiving(b, P1) then Some(P2)
    else Some(P1)
  }

  function Marker(b: Board, cycle: int, event: Event): Act {
    Act(b, cycle, TICKS_PER_CYCLE + 1, None, [event], b)
  }

  /** One cycle: its ticks and the cycle_end that closes it. */
  function RunCycle(b: Board, layout: seq<Pos>, initSide: Side, cycle: int): (r: seq<Act>)
    ensures r != []
  {
    var ticks := RunTicks(b, layout, initSide, cycle, 1);
    ticks + [Marker(After(b, ticks), cycle, CycleEnd(cycle))]
  }

  ghost predicate Decided(b: Board) {
    !HasLiving(b, P1) || !HasLiving(b, P2)
  }

  /** Cycles `cycle` to 30, closed by the one battle_end. */
  ghost function RunCycles(b: Board, layout: seq<Pos>, initSide: Side, cycle: int): (r: seq<Act>)
    requires 1 <= cycle <= MAX_CYCLES
    ensures r != []
    decreases MAX_CYCLES - cycle, b
  {
    var acts := RunCycle(b, layout, initSide, cycle);
    var end := After(b, acts);
    if Decided(end) then acts + [Marker(end, cycle, BattleEnd(cycle, WinnerOf(end)))]
    else if cycle == MAX_CYCLES then acts + [Marker(end, cycle, BattleEnd(cycle, None))]
    else acts + RunCycles(end, layout, initSide, cycle + 1)
  }

  ghost function Battle(b: Board, layout: seq<Pos>, initSide: Side): seq<Act> {
    RunCycles(b, layout, initSide, 1)
  }

  // ---- the log ----

  function AllEvents(acts: seq<Act>): seq<Event> {
    if acts == [] then [] else acts[0].events + AllEvents(acts[1..])
  }

  /** The snapshot of a board, listed in array order. */
  function Listing(b: Board, layout: seq<Pos>): seq<UnitSnapshot> {
    if layout == [] then []
    else if layout[0] in b then [SnapshotOf(b[layout[0]])] + Listing(b, layout[1..])
    else Listing(b, layout[1..])
  }

  function Stamp(events: seq<Event>, states: seq<UnitSnapshot>): (r: seq<LogEntry>)
    ensures |r| == |events|
    ensures forall i | 0 <= i < |r| :: r[i] == LogEntry(events[i], states)
  {
    seq(|events|, i requires 0 <= i < |events| => LogEntry(events[i], states))
  }

  /** The emitted log: every event of an act carries the board after that act. */
  function Render(acts: seq<Act>, layout: seq<Pos>): seq<LogEntry> {
    if acts == [] then []
    else Stamp(acts[0].events, Listing(acts[0].post, layout)) + Render(acts[1..], layout)
  }
}
