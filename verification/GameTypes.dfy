/** Combat types and stat tables: backend/src/game/types.ts and constants.ts. */
module GameTypes {

  datatype Option<+T> = None | Some(value: T)

  function Max(x: int, y: int): int { if x < y then y else x }

  function Min(x: int, y: int): int { if x < y then x else y }

  datatype Side = P1 | P2 {
    function Other(): Side {
      if P1? then P2 else P1
    }
  }

  datatype UnitId = Fighter | Healer | Ranger | Tank

  type Star = s: int | 0 <= s <= 2

  /** Row-major index into a 3x3 board: row 0 is the front, a column is a lane. */
  type Slot = s: int | 0 <= s < 9

  function Row(s: Slot): int { s / 3 }

  function Col(s: Slot): int { s % 3 }

  /** Rank of an instance id under the total order that localeCompare induces. */
  type InstanceId = int

  /** A board square. Slots are unique per side, so a square names a unit. */
  datatype Pos = Pos(side: Side, slot: Slot)

  /** The value of one unit: identity first, then the fields a battle changes. */
  datatype UnitState = UnitState(
    pos: Pos, id: InstanceId, unitId: UnitId, star: Star, maxHp: int,
    hp: int, alive: bool, revived: bool,
    slowActive: bool, slowedBy: Option<InstanceId>, spd: int)

  type Board = map<Pos, UnitState>

  /** Every square holds the unit that says it stands there. */
  ghost predicate Placed(b: Board) {
    forall p <- b :: b[p].pos == p
  }

  ghost predicate WellFormed(b: Board) {
    Placed(b) && forall p, q :: p in b && q in b && b[p].id == b[q].id ==> p == q
  }

  /** The identity fields an event repeats for each unit that it names. */
  datatype Who = Who(id: InstanceId, side: Side, slot: Slot, unitId: UnitId, star: Star)

  function WhoOf(u: UnitState): Who {
    Who(u.id, u.pos.side, u.pos.slot, u.unitId, u.star)
  }

  datatype Event =
    | Attack(cycle: int, tick: int, attacker: Who, target: Who, damage: int, targetHpAfter: int)
    | Death(cycle: int, tick: int, unit: Who)
    | Revive(cycle: int, tick: int, unit: Who, hpAfter: int)
    | Heal(cycle: int, tick: int, target: Who, healer: Who, amount: int, targetHpAfter: int)
    | Lifesteal(cycle: int, tick: int, unit: Who, amount: int, hpAfter: int)
    | Pierce(cycle: int, tick: int, attacker: Who, target: Who, damage: int)
    | Slow(cycle: int, tick: int, target: Who, healer: Who)
    | CycleEnd(cycle: int)
    | BattleEnd(cycle: int, winner: Option<Side>)

  /** What a client sees of one unit. */
  datatype UnitSnapshot = UnitSnapshot(
    id: InstanceId, unitId: UnitId, star: Star, hp: int, maxHp: int, pos: Pos, alive: bool)

  function SnapshotOf(u: UnitState): UnitSnapshot {
    UnitSnapshot(u.id, u.unitId, u.star, u.hp, u.maxHp, u.pos, u.alive)
  }

  /** An event with the board snapshot attached to it; empty until it is attached. */
  datatype LogEntry = LogEntry(event: Event, unitStates: seq<UnitSnapshot>)

  // ---- constants.ts ----

  const MAX_CYCLES := 30
  const TICKS_PER_CYCLE := 100
  const HEAL_AMOUNT := 10

  function BaseHp(unitId: UnitId): nat {
    match unitId
    case Fighter => 100
    case Healer => 70
    case Ranger => 60
    case Tank => 150
  }

  function BaseAtk(unitId: UnitId): int {
    match unitId
    case Fighter => 15
    case Healer => 6
    case Ranger => 12
    case Tank => 8
  }

  function SpdFor(unitId: UnitId): int {
    match unitId
    case Fighter => 20
    case Healer => 50
    case Ranger => 67
    case Tank => 0
  }

  /** floor(atk * mult) with mult 1, 1.5 or 2. */
  function AtkFor(unitId: UnitId, star: Star): int {
    BaseAtk(unitId) * (2 + star) / 2
  }

  /** round(spd * 0.7), clamped at 0. */
  function SlowedSpd(unitId: UnitId): int {
    (SpdFor(unitId) * 7 + 5) / 10
  }

  /** floor(damage * rate) with rate 0, 0.05 or 0.1 by star. */
  function LifestealOf(damage: int, star: Star): int {
    damage * 5 * star / 100
  }

  /** floor(damage * 0.1). */
  function PierceOf(damage: int): int {
    damage / 10
  }

  predicate ActsOnTick(spd: int, tick: int) {
    var cooldown := TICKS_PER_CYCLE - spd;
    if cooldown <= 0 then tick == TICKS_PER_CYCLE else tick % cooldown == 0
  }
}
