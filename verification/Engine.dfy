/**
 * The combat engine on mutable units: backend/src/game/engine.ts, damage.ts and abilities.ts.
 * Every method is proved to do to the units and to the event list what its counterpart in
 * module BattleSpec does to a board of values.
 */
module Engine {
  import opened GameTypes
  import opened BattleSpec
  import Rng
  import Targeting
  import opened TurnOrder
  import opened BattleEnds
  import opened BattleStart

  class BattleUnit {
    const pos: Pos
    const id: InstanceId
    const unitId: UnitId
    const star: Star
    const maxHp: int
    var hp: int
    var alive: bool
    var revived: bool
    var slowActive: bool
    var slowedBy: Option<InstanceId>
    var spd: int

    constructor (s: UnitState)
      ensures State() == s
    {
      pos, id, unitId, star, maxHp := s.pos, s.id, s.unitId, s.star, s.maxHp;
      hp, alive, revived := s.hp, s.alive, s.revived;
      slowActive, slowedBy, spd := s.slowActive, s.slowedBy, s.spd;
    }

    function State(): UnitState
      reads this
    {
      UnitState(pos, id, unitId, star, maxHp, hp, alive, revived, slowActive, slowedBy, spd)
    }

    function Who(): Who { GameTypes.Who.Who(id, pos.side, pos.slot, unitId, star) }
  }

  function States(us: seq<BattleUnit>): seq<UnitState>
    reads us
  {
    if us == [] then [] else [us[0].State()] + States(us[1..])
  }

  function Squares(us: seq<BattleUnit>): seq<Pos> {
    if us == [] then [] else [us[0].pos] + Squares(us[1..])
  }

  function Snapshots(us: seq<BattleUnit>): seq<UnitSnapshot>
    reads us
  {
    if us == [] then [] else [SnapshotOf(us[0].State())] + Snapshots(us[1..])
  }

  /** find: the unit of a list that stands on a square. */
  method UnitOn(us: seq<BattleUnit>, p: Pos) returns (u: BattleUnit?)
    ensures u != null ==> u in us && u.pos == p
    ensures u == null ==> forall v <- us :: v.pos != p
  {
    for i := 0 to |us|
      invariant forall j | 0 <= j < i :: us[j].pos != p
    {
      if us[i].pos == p {
        return us[i];
      }
    }
    u := null;
  }

  function SquareOf(u: BattleUnit?): Option<Pos> {
    if u == null then None else Some(u.pos)
  }

  // ---- tie-tick order ----

  ghost predicate InOrder(us: seq<BattleUnit>, initSide: Side)
    reads us
  {
    forall i, j | 0 <= i < j < |us| :: !ActsBefore(us[j].State(), us[i].State(), initSide)
  }

  lemma InsertInOrder(sorted: seq<BattleUnit>, j: nat, u: BattleUnit, initSide: Side)
    requires InOrder(sorted, initSide) && j <= |sorted|
    requires forall k | j <= k < |sorted| :: ActsBefore(u.State(), sorted[k].State(), initSide)
    requires j > 0 ==> !ActsBefore(u.State(), sorted[j - 1].State(), initSide)
    ensures InOrder(sorted[..j] + [u] + sorted[j..], initSide)
  {
    var r := sorted[..j] + [u] + sorted[j..];
    forall x, y | 0 <= x < y < |r| ensures !ActsBefore(r[y].State(), r[x].State(), initSide) {
      if y == j && j > 0 {
        ActsBeforeTotal(sorted[x].State(), sorted[j - 1].State(), u.State(), initSide);
        assert x < j - 1 ==> !ActsBefore(sorted[j - 1].State(), sorted[x].State(), initSide);
      } else if x == j {
        ActsBeforeTotal(u.State(), sorted[y - 1].State(), u.State(), initSide);
      }
    }
  }

  ghost predicate Distinct(us: seq<BattleUnit>) {
    forall i, j | 0 <= i < j < |us| :: us[i] != us[j]
  }

  method Insert(sorted: seq<BattleUnit>, u: BattleUnit, initSide: Side) returns (r: seq<BattleUnit>)
    requires InOrder(sorted, initSide) && Distinct(sorted) && u !in sorted
    ensures InOrder(r, initSide) && Distinct(r)
    ensures forall v :: v in r <==> v == u || v in sorted
  {
    var j := |sorted|;
    while j > 0 && ActsBefore(u.State(), sorted[j - 1].State(), initSide)
      invariant 0 <= j <= |sorted|
      invariant forall k | j <= k < |sorted| :: ActsBefore(u.State(), sorted[k].State(), initSide)
    {
      j := j - 1;
    }
    InsertInOrder(sorted, j, u, initSide);
    r := sorted[..j] + [u] + sorted[j..];
    assert forall v :: v in sorted <==> v in sorted[..j] || v in sorted[j..];
  }

  /** Sorts the acting units of a tick by insertion. */
  method OrderForTick(acting: seq<BattleUnit>, initSide: Side) returns (sorted: seq<BattleUnit>)
    requires Distinct(acting)
    ensures InOrder(sorted, initSide) && Distinct(sorted)
    ensures forall v :: v in sorted <==> v in acting
  {
    sorted := [];
    for i := 0 to |acting|
      invariant InOrder(sorted, initSide) && Distinct(sorted)
      invariant forall v :: v in sorted <==> v in acting[..i]
    {
      sorted := Insert(sorted, acting[i], initSide);
    }
  }

  /** The entries up to index i carry the snapshot, the later ones none yet. */
  ghost predicate HalfStamped(events: seq<LogEntry>, log: seq<LogEntry>, es: seq<Event>, states: seq<UnitSnapshot>, i: int) {
    && |events| == |log| + |es|
    && (forall k | 0 <= k < |log| :: events[k] == log[k])
    && (forall k | |log| <= k < |events| :: events[k] == LogEntry(es[k - |log|], if k < i then states else []))
  }

  lemma NoneStamped(log: seq<LogEntry>, es: seq<Event>, states: seq<UnitSnapshot>)
    ensures HalfStamped(log + Stamp(es, []), log, es, states, |log|)
  {
  }

  lemma OneMoreStamped(events: seq<LogEntry>, log: seq<LogEntry>, es: seq<Event>, states: seq<UnitSnapshot>, i: int)
    requires HalfStamped(events, log, es, states, i) && |log| <= i < |events|
    ensures HalfStamped(events[i := LogEntry(events[i].event, states)], log, es, states, i + 1)
  {
  }

  lemma AllStamped(events: seq<LogEntry>, log: seq<LogEntry>, es: seq<Event>, states: seq<UnitSnapshot>)
    requires HalfStamped(events, log, es, states, |events|)
    ensures events == log + Stamp(es, states)
  {
  }

  lemma StampTwice(log: seq<LogEntry>, x: seq<Event>, y: seq<Event>)
    ensures log + Stamp(x, []) + Stamp(y, []) == log + Stamp(x + y, [])
  {
    assert Stamp(x + y, []) == Stamp(x, []) + Stamp(y, []);
  }

  /** The squares of the list are released from the healer, the others at most so. */
  ghost predicate PartlyReleased(b: Board, now: Board, squares: seq<Pos>, healer: InstanceId) {
    && now.Keys == b.Keys
    && (forall p <- now :: now[p] == Released(b[p], healer) || (now[p] == b[p] && p !in squares))
  }

  lemma ReleaseOneMore(b: Board, now: Board, squares: seq<Pos>, p: Pos, healer: InstanceId)
    requires PartlyReleased(b, now, squares, healer) && p in now
    ensures PartlyReleased(b, now[p := Released(now[p], healer)], squares + [p], healer)
  {
  }

  lemma TakeOneMore<T>(s: seq<T>, i: nat)
    requires i < |s|
    ensures s[..i + 1] == s[..i] + [s[i]]
  {
  }

  lemma AllReleased(b: Board, now: Board, squares: seq<Pos>, healer: InstanceId)
    requires PartlyReleased(b, now, squares, healer) && forall p <- b :: p in squares
    ensures now == ClearSlows(b, healer)
  {
  }

  // ---- the arrays of a battle ----

  lemma {:induction false} SquaresAre(us: seq<BattleUnit>)
    ensures |Squares(us)| == |us|
    ensures forall i | 0 <= i < |us| :: Squares(us)[i] == us[i].pos
    decreases |us|
  {
    if us != [] {
      SquaresAre(us[1..]);
    }
  }

  lemma {:induction false} SquaresConcat(x: seq<BattleUnit>, y: seq<BattleUnit>)
    ensures Squares(x + y) == Squares(x) + Squares(y)
    decreases |x|
  {
    if x == [] {
      assert x + y == y;
    } else {
      assert (x + y)[1..] == x[1..] + y;
      SquaresConcat(x[1..], y);
    }
  }

  lemma {:induction false} ListedConcat(b: Board, x: seq<Pos>, y: seq<Pos>, side: Side)
    ensures Targeting.Listed(b, x + y, side) == Targeting.Listed(b, x, side) + Targeting.Listed(b, y, side)
    decreases |x|
  {
    if x == [] {
      assert x + y == y;
    } else {
      assert (x + y)[1..] == x[1..] + y;
      ListedConcat(b, x[1..], y, side);
    }
  }

  /** The board holds the state of every listed unit. */
  ghost predicate Shows(b: Board, us: seq<BattleUnit>)
    reads us
  {
    forall u <- us :: u.pos in b && b[u.pos] == u.State()
  }

  lemma {:induction false} StatesAreListed(b: Board, us: seq<BattleUnit>, side: Side)
    requires Shows(b, us) && forall u <- us :: u.pos.side == side
    ensures Targeting.Listed(b, Squares(us), side) == States(us)
    ensures Targeting.Listed(b, Squares(us), side.Other()) == []
    decreases |us|
  {
    if us != [] {
      StatesAreListed(b, us[1..], side);
      assert Squares(us)[1..] == Squares(us[1..]);
    }
  }

  lemma {:induction false} SnapshotsAreListing(b: Board, us: seq<BattleUnit>)
    requires Shows(b, us)
    ensures Snapshots(us) == Listing(b, Squares(us))
    decreases |us|
  {
    if us != [] {
      SnapshotsAreListing(b, us[1..]);
      assert Squares(us)[1..] == Squares(us[1..]);
    }
  }

  /** A hit that revives nobody, with the events that it logs. */
  lemma WoundOutcome(b: Board, t: Pos, dmg: int, s: Pos, cycle: int, tick: int, u: UnitState, death: seq<Event>)
    requires t in b && s in b && !Revives(b[t], dmg) && u == Hurt(b[t], dmg)
    requires death == if b[t].hp - dmg <= 0 then [Death(cycle, tick, WhoOf(u))] else []
    ensures Damage(b, t, dmg, s, cycle, tick)
         == Outcome(b[t := u], death + [Attack(cycle, tick, WhoOf(b[s]), WhoOf(u), dmg, u.hp)])
  {
  }

  /** The two unit arrays and the growing event list of one battle. */
  class Battle {
    const p1Units: seq<BattleUnit>
    const p2Units: seq<BattleUnit>
    var events: seq<LogEntry>
    /** The unit on each square, and its state. */
    ghost const at: map<Pos, BattleUnit>
    ghost var board: Board

    function Units(): seq<BattleUnit> { p1Units + p2Units }

    function UnitsOf(side: Side): seq<BattleUnit> { if side.P1? then p1Units else p2Units }

    function Layout(): seq<Pos> { Squares(Units()) }

    ghost predicate Seats(u: BattleUnit) {
      u.pos in at && at[u.pos] == u
    }

    /** Each array holds units of its side, on squares of their own, with ids of their own. */
    ghost predicate Arrayed() {
      && (forall u <- p1Units :: u.pos.side == P1 && Seats(u))
      && (forall u <- p2Units :: u.pos.side == P2 && Seats(u))
      && (forall i, j | 0 <= i < j < |Units()| :: Units()[i].pos != Units()[j].pos)
      && (forall p, q :: p in at && q in at && at[p].id == at[q].id ==> p == q)
    }

    ghost predicate Valid()
      reads this, p1Units, p2Units
    {
      && (forall p <- at :: at[p].pos == p && at[p] in UnitsOf(p.side))
      && board.Keys == at.Keys
      && forall p <- board :: board[p] == at[p].State()
    }

    constructor (p1: seq<BattleUnit>, p2: seq<BattleUnit>, ghost at: map<Pos, BattleUnit>, ghost b: Board)
      ensures p1Units == p1 && p2Units == p2 && events == [] && this.at == at && board == b
    {
      p1Units, p2Units, events := p1, p2, [];
      this.at, board := at, b;
    }

    /** Valid, but for the state of one unit that is being changed. */
    ghost predicate ValidBut(u: BattleUnit)
      reads this, p1Units, p2Units
    {
      && (forall p <- at :: at[p].pos == p && at[p] in UnitsOf(p.side))
      && board.Keys == at.Keys
      && Seats(u)
      && forall p <- board :: p != u.pos ==> board[p] == at[p].State()
    }

    /** Brings the board up to date with a changed unit. */
    ghost method Record(u: BattleUnit)
      requires ValidBut(u)
      modifies this`board
      ensures Valid() && board == old(board)[u.pos := u.State()]
    {
      board := board[u.pos := u.State()];
    }

    lemma LayoutCovers()
      requires Valid()
      ensures Targeting.CoversBoard(board, Layout())
    {
      SquaresAre(Units());
      forall p <- board ensures p in Layout() {
        assert at[p] in Units();
        var i :| 0 <= i < |Units()| && Units()[i] == at[p];
        assert Layout()[i] == p;
      }
    }

    lemma Listings(side: Side)
      requires Valid() && Arrayed()
      ensures Targeting.Listed(board, Layout(), side) == States(UnitsOf(side))
    {
      SquaresConcat(p1Units, p2Units);
      ListedConcat(board, Squares(p1Units), Squares(p2Units), side);
      StatesAreListed(board, p1Units, P1);
      StatesAreListed(board, p2Units, P2);
    }

    method Push(es: seq<Event>)
      modifies this`events
      ensures events == old(events) + Stamp(es, [])
    {
      events := events + Stamp(es, []);
    }

    /** Records a changed unit and logs its events: together they are the outcome o. */
    method Commit(u: BattleUnit, es: seq<Event>, ghost o: Outcome)
      requires ValidBut(u) && o == Outcome(board[u.pos := u.State()], es)
      modifies this`events, this`board
      ensures Valid() && board == o.board && events == old(events) + Stamp(o.events, [])
    {
      Record(u);
      Push(es);
    }

    // ---- targeting ----

    method PickTarget(unit: BattleUnit) returns (target: BattleUnit?)
      requires Valid() && Arrayed() && Seats(unit)
      ensures unit.pos in board
      ensures target == null ==> Target(board, Layout(), unit.pos) == None
      ensures target != null ==> Seats(target) && Target(board, Layout(), unit.pos) == Some(target.pos)
    {
      LayoutCovers();
      Listings(unit.pos.side.Other());
      Targeting.PickTargetIsTarget(board, Layout(), unit.pos);
      var enemies := UnitsOf(unit.pos.side.Other());
      match Targeting.PickTarget(unit.State(), States(enemies))
      case None => target := null;
      case Some(s) =>
        target := UnitOn(enemies, s.pos);
    }

    method LowestHpAlly(side: Side, exclude: BattleUnit?) returns (ally: BattleUnit?)
      requires Valid() && Arrayed() && (exclude != null ==> Seats(exclude))
      ensures
        var x := SquareOf(exclude);
        var leader := Leader(board, side, WeakestAlly(x));
        if ally == null then leader == None else Seats(ally) && leader == Some(ally.pos)
    {
      var x := SquareOf(exclude);
      LayoutCovers();
      Listings(side);
      Targeting.AllyIsLeader(board, Layout(), side, x);
      match Targeting.LowestHpAlly(States(UnitsOf(side)), x)
      case None => ally := null;
      case Some(s) =>
        ally := UnitOn(UnitsOf(side), s.pos);
    }

    // ---- damage.ts ----

    /** A lethal hit on a tank that may revive: it did not die, and no attack is logged. */
    method ReviveTank(target: BattleUnit, dmg: int, ghost source: BattleUnit, cycle: int, tick: int)
      requires Valid() && Seats(target) && Seats(source) && Revives(target.State(), dmg)
      modifies this`events, this`board, target
      ensures Valid() && target.pos in old(board) && source.pos in old(board)
      ensures
        var o := Damage(old(board), target.pos, dmg, source.pos, cycle, tick);
        board == o.board && events == old(events) + Stamp(o.events, [])
    {
      target.hp := target.maxHp / 2;
      target.revived := true;
      Record(target);
      Push([Revive(cycle, tick, target.Who(), target.hp)]);
    }

    /** Any other hit: hit points drop to 0 at least, and a death is logged before the attack. */
    method Wound(target: BattleUnit, dmg: int, source: BattleUnit, cycle: int, tick: int)
      requires Valid() && Seats(target) && Seats(source) && !Revives(target.State(), dmg)
      modifies this`events, this`board, target
      ensures Valid() && target.pos in old(board) && source.pos in old(board)
      ensures
        var o := Damage(old(board), target.pos, dmg, source.pos, cycle, tick);
        board == o.board && events == old(events) + Stamp(o.events, [])
    {
      ghost var o := Damage(board, target.pos, dmg, source.pos, cycle, tick);
      target.hp := target.hp - dmg;
      var log := [];
      if target.hp <= 0 {
        target.hp := 0;
        target.alive := false;
        log := [Death(cycle, tick, target.Who())];
      }
      WoundOutcome(board, target.pos, dmg, source.pos, cycle, tick, target.State(), log);
      log := log + [Attack(cycle, tick, source.Who(), target.Who(), dmg, target.hp)];
      Commit(target, log, o);
    }

    method ApplyDamage(target: BattleUnit, dmg: int, source: BattleUnit, cycle: int, tick: int)
      requires Valid() && Seats(target) && Seats(source)
      modifies this`events, this`board, target
      ensures Valid() && target.pos in old(board) && source.pos in old(board)
      ensures
        var o := Damage(old(board), target.pos, dmg, source.pos, cycle, tick);
        board == o.board && events == old(events) + Stamp(o.events, [])
    {
      var lethal := dmg >= target.hp;
      if lethal && target.unitId.Tank? && target.star >= 1 && !target.revived {
        ReviveTank(target, dmg, source, cycle, tick);
      } else {
        Wound(target, dmg, source, cycle, tick);
      }
    }

    // ---- abilities.ts ----

    method ApplyLifesteal(fighter: BattleUnit, dmg: int, cycle: int, tick: int)
      requires Valid() && Seats(fighter)
      modifies this`events, this`board, fighter
      ensures Valid() && fighter.pos in old(board)
      ensures
        var o := LifestealEffect(old(board), fighter.pos, dmg, cycle, tick);
        board == o.board && events == old(events) + Stamp(o.events, [])
    {
      var raw := LifestealOf(dmg, fighter.star);
      var heal := Max(0, Min(raw, fighter.maxHp - fighter.hp));
      fighter.hp := fighter.hp + heal;
      Record(fighter);
      Push([Lifesteal(cycle, tick, fighter.Who(), heal, fighter.hp)]);
    }

    /** find: the living enemy in the column and row behind the target. */
    method Behind(ranger: BattleUnit, primary: BattleUnit) returns (behind: BattleUnit?)
      requires Valid() && Arrayed() && Seats(ranger) && Row(primary.pos.slot) + 1 <= 2
      ensures
        var p := Pos(ranger.pos.side.Other(), primary.pos.slot + 3);
        if behind == null then !AliveIn(board, p) else Seats(behind) && behind.pos == p && behind.alive
    {
      var enemies := UnitsOf(ranger.pos.side.Other());
      var col, row := Col(primary.pos.slot), Row(primary.pos.slot) + 1;
      ghost var p := Pos(ranger.pos.side.Other(), primary.pos.slot + 3);
      assert forall u <- enemies :: Col(u.pos.slot) == col && Row(u.pos.slot) == row <==> u.pos == p;
      behind := null;
      for i := 0 to |enemies|
        invariant forall j | 0 <= j < i :: !(enemies[j].alive && enemies[j].pos == p)
      {
        var u := enemies[i];
        if u.alive && Col(u.pos.slot) == col && Row(u.pos.slot) == row {
          return u;
        }
      }
    }

    method PierceTarget(ranger: BattleUnit, primary: BattleUnit, ghost dmg: int, ghost cycle: int, ghost tick: int)
      returns (behind: BattleUnit?)
      requires Valid() && Arrayed() && Seats(ranger) && Seats(primary)
      ensures ranger.pos in board && primary.pos in board && (behind != null ==> Seats(behind) && behind.alive)
      ensures PierceEffect(board, ranger.pos, primary.pos, dmg, cycle, tick) ==
        if behind == null then Outcome(board, [])
        else SpillEffect(board, ranger.pos, behind.pos, dmg, cycle, tick)
    {
      if Row(primary.pos.slot) + 1 > 2 {
        return null;
      }
      behind := Behind(ranger, primary);
    }

    method ApplyPierce(ranger: BattleUnit, primary: BattleUnit, dmg: int, cycle: int, tick: int)
      requires Valid() && Arrayed() && Seats(ranger) && Seats(primary)
      modifies this`events, this`board, p1Units, p2Units
      ensures Valid() && ranger.pos in old(board) && primary.pos in old(board)
      ensures
        var o := PierceEffect(old(board), ranger.pos, primary.pos, dmg, cycle, tick);
        board == o.board && events == old(events) + Stamp(o.events, [])
    {
      var behind := PierceTarget(ranger, primary, dmg, cycle, tick);
      if behind != null {
        Spill(behind, ranger, dmg, cycle, tick);
      }
    }

    method Spill(behind: BattleUnit, ranger: BattleUnit, primaryDamage: int, cycle: int, tick: int)
      requires Valid() && Seats(ranger) && Seats(behind) && behind.alive
      modifies this`events, this`board, behind
      ensures Valid() && behind.pos in old(board) && ranger.pos in old(board)
      ensures
        var o := SpillEffect(old(board), ranger.pos, behind.pos, primaryDamage, cycle, tick);
        board == o.board && events == old(events) + Stamp(o.events, [])
    {
      ghost var o := SpillEffect(board, ranger.pos, behind.pos, primaryDamage, cycle, tick);
      var dmg := PierceOf(primaryDamage);
      behind.hp := Max(0, behind.hp - dmg);
      var log := [Pierce(cycle, tick, ranger.Who(), behind.Who(), dmg)];
      if behind.hp == 0 && behind.alive {
        behind.alive := false;
        log := log + [Death(cycle, tick, behind.Who())];
      }
      Commit(behind, log, o);
    }

    method HealOne(target: BattleUnit, healer: BattleUnit, cycle: int, tick: int)
      requires Valid() && Seats(target) && Seats(healer)
      modifies this`events, this`board, target
      ensures Valid() && target.pos in old(board) && healer.pos in old(board)
      ensures
        var o := HealEffect(old(board), target.pos, healer.pos, cycle, tick);
        board == o.board && events == old(events) + Stamp(o.events, [])
    {
      var amount := Min(HEAL_AMOUNT, target.maxHp - target.hp);
      if amount <= 0 {
        return;
      }
      ghost var o := HealEffect(board, target.pos, healer.pos, cycle, tick);
      target.hp := target.hp + amount;
      Commit(target, [Heal(cycle, tick, target.Who(), healer.Who(), amount, target.hp)], o);
    }

    method HealAlly(ally: BattleUnit?, healer: BattleUnit, cycle: int, tick: int)
      requires Valid() && (ally != null ==> Seats(ally)) && Seats(healer)
      modifies this`events, this`board, p1Units, p2Units
      ensures Valid() && healer.pos in old(board) && (ally != null ==> ally.pos in old(board))
      ensures
        var o := HealChosen(old(board), SquareOf(ally), healer.pos, cycle, tick);
        board == o.board && events == old(events) + Stamp(o.events, [])
    {
      if ally != null {
        HealOne(ally, healer, cycle, tick);
      }
    }

    method ApplyHealerSupport(healer: BattleUnit, cycle: int, tick: int)
      requires Valid() && Arrayed() && Seats(healer)
      modifies this`events, this`board, p1Units, p2Units
      ensures Valid() && healer.pos in old(board)
      ensures
        var o := SupportEffect(old(board), healer.pos, cycle, tick);
        board == o.board && events == old(events) + Stamp(o.events, [])
    {
      ghost var events0 := events;
      var first := LowestHpAlly(healer.pos.side, null);
      ghost var o1 := HealChosen(board, Leader(board, healer.pos.side, WeakestAlly(None)), healer.pos, cycle, tick);
      HealAlly(first, healer, cycle, tick);
      if healer.star == 2 {
        var second := LowestHpAlly(healer.pos.side, first);
        ghost var x := SquareOf(first);
        ghost var o2 := HealChosen(board, Leader(board, healer.pos.side, WeakestAlly(x)), healer.pos, cycle, tick);
        StampTwice(events0, o1.events, o2.events);
        HealAlly(second, healer, cycle, tick);
      }
    }

    method ApplySlow(healer: BattleUnit, target: BattleUnit, cycle: int, tick: int)
      requires Valid() && Seats(healer) && Seats(target)
      modifies this`events, this`board, target
      ensures Valid() && healer.pos in old(board) && target.pos in old(board)
      ensures
        var o := SlowEffect(old(board), healer.pos, target.pos, cycle, tick);
        board == o.board && events == old(events) + Stamp(o.events, [])
    {
      target.spd := Max(0, SlowedSpd(target.unitId));
      target.slowActive := true;
      target.slowedBy := Some(healer.id);
      Record(target);
      Push([Slow(cycle, tick, target.Who(), healer.Who())]);
    }

    /** Releases one unit from the healer, after those on the squares that are done. */
    method Release(u: BattleUnit, healer: InstanceId, ghost b: Board, ghost done: seq<Pos>)
      requires Valid() && Seats(u) && PartlyReleased(b, board, done, healer)
      modifies this`board, u
      ensures Valid() && PartlyReleased(b, board, done + [u.pos], healer)
    {
      ReleaseOneMore(b, board, done, u.pos, healer);
      if u.slowedBy == Some(healer) {
        u.spd := SpdFor(u.unitId);
        u.slowActive := false;
        u.slowedBy := None;
      }
      assert u.State() == Released(board[u.pos], healer);
      Record(u);
    }

    /** Restores the base speed of every unit that this healer had slowed. */
    method ClearHealerSlows(healer: BattleUnit)
      requires Valid() && Arrayed() && Seats(healer)
      modifies this`board, p1Units, p2Units
      ensures Valid() && board == ClearSlows(old(board), healer.id)
    {
      var us := Units();
      ghost var b, all := board, Squares(us);
      SquaresAre(us);
      for i := 0 to |us|
        invariant Valid() && PartlyReleased(b, board, all[..i], healer.id)
      {
        TakeOneMore(all, i);
        var u := us[i];
        assert u in p1Units || u in p2Units;
        Release(u, healer.id, b, all[..i]);
      }
      LayoutCovers();
      AllReleased(b, board, all[..|all|], healer.id);
    }

    // ---- engine.ts: acts ----

    method FighterAct(unit: BattleUnit, target: BattleUnit, cycle: int, tick: int)
      requires Valid() && Seats(unit) && Seats(target)
      modifies this`events, this`board, p1Units, p2Units
      ensures Valid() && unit.pos in old(board) && target.pos in old(board)
      ensures
        var o := BattleSpec.FighterAct(old(board), unit.pos, target.pos, cycle, tick);
        board == o.board && events == old(events) + Stamp(o.events, [])
    {
      ghost var log := events;
      var dmg := AtkFor(Fighter, unit.star);
      ghost var o1 := Damage(board, target.pos, dmg, unit.pos, cycle, tick);
      ApplyDamage(target, dmg, unit, cycle, tick);
      if dmg > 0 && unit.star >= 1 {
        StampTwice(log, o1.events, LifestealEffect(board, unit.pos, dmg, cycle, tick).events);
        ApplyLifesteal(unit, dmg, cycle, tick);
      }
    }

    method RangerAct(unit: BattleUnit, target: BattleUnit, cycle: int, tick: int)
      requires Valid() && Arrayed() && Seats(unit) && Seats(target)
      modifies this`events, this`board, p1Units, p2Units
      ensures Valid() && unit.pos in old(board) && target.pos in old(board)
      ensures
        var o := BattleSpec.RangerAct(old(board), unit.pos, target.pos, cycle, tick);
        board == o.board && events == old(events) + Stamp(o.events, [])
    {
      ghost var log := events;
      var dmg := AtkFor(Ranger, unit.star);
      ghost var o1 := Damage(board, target.pos, dmg, unit.pos, cycle, tick);
      ApplyDamage(target, dmg, unit, cycle, tick);
      if unit.star == 1 {
        StampTwice(log, o1.events, PierceEffect(board, unit.pos, target.pos, dmg, cycle, tick).events);
        ApplyPierce(unit, target, dmg, cycle, tick);
      }
    }

    method HealerStrike(unit: BattleUnit, target: BattleUnit?, cycle: int, tick: int)
      requires Valid() && Arrayed() && Seats(unit) && (target != null ==> Seats(target))
      modifies this`events, this`board, p1Units, p2Units
      ensures Valid() && unit.pos in old(board) && (target != null ==> target.pos in old(board))
      ensures
        var o := BattleSpec.HealerStrike(old(board), unit.pos, SquareOf(target), cycle, tick);
        board == o.board && events == old(events) + Stamp(o.events, [])
    {
      if target != null {
        ClearHealerSlows(unit);
        ApplyDamage(target, AtkFor(Healer, unit.star), unit, cycle, tick);
      }
    }

    method HealerSlow(unit: BattleUnit, lastAttacked: BattleUnit?, cycle: int, tick: int)
      requires Valid() && Seats(unit) && (lastAttacked != null ==> Seats(lastAttacked))
      modifies this`events, this`board, p1Units, p2Units
      ensures Valid() && unit.pos in old(board) && (lastAttacked != null ==> lastAttacked.pos in old(board))
      ensures
        var o := BattleSpec.HealerSlow(old(board), unit.pos, SquareOf(lastAttacked), cycle, tick);
        board == o.board && events == old(events) + Stamp(o.events, [])
    {
      if unit.star >= 1 && lastAttacked != null {
        ApplySlow(unit, lastAttacked, cycle, tick);
      }
    }

    method HealerAct(unit: BattleUnit, target: BattleUnit?, cycle: int, tick: int)
      requires Valid() && Arrayed() && Seats(unit) && (target != null ==> Seats(target))
      modifies this`events, this`board, p1Units, p2Units
      ensures Valid() && unit.pos in old(board) && (target != null ==> target.pos in old(board))
      ensures
        var o := BattleSpec.HealerAct(old(board), unit.pos, SquareOf(target), cycle, tick);
        board == o.board && events == old(events) + Stamp(o.events, [])
    {
      ghost var log, p, t := events, unit.pos, SquareOf(target);
      ghost var o1 := BattleSpec.HealerStrike(board, p, t, cycle, tick);
      HealerStrike(unit, target, cycle, tick);
      ghost var o2 := SupportEffect(board, p, cycle, tick);
      ApplyHealerSupport(unit, cycle, tick);
      ghost var o3 := BattleSpec.HealerSlow(board, p, t, cycle, tick);
      HealerSlow(unit, target, cycle, tick);
      StampTwice(log, o1.events, o2.events);
      StampTwice(log, o1.events + o2.events, o3.events);
    }

    /** The cases of a unit that does nothing without a target. */
    method StrikerAct(unit: BattleUnit, target: BattleUnit, cycle: int, tick: int)
      requires Valid() && Arrayed() && Seats(unit) && Seats(target) && !unit.unitId.Healer?
      requires unit.pos in board && Target(board, Layout(), unit.pos) == Some(target.pos)
      modifies this`events, this`board, p1Units, p2Units
      ensures Valid()
      ensures
        var o := BattleSpec.UnitAct(old(board), Layout(), unit.pos, cycle, tick);
        board == o.board && events == old(events) + Stamp(o.events, [])
    {
      match unit.unitId
      case Fighter => FighterAct(unit, target, cycle, tick);
      case Ranger => RangerAct(unit, target, cycle, tick);
      case Tank => ApplyDamage(target, AtkFor(Tank, unit.star), unit, cycle, tick);
    }

    method UnitAct(unit: BattleUnit, cycle: int, tick: int)
      requires Valid() && Arrayed() && Seats(unit)
      modifies this`events, this`board, p1Units, p2Units
      ensures Valid() && unit.pos in old(board)
      ensures
        var o := BattleSpec.UnitAct(old(board), Layout(), unit.pos, cycle, tick);
        board == o.board && events == old(events) + Stamp(o.events, [])
    {
      var target := PickTarget(unit);
      if unit.unitId.Healer? {
        HealerAct(unit, target, cycle, tick);
      } else if target != null {
        StrikerAct(unit, target, cycle, tick);
      }
    }

    // ---- engine.ts: ticks and cycles ----

    lemma UnitsShown()
      requires Valid() && Arrayed()
      ensures Snapshots(Units()) == Listing(board, Layout())
    {
      forall u <- Units() ensures u.pos in board && board[u.pos] == u.State() {
        assert u in p1Units || u in p2Units;
      }
      SnapshotsAreListing(board, Units());
    }

    /** Attaches the current snapshot to the events es, which follow the log. */
    method AttachSnapshots(idx: nat, ghost log: seq<LogEntry>, ghost es: seq<Event>)
      requires Valid() && Arrayed()
      requires idx == |log| && events == log + Stamp(es, [])
      modifies this`events
      ensures events == log + Stamp(es, Listing(board, Layout()))
    {
      UnitsShown();
      ghost var states := Listing(board, Layout());
      NoneStamped(log, es, states);
      for i := idx to |events|
        invariant Snapshots(Units()) == states
        invariant |events| == |old(events)| && HalfStamped(events, log, es, states, i)
      {
        OneMoreStamped(events, log, es, states, i);
        events := events[i := LogEntry(events[i].event, Snapshots(Units()))];
      }
      AllStamped(events, log, es, states);
    }

    /** One turn: the act of a unit, and the snapshots of its events. */
    method Turn(unit: BattleUnit, cycle: int, tick: int)
      requires Valid() && Arrayed() && Seats(unit)
      modifies this`events, this`board, p1Units, p2Units
      ensures Valid() && unit.pos in old(board)
      ensures
        var o := BattleSpec.UnitAct(old(board), Layout(), unit.pos, cycle, tick);
        board == o.board && events == old(events) + Stamp(o.events, Listing(board, Layout()))
    {
      ghost var log := events;
      ghost var o := BattleSpec.UnitAct(board, Layout(), unit.pos, cycle, tick);
      var idx := |events|;
      UnitAct(unit, cycle, tick);
      AttachSnapshots(idx, log, o.events);
    }

    /** Playing the acts from here leaves the final board and log. */
    ghost predicate Leads(acts: seq<Act>, end: End)
      reads this
    {
      LeadsTo(board, events, acts, Layout(), end)
    }

    /** The turn of one unit of a queue; one killed earlier in the tick is skipped. */
    method TakeTurn(unit: BattleUnit, ghost rest: seq<Pos>, cycle: int, tick: int, ghost end: End)
      requires Valid() && Arrayed() && Seats(unit)
      requires Leads(RunQueue(board, Layout(), [unit.pos] + rest, cycle, tick), end)
      modifies this`events, this`board, p1Units, p2Units
      ensures Valid() && Leads(RunQueue(board, Layout(), rest, cycle, tick), end)
    {
      QueueStep(board, events, Layout(), unit.pos, rest, cycle, tick, end);
      if unit.alive {
        Turn(unit, cycle, tick);
      }
    }

    /** Lets the units of a sorted list act one after another. */
    method RunUnits(acting: seq<BattleUnit>, cycle: int, tick: int, ghost end: End)
      requires Valid() && Arrayed() && forall u <- acting :: Seats(u)
      requires Leads(RunQueue(board, Layout(), Squares(acting), cycle, tick), end)
      modifies this`events, this`board, p1Units, p2Units
      ensures Valid() && Leads([], end)
    {
      ghost var queue := Squares(acting);
      SquaresAre(acting);
      for i := 0 to |acting|
        invariant Valid() && Leads(RunQueue(board, Layout(), queue[i..], cycle, tick), end)
      {
        assert acting[i] in acting;
        DropOne(queue, i);
        TakeTurn(acting[i], queue[i + 1..], cycle, tick, end);
      }
    }

    // ---- engine.ts: ticks and cycles ----

    /** filter: the living units whose cooldown lands on this tick. */
    method ActingUnits(tick: int) returns (acting: seq<BattleUnit>)
      requires Valid() && Arrayed()
      ensures Distinct(acting)
      ensures forall u :: u in acting <==> u in Units() && u.alive && ActsOnTick(u.spd, tick)
    {
      var us := Units();
      acting := [];
      for i := 0 to |us|
        invariant Distinct(acting)
        invariant forall u :: u in acting <==> u in us[..i] && u.alive && ActsOnTick(u.spd, tick)
      {
        if us[i].alive && ActsOnTick(us[i].spd, tick) {
          acting := acting + [us[i]];
        }
      }
    }

    lemma SortedIsQueue(acting: seq<BattleUnit>, initSide: Side, tick: int)
      requires Valid() && Arrayed() && Distinct(acting) && InOrder(acting, initSide)
      requires forall u :: u in acting <==> u in Units() && u.alive && ActsOnTick(u.spd, tick)
      ensures Squares(acting) == ActingOrder(board, initSide, tick)
      ensures forall u <- acting :: Seats(u)
    {
      forall u <- Units() ensures Seats(u) && u.pos in board && board[u.pos] == u.State() {
        assert u in p1Units || u in p2Units;
      }
      SquaresAre(acting);
      var queue := Squares(acting);
      forall q ensures q in queue <==> Acts(board, q, tick) {
        if q in queue {
          var i :| 0 <= i < |acting| && queue[i] == q;
          assert acting[i] in acting;
        }
        if Acts(board, q, tick) {
          assert at[q] in Units();
          var i :| 0 <= i < |acting| && acting[i] == at[q];
          assert queue[i] == q;
        }
      }
      forall i, j | 0 <= i < j < |queue|
        ensures queue[i] in board && queue[j] in board && queue[i] != queue[j]
        ensures !ActsBefore(board[queue[j]], board[queue[i]], initSide)
      {
        assert acting[i] in acting && acting[j] in acting;
      }
      SortedIsActingOrder(board, queue, initSide, tick);
    }

    /** The acting units of a tick in tie-tick order. */
    method ActingInOrder(initSide: Side, tick: int) returns (acting: seq<BattleUnit>)
      requires Valid() && Arrayed()
      ensures Squares(acting) == ActingOrder(board, initSide, tick) && forall u <- acting :: Seats(u)
    {
      acting := ActingUnits(tick);
      acting := OrderForTick(acting, initSide);
      SortedIsQueue(acting, initSide, tick);
    }

    /** Everything that acts on one tick. */
    method RunTick(initSide: Side, cycle: int, tick: int, ghost end: End)
      requires Valid() && Arrayed() && TickGoal(End(board, events), Layout(), initSide, cycle, tick, end)
      modifies this`events, this`board, p1Units, p2Units
      ensures Valid() && End(board, events) == end
    {
      var acting := ActingInOrder(initSide, tick);
      RunUnits(acting, cycle, tick, end);
    }

    method PushAttached(event: Event)
      requires Valid() && Arrayed()
      modifies this`events
      ensures events == old(events) + [LogEntry(event, Listing(board, Layout()))]
    {
      UnitsShown();
      events := events + [LogEntry(event, Snapshots(Units()))];
    }

    method RunTicks(initSide: Side, cycle: int, ghost mids: seq<End>)
      requires Valid() && Arrayed()
      requires |mids| == TICKS_PER_CYCLE + 1 && TickByTick(mids, Layout(), initSide, cycle, 1)
      requires End(board, events) == mids[0]
      modifies this`events, this`board, p1Units, p2Units
      ensures Valid() && End(board, events) == mids[TICKS_PER_CYCLE]
    {
      for tick := 1 to TICKS_PER_CYCLE + 1
        invariant Valid() && End(board, events) == mids[tick - 1]
      {
        TickGoalAt(mids, Layout(), initSide, cycle, 1, tick - 1);
        RunTick(initSide, cycle, tick, mids[tick]);
      }
    }

    /** some: whether a side still has a living unit. */
    method AnyAlive(side: Side) returns (r: bool)
      requires Valid() && Arrayed()
      ensures r <==> HasLiving(board, side)
    {
      var us := UnitsOf(side);
      r := false;
      for i := 0 to |us|
        invariant r <==> exists j :: 0 <= j < i && us[j].alive
      {
        r := r || us[i].alive;
      }
      if r {
        ghost var j :| 0 <= j < |us| && us[j].alive;
        assert us[j] in us;
        assert us[j].pos in board && us[j].pos.side == side;
      }
      forall p | p in board && p.side == side && board[p].alive ensures r {
        var j :| 0 <= j < |us| && us[j] == at[p];
      }
    }

    /** The end of a cycle: its cycle_end and, once a side is wiped out, the battle_end. */
    method CloseCycle(cycle: int) returns (over: bool)
      requires Valid() && Arrayed()
      modifies this`events
      ensures Stage(End(board, events), over) == Closed(End(board, old(events)), Layout(), cycle)
    {
      PushAttached(CycleEnd(cycle));
      var p1Alive := AnyAlive(P1);
      var p2Alive := AnyAlive(P2);
      over := !p1Alive || !p2Alive;
      if over {
        var winner := if !p1Alive && !p2Alive then None else if !p1Alive then Some(P2) else Some(P1);
        PushAttached(BattleEnd(cycle, winner));
      }
    }

    method RunCycle(initSide: Side, cycle: int, ghost next: Stage) returns (over: bool)
      requires Valid() && Arrayed() && CycleGoal(End(board, events), Layout(), initSide, cycle, next)
      modifies this`events, this`board, p1Units, p2Units
      ensures Valid() && Stage(End(board, events), over) == next
    {
      ghost var mids := CycleTicks(End(board, events), Layout(), initSide, cycle, next);
      RunTicks(initSide, cycle, mids);
      over := CloseCycle(cycle);
    }

    method RunCycles(initSide: Side, ghost stages: seq<Stage>, ghost end: End)
      requires Valid() && Arrayed() && CycleByCycle(stages, Layout(), initSide, 1, end)
      requires stages[0] == Stage(End(board, events), false)
      modifies this`events, this`board, p1Units, p2Units
      ensures Valid() && End(board, events) == end
    {
      ghost var rest := stages;
      for cycle := 1 to MAX_CYCLES + 1
        invariant Valid() && CycleByCycle(rest, Layout(), initSide, cycle, end)
        invariant rest[0] == Stage(End(board, events), false)
      {
        NextStage(rest, Layout(), initSide, cycle, end);
        var over := RunCycle(initSide, cycle, rest[1]);
        rest := rest[1..];
        if over {
          NextStage(rest, Layout(), initSide, cycle + 1, end);
          return;
        }
      }
      NextStage(rest, Layout(), initSide, MAX_CYCLES + 1, end);
      PushAttached(BattleEnd(MAX_CYCLES, None));
    }

    method Fight(initSide: Side)
      requires Valid() && Arrayed() && events == []
      modifies this`events, this`board, p1Units, p2Units
      ensures events == Render(BattleSpec.Battle(old(board), Layout(), initSide), Layout())
    {
      ghost var stages, end := BattleStages(board, Layout(), initSide);
      RunCycles(initSide, stages, end);
    }
  }

  // ---- engine.ts: runBattle ----

  /** map(cloneUnit): fresh units, so that the caller's own are never touched. */
  method CloneUnits(us: seq<UnitInstance>) returns (r: seq<BattleUnit>)
    ensures fresh(r) && Clones(r, us)
  {
    r := [];
    for i := 0 to |us|
      invariant |r| == i && fresh(r)
      invariant forall j | 0 <= j < i :: r[j].State() == CloneOf(us[j])
    {
      var u := new BattleUnit(CloneOf(us[i]));
      r := r + [u];
    }
  }

  /** The unit on each square. */
  ghost function Seating(us: seq<BattleUnit>): map<Pos, BattleUnit> {
    if us == [] then map[] else
    var last := us[|us| - 1];
    Seating(us[..|us| - 1])[last.pos := last]
  }

  ghost predicate Seated(at: map<Pos, BattleUnit>, us: seq<BattleUnit>) {
    && (forall i | 0 <= i < |us| :: us[i].pos in at && at[us[i].pos] == us[i])
    && (forall p <- at :: exists i :: 0 <= i < |us| && us[i].pos == p)
  }

  lemma SeatedMore(at: map<Pos, BattleUnit>, us: seq<BattleUnit>, u: BattleUnit)
    requires Seated(at, us) && forall i | 0 <= i < |us| :: us[i].pos != u.pos
    ensures Seated(at[u.pos := u], us + [u])
  {
    var now, vs := at[u.pos := u], us + [u];
    forall p <- now ensures exists i :: 0 <= i < |vs| && vs[i].pos == p {
      if p == u.pos {
        assert vs[|us|].pos == p;
      } else {
        var i :| 0 <= i < |us| && us[i].pos == p;
        assert vs[i].pos == p;
      }
    }
  }

  lemma {:induction false} SeatingSeats(us: seq<BattleUnit>)
    requires forall i, j | 0 <= i < j < |us| :: us[i].pos != us[j].pos
    ensures Seated(Seating(us), us)
    decreases |us|
  {
    if us != [] {
      var n := |us| - 1;
      SeatingSeats(us[..n]);
      SeatedMore(Seating(us[..n]), us[..n], us[n]);
      assert us == us[..n] + [us[n]];
    }
  }

  /** The units are clones of the instances, one by one. */
  ghost predicate Clones(us: seq<BattleUnit>, from: seq<UnitInstance>)
    reads us
  {
    |us| == |from| && forall i | 0 <= i < |us| :: us[i].State() == CloneOf(from[i])
  }

  lemma ClonesConcat(x: seq<BattleUnit>, y: seq<BattleUnit>, p1: seq<UnitInstance>, p2: seq<UnitInstance>)
    requires Clones(x, p1) && Clones(y, p2)
    ensures Clones(x + y, p1 + p2)
  {
  }

  lemma ClonesOn(us: seq<BattleUnit>, from: seq<UnitInstance>, side: Side)
    requires Clones(us, from) && AllOn(from, side)
    ensures forall u <- us :: u.pos.side == side
  {
    forall u <- us ensures u.pos.side == side {
      var i :| 0 <= i < |us| && us[i] == u;
      assert us[i].State().pos == from[i].pos && from[i] in from;
    }
  }

  lemma ClonesApart(us: seq<BattleUnit>, from: seq<UnitInstance>)
    requires Clones(us, from) && DistinctSlots(from) && DistinctIds(from)
    ensures Squares(us) == LayoutOf(from)
    ensures forall i, j | 0 <= i < j < |us| :: us[i].pos != us[j].pos && us[i].id != us[j].id
  {
    SquaresAre(us);
    forall i | 0 <= i < |us| ensures us[i].pos == from[i].pos && us[i].id == from[i].id {
      assert us[i].State() == CloneOf(from[i]);
    }
  }

  lemma SeatedArrayed(sim: Battle)
    requires Seated(sim.at, sim.Units())
    requires (forall u <- sim.p1Units :: u.pos.side == P1) && forall u <- sim.p2Units :: u.pos.side == P2
    requires forall i, j | 0 <= i < j < |sim.Units()| ::
      sim.Units()[i].pos != sim.Units()[j].pos && sim.Units()[i].id != sim.Units()[j].id
    ensures sim.Arrayed() && forall p <- sim.at :: sim.at[p].pos == p && sim.at[p] in sim.UnitsOf(p.side)
  {
    var us := sim.Units();
    forall u <- us ensures sim.Seats(u) {
      var i :| 0 <= i < |us| && us[i] == u;
    }
    forall p <- sim.at ensures sim.at[p].pos == p && sim.at[p] in us {
      var i :| 0 <= i < |us| && us[i].pos == p;
    }
    forall p, q | p in sim.at && q in sim.at && sim.at[p].id == sim.at[q].id ensures p == q {
      var i :| 0 <= i < |us| && us[i] == sim.at[p];
      var j :| 0 <= j < |us| && us[j] == sim.at[q];
    }
  }

  /** The board of the instances shows the state of every clone. */
  lemma BoardShows(b: Board, at: map<Pos, BattleUnit>, us: seq<BattleUnit>, from: seq<UnitInstance>)
    requires Holds(b, from) && Seated(at, us) && Clones(us, from)
    ensures b.Keys == at.Keys && forall p <- b :: b[p] == at[p].State()
  {
    forall p | p in b || p in at ensures p in b && p in at && b[p] == at[p].State() {
      var i :| 0 <= i < |us| && (us[i].pos == p || from[i].pos == p);
      assert us[i].State() == CloneOf(from[i]);
    }
  }

  /** A battle of clones is in order, on the board that the instances make up. */
  lemma ClonesInOrder(sim: Battle, p1: seq<UnitInstance>, p2: seq<UnitInstance>)
    requires Sound(p1, p2) && Clones(sim.p1Units, p1) && Clones(sim.p2Units, p2)
    requires sim.at == Seating(sim.Units()) && sim.board == BoardOf(p1 + p2)
    ensures sim.Arrayed() && sim.Valid() && sim.Layout() == LayoutOf(p1 + p2)
  {
    SoundSlots(p1, p2);
    BoardHolds(p1 + p2);
    ClonesConcat(sim.p1Units, sim.p2Units, p1, p2);
    ClonesOn(sim.p1Units, p1, P1);
    ClonesOn(sim.p2Units, p2, P2);
    ClonesApart(sim.Units(), p1 + p2);
    SeatingSeats(sim.Units());
    SeatedArrayed(sim);
    BoardShows(sim.board, sim.at, sim.Units(), p1 + p2);
  }

  /** A new battle between clones, still to be fought. */
  method NewBattle(p1: seq<UnitInstance>, p2: seq<UnitInstance>) returns (sim: Battle)
    requires Sound(p1, p2)
    ensures sim.Valid() && sim.Arrayed() && fresh(sim)
    ensures fresh(sim.p1Units) && fresh(sim.p2Units)
    ensures sim.events == [] && sim.board == BoardOf(p1 + p2) && sim.Layout() == LayoutOf(p1 + p2)
  {
    var q1 := CloneUnits(p1);
    var q2 := CloneUnits(p2);
    sim := new Battle(q1, q2, Seating(q1 + q2), BoardOf(p1 + p2));
    ClonesInOrder(sim, p1, p2);
  }

  method RunBattle(p1: seq<UnitInstance>, p2: seq<UnitInstance>, draw: real) returns (log: seq<LogEntry>)
    requires Sound(p1, p2)
    ensures log == LogOf(p1, p2, if draw < 0.5 then P1 else P2)
  {
    var sim := NewBattle(p1, p2);
    var initSide := if draw < 0.5 then P1 else P2;
    sim.Fight(initSide);
    log := sim.events;
  }

  /** Without a generator of the caller's own, the one draw comes from the seed of the round. */
  method RunSeededBattle(p1: seq<UnitInstance>, p2: seq<UnitInstance>, roundSeed: int) returns (log: seq<LogEntry>)
    requires Sound(p1, p2)
    ensures log == LogOf(p1, p2, if Rng.EngineDraw(roundSeed, 1) < 0.5 then P1 else P2)
  {
    var rng := new Rng.EngineRng(roundSeed);
    var draw := rng.Draw(roundSeed, 0);
    log := RunBattle(p1, p2, draw);
  }
}
