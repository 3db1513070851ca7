/**
 * Where a battle starts: the units that backend/src/runtime/match.runtime-state.ts reads off
 * a stored board, and the board of values that the engine's clones of them make up.
 */
module BattleStart {
  import opened GameTypes
  import opened BattleSpec
  import opened BattleLife
  import opened BattleSlows

  /** A unit as the caller hands it to the engine; absent fields take the defaults of cloneUnit. */
  datatype UnitInstance = UnitInstance(
    pos: Pos, id: InstanceId, unitId: UnitId, star: Star, hp: int, maxHp: int,
    alive: Option<bool>, revived: Option<bool>, slowActive: Option<bool>,
    slowedBy: Option<InstanceId>, spd: Option<int>)

  function Or<T>(o: Option<T>, default: T): T {
    match o case None => default case Some(x) => x
  }

  /** cloneUnit: the state of the engine's own copy of a unit. */
  function CloneOf(u: UnitInstance): UnitState {
    UnitState(u.pos, u.id, u.unitId, u.star, u.maxHp, u.hp,
      Or(u.alive, u.hp > 0), Or(u.revived, false), Or(u.slowActive, false), u.slowedBy,
      Or(u.spd, SpdFor(u.unitId)))
  }

  function BoardOf(us: seq<UnitInstance>): Board {
    if us == [] then map[] else
    var last := us[|us| - 1];
    BoardOf(us[..|us| - 1])[last.pos := CloneOf(last)]
  }

  function LayoutOf(us: seq<UnitInstance>): (r: seq<Pos>)
    ensures |r| == |us| && forall i | 0 <= i < |us| :: r[i] == us[i].pos
  {
    seq(|us|, i requires 0 <= i < |us| => us[i].pos)
  }

  ghost predicate DistinctSlots(us: seq<UnitInstance>) {
    forall i, j | 0 <= i < j < |us| :: us[i].pos != us[j].pos
  }

  ghost predicate DistinctIds(us: seq<UnitInstance>) {
    forall i, j | 0 <= i < j < |us| :: us[i].id != us[j].id
  }

  ghost predicate AllOn(us: seq<UnitInstance>, side: Side) {
    forall u <- us :: u.pos.side == side
  }

  /** The board holds the clone of every listed unit, and nothing else. */
  ghost predicate Holds(b: Board, us: seq<UnitInstance>) {
    && (forall i | 0 <= i < |us| :: us[i].pos in b && b[us[i].pos] == CloneOf(us[i]))
    && (forall p <- b :: exists i :: 0 <= i < |us| && us[i].pos == p)
  }

  lemma HoldsMore(b: Board, us: seq<UnitInstance>, u: UnitInstance)
    requires Holds(b, us) && forall i | 0 <= i < |us| :: us[i].pos != u.pos
    ensures Holds(b[u.pos := CloneOf(u)], us + [u])
  {
    var c, vs := b[u.pos := CloneOf(u)], us + [u];
    forall p <- c ensures exists i :: 0 <= i < |vs| && vs[i].pos == p {
      if p == u.pos {
        assert vs[|us|].pos == p;
      } else {
        var i :| 0 <= i < |us| && us[i].pos == p;
        assert vs[i].pos == p;
      }
    }
  }

  lemma {:induction false} BoardHolds(us: seq<UnitInstance>)
    requires DistinctSlots(us)
    ensures Holds(BoardOf(us), us)
    decreases |us|
  {
    if us != [] {
      var n := |us| - 1;
      BoardHolds(us[..n]);
      HoldsMore(BoardOf(us[..n]), us[..n], us[n]);
      assert us == us[..n] + [us[n]];
    }
  }

  // ---- unitsFromBoard ----

  /** A stored board entry; a field is None when it is absent or not of its type. */
  datatype Entry = Entry(
    unitId: Option<UnitId>, star: Option<Star>, id: Option<InstanceId>, hp: Option<int>, maxHp: Option<int>)

  datatype Units = Invalid(side: Side, slot: int) | Units(units: seq<UnitInstance>)

  function FinitePositive(x: Option<int>, fallback: int): int {
    if x.Some? && x.value > 0 then x.value else fallback
  }

  function FiniteNonNegative(x: Option<int>, fallback: int): int {
    if x.Some? && x.value >= 0 then x.value else fallback
  }

  /** `nameOf` stands for the fallback id that is made of the side and the slot. */
  function UnitFrom(e: Entry, pos: Pos, nameOf: Pos -> InstanceId): (u: UnitInstance)
    requires e.unitId.Some? && e.star.Some?
  {
    var maxHp := FinitePositive(e.maxHp, BaseHp(e.unitId.value));
    var hp := Min(maxHp, FiniteNonNegative(e.hp, maxHp));
    UnitInstance(pos, Or(e.id, nameOf(pos)), e.unitId.value, e.star.value, hp, maxHp,
      Some(hp > 0), None, None, None, None)
  }

  /** The units on the first n slots of a board. */
  function UnitsFromBoard(board: seq<Option<Entry>>, side: Side, nameOf: Pos -> InstanceId, n: nat := 9): Units
    requires n <= |board| <= 9
  {
    if n == 0 then Units([]) else
    var rest := UnitsFromBoard(board, side, nameOf, n - 1);
    if rest.Invalid? || board[n - 1].None? then rest else
    var e := board[n - 1].value;
    if e.unitId.None? || e.star.None? then Invalid(side, n - 1)
    else Units(rest.units + [UnitFrom(e, Pos(side, n - 1), nameOf)])
  }

  predicate Readable(e: Option<Entry>) {
    e.Some? ==> e.value.unitId.Some? && e.value.star.Some?
  }

  /** A unit in the state in which every battle starts: at full pace and never revived. */
  ghost predicate Fresh(u: UnitInstance) {
    && 0 <= u.hp <= u.maxHp && u.maxHp > 0 && u.alive == Some(u.hp > 0)
    && u.revived == None && u.slowActive == None && u.slowedBy == None && u.spd == None
  }

  /** The unit was read off its own square of the board. */
  ghost predicate ReadOff(u: UnitInstance, board: seq<Option<Entry>>, side: Side, nameOf: Pos -> InstanceId) {
    && u.pos.side == side && u.pos.slot < |board|
    && var e := board[u.pos.slot]; e.Some? && Readable(e) && u == UnitFrom(e.value, u.pos, nameOf)
  }

  ghost predicate Has(us: seq<UnitInstance>, p: Pos) {
    p in LayoutOf(us)
  }

  /** The units are those of the first n slots, by rising slot. */
  ghost predicate Loaded(us: seq<UnitInstance>, board: seq<Option<Entry>>, side: Side, nameOf: Pos -> InstanceId, n: nat)
    requires n <= |board| <= 9
  {
    && (forall i | 0 <= i < |us| :: ReadOff(us[i], board, side, nameOf) && us[i].pos.slot < n)
    && (forall i, j | 0 <= i < j < |us| :: us[i].pos.slot < us[j].pos.slot)
    && (forall k | 0 <= k < n && board[k].Some? :: Has(us, Pos(side, k)))
  }

  lemma LoadedMore(us: seq<UnitInstance>, board: seq<Option<Entry>>, side: Side, nameOf: Pos -> InstanceId, n: nat, u: UnitInstance)
    requires n < |board| <= 9 && Loaded(us, board, side, nameOf, n)
    requires ReadOff(u, board, side, nameOf) && u.pos.slot == n
    ensures Loaded(us + [u], board, side, nameOf, n + 1)
  {
    var before, now := LayoutOf(us), LayoutOf(us + [u]);
    assert now == before + [u.pos];
  }

  ghost predicate AllReadable(board: seq<Option<Entry>>, n: nat)
    requires n <= |board|
  {
    forall i | 0 <= i < n :: Readable(board[i])
  }

  lemma {:induction false} RefusedIff(board: seq<Option<Entry>>, side: Side, nameOf: Pos -> InstanceId, n: nat)
    requires n <= |board| <= 9
    ensures UnitsFromBoard(board, side, nameOf, n).Units? <==> AllReadable(board, n)
    decreases n
  {
    if n > 0 {
      RefusedIff(board, side, nameOf, n - 1);
    }
  }

  /** The units with those of the next slot, if there is one on it. */
  function WithEntry(us: seq<UnitInstance>, e: Option<Entry>, pos: Pos, nameOf: Pos -> InstanceId): seq<UnitInstance>
    requires Readable(e)
  {
    if e.None? then us else us + [UnitFrom(e.value, pos, nameOf)]
  }

  lemma NextEntry(us: seq<UnitInstance>, board: seq<Option<Entry>>, side: Side, nameOf: Pos -> InstanceId, n: nat)
    requires 0 < n <= |board| <= 9 && Loaded(us, board, side, nameOf, n - 1) && Readable(board[n - 1])
    ensures Loaded(WithEntry(us, board[n - 1], Pos(side, n - 1), nameOf), board, side, nameOf, n)
  {
    if board[n - 1].Some? {
      LoadedMore(us, board, side, nameOf, n - 1, UnitFrom(board[n - 1].value, Pos(side, n - 1), nameOf));
    }
  }

  lemma EntryRead(board: seq<Option<Entry>>, side: Side, nameOf: Pos -> InstanceId, n: nat, us: seq<UnitInstance>)
    requires 0 < n <= |board| <= 9 && Readable(board[n - 1]) && UnitsFromBoard(board, side, nameOf, n - 1) == Units(us)
    ensures UnitsFromBoard(board, side, nameOf, n) == Units(WithEntry(us, board[n - 1], Pos(side, n - 1), nameOf))
  {
  }

  lemma {:induction false} LoadedAre(board: seq<Option<Entry>>, side: Side, nameOf: Pos -> InstanceId, n: nat)
    returns (us: seq<UnitInstance>)
    requires n <= |board| <= 9 && AllReadable(board, n)
    ensures UnitsFromBoard(board, side, nameOf, n) == Units(us) && Loaded(us, board, side, nameOf, n)
    decreases n
  {
    if n == 0 {
      us := [];
    } else {
      var before := LoadedAre(board, side, nameOf, n - 1);
      us := WithEntry(before, board[n - 1], Pos(side, n - 1), nameOf);
      EntryRead(board, side, nameOf, n, before);
      NextEntry(before, board, side, nameOf, n);
    }
  }

  /** A board is refused exactly for an unreadable entry; otherwise all its units are loaded. */
  lemma UnitsFromBoardAre(board: seq<Option<Entry>>, side: Side, nameOf: Pos -> InstanceId, n: nat)
    requires n <= |board| <= 9
    ensures
      var r := UnitsFromBoard(board, side, nameOf, n);
      && (r.Units? <==> AllReadable(board, n))
      && (r.Units? ==> Loaded(r.units, board, side, nameOf, n))
  {
    RefusedIff(board, side, nameOf, n);
    if AllReadable(board, n) {
      var us := LoadedAre(board, side, nameOf, n);
    }
  }

  lemma LoadedAreFresh(us: seq<UnitInstance>, board: seq<Option<Entry>>, side: Side, nameOf: Pos -> InstanceId)
    requires |board| == 9 && Loaded(us, board, side, nameOf, 9)
    ensures AllOn(us, side) && DistinctSlots(us) && forall u <- us :: Fresh(u)
  {
    forall u <- us ensures u.pos.side == side && Fresh(u) {
      var i :| 0 <= i < |us| && us[i] == u;
      assert ReadOff(us[i], board, side, nameOf);
    }
  }

  /** What the engine asks of its callers; any two stored boards without a shared id meet it. */
  ghost predicate Sound(p1: seq<UnitInstance>, p2: seq<UnitInstance>) {
    AllOn(p1, P1) && AllOn(p2, P2) && DistinctSlots(p1) && DistinctSlots(p2) && DistinctIds(p1 + p2)
  }

  /** The log that runBattle returns for two line-ups, with the side that acts first. */
  ghost function LogOf(p1: seq<UnitInstance>, p2: seq<UnitInstance>, initSide: Side): seq<LogEntry> {
    var layout := LayoutOf(p1 + p2);
    Render(Battle(BoardOf(p1 + p2), layout, initSide), layout)
  }

  /**
   * A battle between two stored boards starts on a board from which every invariant holds,
   * provided that no tank with a star has a single hit point at most.
   */
  lemma StartIsSound(b1: seq<Option<Entry>>, b2: seq<Option<Entry>>, nameOf: Pos -> InstanceId)
    requires |b1| == 9 && |b2| == 9
    requires UnitsFromBoard(b1, P1, nameOf).Units? && UnitsFromBoard(b2, P2, nameOf).Units?
    requires DistinctIds(UnitsFromBoard(b1, P1, nameOf).units + UnitsFromBoard(b2, P2, nameOf).units)
    ensures
      var p1, p2 := UnitsFromBoard(b1, P1, nameOf).units, UnitsFromBoard(b2, P2, nameOf).units;
      var b := BoardOf(p1 + p2);
      && Sound(p1, p2) && SlowsSound(b)
      && (AllFit(b) <==> forall u <- p1 + p2 :: u.unitId.Tank? && u.star >= 1 ==> u.maxHp >= 2)
      && forall p <- b :: !b[p].revived
  {
    UnitsFromBoardAre(b1, P1, nameOf, 9);
    UnitsFromBoardAre(b2, P2, nameOf, 9);
    var p1, p2 := UnitsFromBoard(b1, P1, nameOf).units, UnitsFromBoard(b2, P2, nameOf).units;
    LoadedAreFresh(p1, b1, P1, nameOf);
    LoadedAreFresh(p2, b2, P2, nameOf);
    FreshIsSound(p1, p2);
  }

  lemma SoundSlots(p1: seq<UnitInstance>, p2: seq<UnitInstance>)
    requires Sound(p1, p2)
    ensures DistinctSlots(p1 + p2)
  {
    forall i, j | 0 <= i < j < |p1 + p2| ensures (p1 + p2)[i].pos != (p1 + p2)[j].pos {
      if i < |p1| <= j {
        assert p1[i] in p1 && p2[j - |p1|] in p2;
      }
    }
  }

  lemma FreshIsSound(p1: seq<UnitInstance>, p2: seq<UnitInstance>)
    requires Sound(p1, p2) && (forall u <- p1 :: Fresh(u)) && (forall u <- p2 :: Fresh(u))
    ensures
      var b := BoardOf(p1 + p2);
      && SlowsSound(b)
      && (AllFit(b) <==> forall u <- p1 + p2 :: u.unitId.Tank? && u.star >= 1 ==> u.maxHp >= 2)
      && forall p <- b :: !b[p].revived
  {
    var us := p1 + p2;
    SoundSlots(p1, p2);
    BoardHolds(us);
    forall i | 0 <= i < |us| ensures Fresh(us[i]) {
      assert us[i] in p1 || us[i] in p2;
    }
    FreshBoard(BoardOf(us), us);
  }

  lemma FreshUnit(b: Board, us: seq<UnitInstance>, p: Pos)
    requires Holds(b, us) && (forall i | 0 <= i < |us| :: Fresh(us[i])) && p in b
    ensures b[p].pos == p && Paced(b[p]) && b[p].slowedBy == None && !b[p].revived
    ensures Fit(b[p]) <==> (b[p].unitId.Tank? && b[p].star >= 1 ==> b[p].maxHp >= 2)
  {
    var i :| 0 <= i < |us| && us[i].pos == p;
    assert Fresh(us[i]);
  }

  lemma HeldIds(b: Board, us: seq<UnitInstance>, p: Pos, q: Pos)
    requires Holds(b, us) && DistinctIds(us) && p in b && q in b && b[p].id == b[q].id
    ensures p == q
  {
    var i :| 0 <= i < |us| && us[i].pos == p;
    var j :| 0 <= j < |us| && us[j].pos == q;
  }

  lemma FreshFit(b: Board, us: seq<UnitInstance>)
    requires Holds(b, us) && forall i | 0 <= i < |us| :: Fresh(us[i])
    ensures AllFit(b) <==> forall u <- us :: u.unitId.Tank? && u.star >= 1 ==> u.maxHp >= 2
  {
    forall p <- b
      ensures b[p].pos == p && (Fit(b[p]) <==> (b[p].unitId.Tank? && b[p].star >= 1 ==> b[p].maxHp >= 2))
    {
      FreshUnit(b, us, p);
    }
    forall u <- us ensures u.pos in b && b[u.pos] == CloneOf(u) {
      var i :| 0 <= i < |us| && us[i] == u;
    }
    forall p <- b ensures exists u :: u in us && b[p] == CloneOf(u) {
      var i :| 0 <= i < |us| && us[i].pos == p;
      assert us[i] in us;
    }
  }

  lemma FreshBoard(b: Board, us: seq<UnitInstance>)
    requires Holds(b, us) && DistinctIds(us) && forall i | 0 <= i < |us| :: Fresh(us[i])
    ensures SlowsSound(b)
    ensures AllFit(b) <==> forall u <- us :: u.unitId.Tank? && u.star >= 1 ==> u.maxHp >= 2
    ensures forall p <- b :: !b[p].revived
  {
    FreshFit(b, us);
    forall p <- b ensures b[p].pos == p && Paced(b[p]) && b[p].slowedBy == None && !b[p].revived {
      FreshUnit(b, us, p);
    }
    forall p, q | p in b && q in b && b[p].id == b[q].id ensures p == q {
      HeldIds(b, us, p, q);
    }
  }

  // ---- the units of stored boards, field by field ----

  function HpTable(unitId: UnitId): int {
    match unitId case Fighter => 100 case Healer => 70 case Ranger => 60 case Tank => 150
  }

  function PaceTable(unitId: UnitId): int {
    match unitId case Fighter => 20 case Healer => 50 case Ranger => 67 case Tank => 0
  }

  /**
   * The unit that a stored entry puts on a square: of the entry's kind, star and id, with its
   * maximum and hit points where they are usable, at full pace, and alive unless it has none.
   */
  predicate Stands(u: UnitState, e: Entry, p: Pos, nameOf: Pos -> InstanceId) {
    && u.pos == p && e.unitId == Some(u.unitId) && e.star == Some(u.star)
    && u.id == (match e.id case Some(id) => id case None => nameOf(p))
    && u.maxHp == (if e.maxHp.Some? && e.maxHp.value > 0 then e.maxHp.value else HpTable(u.unitId))
    && u.hp == (if e.hp.None? || e.hp.value < 0 || e.hp.value > u.maxHp then u.maxHp else e.hp.value)
    && u.alive == (u.hp > 0) && !u.revived && !u.slowActive && u.slowedBy == None && u.spd == PaceTable(u.unitId)
  }

  lemma CloneStands(e: Entry, p: Pos, nameOf: Pos -> InstanceId)
    requires e.unitId.Some? && e.star.Some?
    ensures Stands(CloneOf(UnitFrom(e, p, nameOf)), e, p, nameOf)
  {
  }

  /** A side of the battle board is the stored board. */
  ghost predicate Mirrors(b: Board, side: Side, board: seq<Option<Entry>>, nameOf: Pos -> InstanceId)
    requires |board| == 9
  {
    forall k: Slot ::
      && (Pos(side, k) in b <==> board[k].Some?)
      && (board[k].Some? ==> Stands(b[Pos(side, k)], board[k].value, Pos(side, k), nameOf))
  }

  lemma SideMirrors(
    b: Board, side: Side, us: seq<UnitInstance>, vs: seq<UnitInstance>, board: seq<Option<Entry>>,
    nameOf: Pos -> InstanceId)
    requires |board| == 9 && Loaded(us, board, side, nameOf, 9) && AllOn(vs, side.Other())
    requires forall i | 0 <= i < |us| :: us[i].pos in b && b[us[i].pos] == CloneOf(us[i])
    requires forall p <- b :: (exists i :: 0 <= i < |us| && us[i].pos == p) || exists v :: v in vs && v.pos == p
    ensures Mirrors(b, side, board, nameOf)
  {
    forall k: Slot
      ensures Pos(side, k) in b <==> board[k].Some?
      ensures board[k].Some? ==> Stands(b[Pos(side, k)], board[k].value, Pos(side, k), nameOf)
    {
      var p := Pos(side, k);
      if p in b {
        var i :| 0 <= i < |us| && us[i].pos == p;
        assert ReadOff(us[i], board, side, nameOf);
      }
      if board[k].Some? {
        assert Has(us, p);
        var i :| 0 <= i < |us| && LayoutOf(us)[i] == p;
        assert ReadOff(us[i], board, side, nameOf);
        CloneStands(board[k].value, p, nameOf);
      }
    }
  }

  lemma HoldsParts(b: Board, us: seq<UnitInstance>, vs: seq<UnitInstance>)
    requires Holds(b, us + vs)
    ensures forall i | 0 <= i < |us| :: us[i].pos in b && b[us[i].pos] == CloneOf(us[i])
    ensures forall i | 0 <= i < |vs| :: vs[i].pos in b && b[vs[i].pos] == CloneOf(vs[i])
    ensures forall p <- b :: (exists i :: 0 <= i < |us| && us[i].pos == p) || exists v :: v in vs && v.pos == p
    ensures forall p <- b :: (exists i :: 0 <= i < |vs| && vs[i].pos == p) || exists u :: u in us && u.pos == p
  {
    forall i | 0 <= i < |us| ensures us[i].pos in b && b[us[i].pos] == CloneOf(us[i]) {
      assert (us + vs)[i] == us[i];
    }
    forall i | 0 <= i < |vs| ensures vs[i].pos in b && b[vs[i].pos] == CloneOf(vs[i]) {
      assert (us + vs)[|us| + i] == vs[i];
    }
    forall p <- b
      ensures (exists i :: 0 <= i < |us| && us[i].pos == p) || exists v :: v in vs && v.pos == p
      ensures (exists i :: 0 <= i < |vs| && vs[i].pos == p) || exists u :: u in us && u.pos == p
    {
      var k :| 0 <= k < |us + vs| && (us + vs)[k].pos == p;
      if k < |us| {
        assert us[k] in us && us[k].pos == p;
      } else {
        assert vs[k - |us|] in vs && vs[k - |us|].pos == p;
      }
    }
  }

  /** The board of a battle is the two stored boards, square by square and field by field. */
  lemma BattleOfStored(b1: seq<Option<Entry>>, b2: seq<Option<Entry>>, nameOf: Pos -> InstanceId)
    requires |b1| == 9 && |b2| == 9
    requires UnitsFromBoard(b1, P1, nameOf).Units? && UnitsFromBoard(b2, P2, nameOf).Units?
    requires DistinctIds(UnitsFromBoard(b1, P1, nameOf).units + UnitsFromBoard(b2, P2, nameOf).units)
    ensures
      var b := BoardOf(UnitsFromBoard(b1, P1, nameOf).units + UnitsFromBoard(b2, P2, nameOf).units);
      Mirrors(b, P1, b1, nameOf) && Mirrors(b, P2, b2, nameOf)
  {
    UnitsFromBoardAre(b1, P1, nameOf, 9);
    UnitsFromBoardAre(b2, P2, nameOf, 9);
    var p1, p2 := UnitsFromBoard(b1, P1, nameOf).units, UnitsFromBoard(b2, P2, nameOf).units;
    LoadedAreFresh(p1, b1, P1, nameOf);
    LoadedAreFresh(p2, b2, P2, nameOf);
    SoundSlots(p1, p2);
    BoardHolds(p1 + p2);
    HoldsParts(BoardOf(p1 + p2), p1, p2);
    SideMirrors(BoardOf(p1 + p2), P1, p1, p2, b1, nameOf);
    SideMirrors(BoardOf(p1 + p2), P2, p2, p1, b2, nameOf);
  }

  // ---- the units of a call, field by field ----

  /** The engine's copy: what the caller gives, and for a field left out the state of a fresh unit. */
  predicate Copies(s: UnitState, u: UnitInstance) {
    && s.pos == u.pos && s.id == u.id && s.unitId == u.unitId && s.star == u.star && s.hp == u.hp && s.maxHp == u.maxHp
    && s.alive == (match u.alive case Some(alive) => alive case None => u.hp > 0)
    && (s.revived <==> u.revived == Some(true)) && (s.slowActive <==> u.slowActive == Some(true))
    && s.slowedBy == u.slowedBy
    && s.spd == (match u.spd case Some(spd) => spd case None => PaceTable(u.unitId))
  }

  /** The board of a battle holds a copy of every unit of the call, on its square, and nobody else. */
  lemma BattleOfInstances(p1: seq<UnitInstance>, p2: seq<UnitInstance>)
    requires Sound(p1, p2)
    ensures
      var b, us := BoardOf(p1 + p2), p1 + p2;
      && (forall i | 0 <= i < |us| :: us[i].pos in b && Copies(b[us[i].pos], us[i]))
      && (forall p <- b :: exists i :: 0 <= i < |us| && us[i].pos == p)
  {
    var us := p1 + p2;
    SoundSlots(p1, p2);
    BoardHolds(us);
    forall i | 0 <= i < |us| ensures us[i].pos in BoardOf(us) && Copies(BoardOf(us)[us[i].pos], us[i]) {
      assert BoardOf(us)[us[i].pos] == CloneOf(us[i]);
    }
  }
}
