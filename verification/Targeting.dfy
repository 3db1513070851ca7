/**
 * Target choice as the source computes it, by filtering, sorting and reducing lists of
 * units (backend/src/game/targeting.ts and lowestHpAlly of abilities.ts), and the proof
 * that each choice is the least unit of one total order.
 */
module Targeting {
  import opened GameTypes
  import opened BattleSpec

  // ---- the least unit of an order ----

  ghost predicate Candidate(b: Board, side: Side, c: Criterion, p: Pos) {
    p in b && p.side == side && Eligible(c, b[p])
  }

  lemma {:induction false} LeaderIsLeast(b: Board, side: Side, c: Criterion, n: nat)
    requires n <= 9
    ensures forall q | Candidate(b, side, c, q) && q.slot < n ::
      Leader(b, side, c, n).Some? && !Less(RankOf(c, b[q]), RankOf(c, b[Leader(b, side, c, n).value]))
  {
    if n > 0 {
      LeaderIsLeast(b, side, c, n - 1);
      forall q | Candidate(b, side, c, q) && q.slot < n
        ensures Leader(b, side, c, n).Some?
        ensures !Less(RankOf(c, b[q]), RankOf(c, b[Leader(b, side, c, n).value]))
      {
        assert q.slot == n - 1 ==> q == Pos(side, n - 1);
      }
    }
  }

  /** There is a leader exactly when there is a candidate. */
  lemma LeaderExistsIff(b: Board, side: Side, c: Criterion)
    ensures Leader(b, side, c).None? <==> forall q :: !Candidate(b, side, c, q)
  {
    LeaderIsLeast(b, side, c, 9);
    if Leader(b, side, c).Some? {
      assert Candidate(b, side, c, Leader(b, side, c).value);
    }
  }

  /** A candidate that ranks below all others is the leader. */
  lemma LeaderUnique(b: Board, side: Side, c: Criterion, p: Pos)
    requires Candidate(b, side, c, p)
    requires forall q | Candidate(b, side, c, q) && q != p :: Less(RankOf(c, b[p]), RankOf(c, b[q]))
    ensures Leader(b, side, c) == Some(p)
  {
    LeaderIsLeast(b, side, c, 9);
    var l := Leader(b, side, c).value;
    assert Candidate(b, side, c, l);
  }

  // ---- list operations of the source ----

  function Living(us: seq<UnitState>): seq<UnitState> {
    if us == [] then []
    else if us[0].alive then [us[0]] + Living(us[1..])
    else Living(us[1..])
  }

  function InCol(us: seq<UnitState>, col: int): seq<UnitState> {
    if us == [] then []
    else if Col(us[0].pos.slot) == col then [us[0]] + InCol(us[1..], col)
    else InCol(us[1..], col)
  }

  function InRow(us: seq<UnitState>, row: int): seq<UnitState> {
    if us == [] then []
    else if Row(us[0].pos.slot) == row then [us[0]] + InRow(us[1..], row)
    else InRow(us[1..], row)
  }

  /** The front row of a lane if it is occupied, else the middle one, else the back one. */
  function FirstNonEmptyRow(lane: seq<UnitState>): seq<UnitState> {
    if InRow(lane, 0) != [] then InRow(lane, 0)
    else if InRow(lane, 1) != [] then InRow(lane, 1)
    else InRow(lane, 2)
  }

  predicate PositionBefore(a: UnitState, b: UnitState) {
    var ca, cb := Col(a.pos.slot), Col(b.pos.slot);
    var ra, rb := Row(a.pos.slot), Row(b.pos.slot);
    if ca != cb then ca < cb else if ra != rb then ra < rb else a.id < b.id
  }

  function InsertByPosition(us: seq<UnitState>, u: UnitState): seq<UnitState> {
    if us == [] then [u]
    else if PositionBefore(u, us[0]) then [u] + us
    else [us[0]] + InsertByPosition(us[1..], u)
  }

  /** A sorted copy: column, then row, then instance id. */
  function ByPositionThenId(us: seq<UnitState>): seq<UnitState>
    decreases |us|
  {
    if us == [] then [] else InsertByPosition(ByPositionThenId(us[..|us| - 1]), us[|us| - 1])
  }

  /** Left fold that keeps the earlier of two units unless the later has fewer hit points. */
  function ReduceLowestHp(us: seq<UnitState>): UnitState
    requires us != []
    decreases |us|
  {
    if |us| == 1 then us[0] else
    var a := ReduceLowestHp(us[..|us| - 1]);
    var b := us[|us| - 1];
    if b.hp < a.hp then b else a
  }

  function FindTank2(us: seq<UnitState>): Option<UnitState> {
    if us == [] then None
    else if IsStar2Tank(us[0]) then Some(us[0])
    else FindTank2(us[1..])
  }

  /** The own lane if it holds an enemy, else the first occupied lane; front to back. */
  function LaneCandidates(col: int, enemies: seq<UnitState>): seq<UnitState> {
    var own := FirstNonEmptyRow(InCol(enemies, col));
    if own != [] then own
    else if FirstNonEmptyRow(InCol(enemies, 0)) != [] then FirstNonEmptyRow(InCol(enemies, 0))
    else if FirstNonEmptyRow(InCol(enemies, 1)) != [] then FirstNonEmptyRow(InCol(enemies, 1))
    else FirstNonEmptyRow(InCol(enemies, 2))
  }

  lemma {:induction false} InsertSize(us: seq<UnitState>, u: UnitState)
    ensures |InsertByPosition(us, u)| == |us| + 1
    decreases |us|
  {
    if us != [] {
      InsertSize(us[1..], u);
    }
  }

  lemma {:induction false} SortSize(us: seq<UnitState>)
    ensures |ByPositionThenId(us)| == |us|
    decreases |us|
  {
    if us != [] {
      SortSize(us[..|us| - 1]);
      InsertSize(ByPositionThenId(us[..|us| - 1]), us[|us| - 1]);
    }
  }

  function LowestHpOf(us: seq<UnitState>): UnitState
    requires us != []
  {
    SortSize(us);
    ReduceLowestHp(ByPositionThenId(us))
  }

  function PickTarget(attacker: UnitState, opponents: seq<UnitState>): Option<UnitState> {
    var enemies := Living(opponents);
    if enemies == [] then None
    else if attacker.unitId.Ranger? && attacker.star == 2 then Some(LowestHpOf(enemies))
    else if !attacker.unitId.Ranger? && FindTank2(enemies).Some? then FindTank2(enemies)
    else
      var candidates := LaneCandidates(Col(attacker.pos.slot), enemies);
      if candidates == [] then None
      else if attacker.unitId.Ranger? then Some(LowestHpOf(candidates))
      else
        SortSize(candidates);
        Some(ByPositionThenId(candidates)[0])
  }

  function AllyPool(allies: seq<UnitState>, exclude: Option<Pos>): seq<UnitState> {
    if allies == [] then []
    else if allies[0].alive && exclude != Some(allies[0].pos) then [allies[0]] + AllyPool(allies[1..], exclude)
    else AllyPool(allies[1..], exclude)
  }

  function ReduceWeakest(us: seq<UnitState>): UnitState
    requires us != []
    decreases |us|
  {
    if |us| == 1 then us[0] else
    var a := ReduceWeakest(us[..|us| - 1]);
    var b := us[|us| - 1];
    if b.hp != a.hp then (if b.hp < a.hp then b else a)
    else if b.id < a.id then b else a
  }

  function LowestHpAlly(allies: seq<UnitState>, exclude: Option<Pos>): Option<UnitState> {
    var pool := AllyPool(allies, exclude);
    if pool == [] then None else Some(ReduceWeakest(pool))
  }

  // ---- what the list operations keep ----

  lemma {:induction false} LivingHas(us: seq<UnitState>, u: UnitState)
    ensures u in Living(us) <==> u in us && u.alive
    decreases |us|
  {
    if us != [] {
      LivingHas(us[1..], u);
      assert us == [us[0]] + us[1..];
    }
  }

  lemma {:induction false} ColHas(us: seq<UnitState>, col: int, u: UnitState)
    ensures u in InCol(us, col) <==> u in us && Col(u.pos.slot) == col
    decreases |us|
  {
    if us != [] {
      ColHas(us[1..], col, u);
      assert us == [us[0]] + us[1..];
    }
  }

  lemma {:induction false} RowHas(us: seq<UnitState>, row: int, u: UnitState)
    ensures u in InRow(us, row) <==> u in us && Row(u.pos.slot) == row
    decreases |us|
  {
    if us != [] {
      RowHas(us[1..], row, u);
      assert us == [us[0]] + us[1..];
    }
  }

  lemma {:induction false} PoolHas(us: seq<UnitState>, exclude: Option<Pos>, u: UnitState)
    ensures u in AllyPool(us, exclude) <==> u in us && u.alive && exclude != Some(u.pos)
    decreases |us|
  {
    if us != [] {
      PoolHas(us[1..], exclude, u);
      assert us == [us[0]] + us[1..];
    }
  }

  lemma {:induction false} InsertHas(us: seq<UnitState>, u: UnitState, v: UnitState)
    ensures v in InsertByPosition(us, u) <==> v == u || v in us
    decreases |us|
  {
    if us != [] {
      InsertHas(us[1..], u, v);
      assert us == [us[0]] + us[1..];
    }
  }

  lemma {:induction false} SortHas(us: seq<UnitState>, v: UnitState)
    ensures v in ByPositionThenId(us) <==> v in us
    decreases |us|
  {
    if us != [] {
      var front := us[..|us| - 1];
      SortHas(front, v);
      InsertHas(ByPositionThenId(front), us[|us| - 1], v);
      assert us == front + [us[|us| - 1]];
    }
  }

  ghost predicate Sorted(us: seq<UnitState>) {
    forall i, j | 0 <= i < j < |us| :: !PositionBefore(us[j], us[i])
  }

  lemma {:induction false} InsertSorted(us: seq<UnitState>, u: UnitState)
    requires Sorted(us)
    ensures Sorted(InsertByPosition(us, u))
    decreases |us|
  {
    if us != [] && !PositionBefore(u, us[0]) {
      InsertSorted(us[1..], u);
      var rest := InsertByPosition(us[1..], u);
      forall j | 0 <= j < |rest| ensures !PositionBefore(rest[j], us[0]) {
        InsertHas(us[1..], u, rest[j]);
      }
    }
  }

  lemma {:induction false} SortSorted(us: seq<UnitState>)
    ensures Sorted(ByPositionThenId(us))
    decreases |us|
  {
    if us != [] {
      SortSorted(us[..|us| - 1]);
      InsertSorted(ByPositionThenId(us[..|us| - 1]), us[|us| - 1]);
    }
  }

  /** The fold returns the earliest of the units with the fewest hit points. */
  lemma {:induction false} ReduceIsEarliest(us: seq<UnitState>) returns (i: nat)
    requires us != []
    ensures i < |us| && ReduceLowestHp(us) == us[i]
    ensures forall j | 0 <= j < i :: us[i].hp < us[j].hp
    ensures forall j | i < j < |us| :: us[i].hp <= us[j].hp
    decreases |us|
  {
    if |us| == 1 {
      i := 0;
    } else {
      i := ReduceIsEarliest(us[..|us| - 1]);
      if us[|us| - 1].hp < us[i].hp {
        i := |us| - 1;
      }
    }
  }

  ghost predicate DistinctSquares(us: seq<UnitState>) {
    forall u, v :: u in us && v in us && u.pos == v.pos ==> u == v
  }

  ghost predicate OneSide(us: seq<UnitState>, side: Side) {
    forall u <- us :: u.pos.side == side
  }

  lemma SlotOf(s: Slot, t: Slot)
    requires ColumnMajor(s) == ColumnMajor(t)
    ensures s == t
  {
  }

  /** lowestHp returns the least unit by hit points, then column, then row. */
  lemma LowestHpIsLeast(us: seq<UnitState>, side: Side)
    requires us != [] && DistinctSquares(us) && OneSide(us, side)
    ensures LowestHpOf(us) in us
    ensures forall v | v in us && v != LowestHpOf(us) :: Less(RankOf(LowestHp, LowestHpOf(us)), RankOf(LowestHp, v))
  {
    var sorted := ByPositionThenId(us);
    SortSize(us);
    SortSorted(us);
    var i := ReduceIsEarliest(sorted);
    var u := LowestHpOf(us);
    assert u == sorted[i];
    SortHas(us, u);
    forall v | v in us && v != u ensures Less(RankOf(LowestHp, u), RankOf(LowestHp, v)) {
      SortHas(us, v);
      var j :| 0 <= j < |sorted| && sorted[j] == v;
      if i < j {
        assert !PositionBefore(v, u);
        if ColumnMajor(u.pos.slot) == ColumnMajor(v.pos.slot) {
          SlotOf(u.pos.slot, v.pos.slot);
        }
      }
    }
  }

  lemma {:induction false} ReduceWeakestIsLeast(us: seq<UnitState>)
    requires us != []
    requires forall u, v :: u in us && v in us && u.id == v.id ==> u == v
    ensures ReduceWeakest(us) in us
    ensures forall v | v in us && v != ReduceWeakest(us) ::
      ReduceWeakest(us).hp < v.hp || (ReduceWeakest(us).hp == v.hp && ReduceWeakest(us).id < v.id)
    decreases |us|
  {
    if |us| > 1 {
      var front := us[..|us| - 1];
      assert us == front + [us[|us| - 1]];
      ReduceWeakestIsLeast(front);
    }
  }

  /** A lane's candidates stand on the first occupied row of that lane. */
  lemma RowIsFirst(lane: seq<UnitState>, u: UnitState, v: UnitState)
    requires u in FirstNonEmptyRow(lane) && v in lane
    ensures u in lane && Row(u.pos.slot) <= Row(v.pos.slot)
  {
    RowHas(lane, 0, u);
    RowHas(lane, 1, u);
    RowHas(lane, 2, u);
    RowHas(lane, Row(v.pos.slot), v);
  }

  lemma LaneEmptyIff(lane: seq<UnitState>)
    ensures FirstNonEmptyRow(lane) == [] <==> lane == []
  {
    if lane != [] {
      RowHas(lane, Row(lane[0].pos.slot), lane[0]);
    } else {
      assert InRow(lane, 0) == [] && InRow(lane, 1) == [] && InRow(lane, 2) == [];
    }
  }

  /** Every lane candidate is least by (own lane first, column, row) among all enemies. */
  lemma LaneCandidateIsLeast(col: int, enemies: seq<UnitState>, u: UnitState, v: UnitState)
    requires u in LaneCandidates(col, enemies) && v in enemies && v.pos.slot != u.pos.slot
    ensures u in enemies
    ensures Less(RankOf(OwnLaneFirst(col), u), RankOf(OwnLaneFirst(col), v))
  {
    var cu, cv := Col(u.pos.slot), Col(v.pos.slot);
    LaneEmptyIff(InCol(enemies, col));
    LaneEmptyIff(InCol(enemies, 0));
    LaneEmptyIff(InCol(enemies, 1));
    LaneEmptyIff(InCol(enemies, 2));
    ColHas(enemies, cv, v);
    CandidateLane(col, enemies, u);
    if cu == cv {
      RowIsFirst(InCol(enemies, cu), u, v);
    }
  }

  lemma CandidateLane(col: int, enemies: seq<UnitState>, u: UnitState)
    requires u in LaneCandidates(col, enemies)
    ensures u in enemies && u in FirstNonEmptyRow(InCol(enemies, Col(u.pos.slot)))
    ensures InCol(enemies, col) != [] ==> Col(u.pos.slot) == col
    ensures InCol(enemies, col) == [] ==>
      forall c | 0 <= c < Col(u.pos.slot) :: InCol(enemies, c) == []
  {
    LaneEmptyIff(InCol(enemies, col));
    LaneEmptyIff(InCol(enemies, 0));
    LaneEmptyIff(InCol(enemies, 1));
    LaneEmptyIff(InCol(enemies, 2));
    var lane :| lane in {col, 0, 1, 2} && LaneCandidates(col, enemies) == FirstNonEmptyRow(InCol(enemies, lane))
      && (InCol(enemies, col) != [] ==> lane == col)
      && (InCol(enemies, col) == [] ==> lane != col || lane in {0, 1, 2})
      && (InCol(enemies, col) == [] ==> forall c | 0 <= c < lane :: InCol(enemies, c) == []);
    RowIsFirst(InCol(enemies, lane), u, u) by {
      RowHas(InCol(enemies, lane), 0, u);
      RowHas(InCol(enemies, lane), 1, u);
      RowHas(InCol(enemies, lane), 2, u);
    }
    ColHas(enemies, lane, u);
  }

  /**
   * With unique slots a lane offers one candidate only, so the hit-point tie-break of
   * rangers below two stars never changes the choice.
   */
  lemma OneLaneCandidate(col: int, enemies: seq<UnitState>, u: UnitState, v: UnitState)
    requires DistinctSquares(enemies)
    requires exists side :: OneSide(enemies, side)
    requires u in LaneCandidates(col, enemies) && v in LaneCandidates(col, enemies)
    ensures u == v
  {
    CandidateLane(col, enemies, u);
    CandidateLane(col, enemies, v);
    if u.pos.slot != v.pos.slot {
      LaneCandidateIsLeast(col, enemies, u, v);
      LaneCandidateIsLeast(col, enemies, v, u);
    }
  }

  // ---- the lists of a board ----

  /** The unit array of one side. */
  function Listed(b: Board, layout: seq<Pos>, side: Side): seq<UnitState> {
    if layout == [] then []
    else if layout[0] in b && layout[0].side == side then [b[layout[0]]] + Listed(b, layout[1..], side)
    else Listed(b, layout[1..], side)
  }

  lemma {:induction false} ListedHas(b: Board, layout: seq<Pos>, side: Side, u: UnitState)
    requires Placed(b)
    ensures u in Listed(b, layout, side) <==> u.pos in layout && u.pos in b && b[u.pos] == u && u.pos.side == side
    decreases |layout|
  {
    if layout != [] {
      ListedHas(b, layout[1..], side, u);
      assert layout == [layout[0]] + layout[1..];
    }
  }

  ghost predicate CoversBoard(b: Board, layout: seq<Pos>) {
    Placed(b) && forall p <- b :: p in layout
  }

  lemma {:induction false} FindIsFirstTank2(b: Board, layout: seq<Pos>, side: Side)
    requires Placed(b)
    ensures FindTank2(Living(Listed(b, layout, side)))
         == (match FirstTank2(b, layout, side) case None => None case Some(p) => Some(b[p]))
    decreases |layout|
  {
    if layout != [] {
      FindIsFirstTank2(b, layout[1..], side);
      if layout[0] in b && layout[0].side == side {
        var u := b[layout[0]];
        var rest := Listed(b, layout[1..], side);
        assert ([u] + rest)[1..] == rest;
        assert u.alive ==> ([u] + Living(rest))[1..] == Living(rest);
      }
    }
  }

  lemma EnemiesOf(b: Board, layout: seq<Pos>, side: Side)
    requires CoversBoard(b, layout)
    ensures
      var enemies := Living(Listed(b, layout, side));
      && DistinctSquares(enemies) && OneSide(enemies, side)
      && (forall u :: u in enemies <==> u.pos in b && b[u.pos] == u && u.pos.side == side && u.alive)
  {
    var enemies := Living(Listed(b, layout, side));
    forall u ensures u in enemies <==> u.pos in b && b[u.pos] == u && u.pos.side == side && u.alive {
      LivingHas(Listed(b, layout, side), u);
      ListedHas(b, layout, side, u);
    }
  }

  lemma LeastIsLeader(b: Board, side: Side, c: Criterion, enemies: seq<UnitState>, u: UnitState)
    requires Placed(b) && !c.WeakestAlly?
    requires forall v :: v in enemies <==> v.pos in b && b[v.pos] == v && v.pos.side == side && v.alive
    requires u in enemies && forall v | v in enemies && v != u :: Less(RankOf(c, u), RankOf(c, v))
    ensures Leader(b, side, c) == Some(u.pos)
  {
    forall q | Candidate(b, side, c, q) && q != u.pos ensures Less(RankOf(c, b[u.pos]), RankOf(c, b[q])) {
      assert b[q] in enemies;
    }
    LeaderUnique(b, side, c, u.pos);
  }

  /** Picking from the lane: any member of the candidate list is the leader. */
  lemma LaneChoice(b: Board, side: Side, col: int, enemies: seq<UnitState>, u: UnitState)
    requires Placed(b) && DistinctSquares(enemies) && OneSide(enemies, side)
    requires forall v :: v in enemies <==> v.pos in b && b[v.pos] == v && v.pos.side == side && v.alive
    requires u in LaneCandidates(col, enemies)
    ensures Leader(b, side, OwnLaneFirst(col)) == Some(u.pos)
  {
    CandidateLane(col, enemies, u);
    forall v | v in enemies && v != u ensures Less(RankOf(OwnLaneFirst(col), u), RankOf(OwnLaneFirst(col), v)) {
      assert v.pos != u.pos;
      LaneCandidateIsLeast(col, enemies, u, v);
    }
    LeastIsLeader(b, side, OwnLaneFirst(col), enemies, u);
  }

  lemma LaneOffers(col: int, enemies: seq<UnitState>)
    requires enemies != []
    ensures LaneCandidates(col, enemies) != []
  {
    var c := Col(enemies[0].pos.slot);
    ColHas(enemies, c, enemies[0]);
    LaneEmptyIff(InCol(enemies, c));
  }

  function OnBoard(b: Board, t: Option<Pos>): Option<UnitState>
    requires t.Some? ==> t.value in b
  {
    match t case None => None case Some(p) => Some(b[p])
  }

  lemma LanePick(b: Board, side: Side, col: int, enemies: seq<UnitState>)
    requires Placed(b) && DistinctSquares(enemies) && OneSide(enemies, side) && enemies != []
    requires forall v :: v in enemies <==> v.pos in b && b[v.pos] == v && v.pos.side == side && v.alive
    ensures LaneCandidates(col, enemies) != []
    ensures Some(LowestHpOf(LaneCandidates(col, enemies))) == OnBoard(b, Leader(b, side, OwnLaneFirst(col)))
    ensures |ByPositionThenId(LaneCandidates(col, enemies))| > 0
    ensures Some(ByPositionThenId(LaneCandidates(col, enemies))[0]) == OnBoard(b, Leader(b, side, OwnLaneFirst(col)))
  {
    LaneOffers(col, enemies);
    var candidates := LaneCandidates(col, enemies);
    forall u | u in candidates ensures u in enemies {
      CandidateLane(col, enemies, u);
    }
    LowestHpIsLeast(candidates, side);
    var u := LowestHpOf(candidates);
    LaneChoice(b, side, col, enemies, u);
    SortSize(candidates);
    var v := ByPositionThenId(candidates)[0];
    SortHas(candidates, v);
    LaneChoice(b, side, col, enemies, v);
  }

  /** pickTarget on the unit arrays is the least enemy of the order that the rules name. */
  lemma PickTargetIsTarget(b: Board, layout: seq<Pos>, a: Pos)
    requires CoversBoard(b, layout) && a in b
    ensures PickTarget(b[a], Listed(b, layout, a.side.Other())) == OnBoard(b, Target(b, layout, a))
  {
    var side := a.side.Other();
    var enemies := Living(Listed(b, layout, side));
    EnemiesOf(b, layout, side);
    FindIsFirstTank2(b, layout, side);
    assert forall q, c :: Candidate(b, side, c, q) ==> b[q] in enemies;
    if enemies == [] {
      LeaderExistsIff(b, side, LowestHp);
      LeaderExistsIff(b, side, OwnLaneFirst(Col(a.slot)));
    } else if b[a].unitId.Ranger? && b[a].star == 2 {
      LowestHpIsLeast(enemies, side);
      LeastIsLeader(b, side, LowestHp, enemies, LowestHpOf(enemies));
    } else {
      LanePick(b, side, Col(a.slot), enemies);
    }
  }

  /** pickTarget returns null exactly when no enemy lives. */
  lemma TargetNoneIff(b: Board, layout: seq<Pos>, a: Pos)
    requires a in b
    ensures Target(b, layout, a).None? <==> !HasLiving(b, a.side.Other())
  {
    var side := a.side.Other();
    LeaderExistsIff(b, side, LowestHp);
    LeaderExistsIff(b, side, OwnLaneFirst(Col(a.slot)));
    if HasLiving(b, side) {
      var p :| p in b && p.side == side && b[p].alive;
      assert Candidate(b, side, LowestHp, p) && Candidate(b, side, OwnLaneFirst(Col(a.slot)), p);
    }
  }

  /** lowestHpAlly on the unit arrays is the least living ally by hit points, then id. */
  lemma AllyIsLeader(b: Board, layout: seq<Pos>, side: Side, exclude: Option<Pos>)
    requires CoversBoard(b, layout) && WellFormed(b)
    ensures LowestHpAlly(Listed(b, layout, side), exclude) == OnBoard(b, Leader(b, side, WeakestAlly(exclude)))
  {
    var c := WeakestAlly(exclude);
    var pool := AllyPool(Listed(b, layout, side), exclude);
    forall u ensures u in pool <==> u.pos in b && b[u.pos] == u && Candidate(b, side, c, u.pos) {
      PoolHas(Listed(b, layout, side), exclude, u);
      ListedHas(b, layout, side, u);
    }
    assert forall q :: Candidate(b, side, c, q) ==> b[q] in pool;
    if pool == [] {
      LeaderExistsIff(b, side, c);
    } else {
      ReduceWeakestIsLeast(pool);
      var u := ReduceWeakest(pool);
      forall q | Candidate(b, side, c, q) && q != u.pos ensures Less(RankOf(c, b[u.pos]), RankOf(c, b[q])) {
        assert b[q] in pool;
      }
      LeaderUnique(b, side, c, u.pos);
    }
  }
}
