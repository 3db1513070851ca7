/**
 * The result of a round's battle, from the two rosters that fight it: the stored boards are
 * read, the engine runs on them, and the winner is the one that its log names.
 */
module RoundBattle {
  import opened GameTypes
  import opened BattleSpec
  import opened BattleTrace
  import opened BattleLife
  import opened BattleEnds
  import opened BattleStart
  import opened MatchRules
  import Economy

  // ---- from a roster to its units ----

  function StoredEntry(u: Economy.RosterUnit): Entry {
    Entry(Some(u.unitId), Some(u.star), Some(u.id), Some(u.hp), Some(u.maxHp))
  }

  function StoredBoard(slots: Economy.Slots): (r: seq<Option<Entry>>)
    ensures |r| == |slots|
    ensures forall i | 0 <= i < |r| :: r[i] == if slots[i].None? then None else Some(StoredEntry(slots[i].value))
  {
    seq(|slots|, i requires 0 <= i < |slots| => if slots[i].None? then None else Some(StoredEntry(slots[i].value)))
  }

  /** Every roster unit has an id, so the fallback name is never used. */
  function Unnamed(): Pos -> InstanceId {
    (p: Pos) => 0
  }

  function UnitsOn(p: Economy.Player, side: Side): seq<UnitInstance>
    requires |p.board| == 9
  {
    var r := UnitsFromBoard(StoredBoard(p.board), side, Unnamed());
    if r.Units? then r.units else []
  }

  lemma UnitsOnAre(p: Economy.Player, side: Side)
    requires |p.board| == 9
    ensures Loaded(UnitsOn(p, side), StoredBoard(p.board), side, Unnamed(), 9)
  {
    UnitsFromBoardAre(StoredBoard(p.board), side, Unnamed(), 9);
  }

  // ---- the winner that a log names ----

  /** battleWinner: the last battle_end of a log, if there is one. */
  function WinnerIn(log: seq<LogEntry>): Option<Winner> {
    if log == [] then None
    else match log[|log| - 1].event
      case BattleEnd(_, winner) => Some(winner)
      case _ => WinnerIn(log[..|log| - 1])
  }

  lemma LastIsNamed(log: seq<LogEntry>, last: LogEntry)
    requires last.event.BattleEnd?
    ensures WinnerIn(log + [last]) == Some(last.event.winner)
  {
  }

  lemma LogNamesVerdict(acts: seq<Act>, layout: seq<Pos>)
    requires acts != [] && |acts[|acts| - 1].events| == 1 && acts[|acts| - 1].events[0].BattleEnd?
    ensures WinnerIn(Render(acts, layout)) == Some(acts[|acts| - 1].events[0].winner)
  {
    var n := |acts| - 1;
    assert acts == acts[..n] + [acts[n]];
    RenderConcat(acts[..n], [acts[n]], layout);
    RenderMarker(acts[n], layout);
    LastIsNamed(Render(acts[..n], layout), LogEntry(acts[n].events[0], Listing(acts[n].post, layout)));
  }

  // ---- battles that only one side, or none, can fight ----

  lemma {:induction false} NobodyWakes(b: Board, layout: seq<Pos>, acts: seq<Act>, side: Side)
    requires AllFit(b) && Run(b, LegalBy(layout), acts) && !HasLiving(b, side)
    ensures !HasLiving(After(b, acts), side)
  {
    if HasLiving(After(b, acts), side) {
      var p :| p in After(b, acts) && p.side == side && After(b, acts)[p].alive;
      assert acts[..0] == [] && acts[..|acts|] == acts;
      DeadStayDead(b, layout, acts, 0, |acts|, p);
    }
  }

  /** Whom a battle names that starts with no living unit on a side, whatever the coin. */
  lemma LivingSideWins(b: Board, layout: seq<Pos>, initSide: Side, side: Side)
    requires AllFit(b) && !HasLiving(b, side.Other())
    ensures WinnerIn(Render(Battle(b, layout, initSide), layout))
      == Some(if HasLiving(b, side) then Some(side) else None)
  {
    var acts := Battle(b, layout, initSide);
    BattleRuns(b, LegalBy(layout), layout, initSide, 1);
    WinnerIsSurvivor(b, layout, initSide, 1, SomeLiving(b));
    NobodyWakes(b, layout, acts, side.Other());
    assert acts[..|acts|] == acts;
    if HasLiving(b, side) {
      NeverBothWiped(b, layout, acts, |acts|);
    }
    LogNamesVerdict(acts, layout);
  }

  // ---- the result of a round ----

  /** Who wins the battle of two rosters in a round. */
  type Judge = (Economy.Player, Economy.Player, nat) -> Winner

  /** What the engine yields from two rosters, with the coin of each round that its seed gives. */
  ghost function EngineJudge(coins: nat -> Side): Judge {
    (p1: Economy.Player, p2: Economy.Player, round: nat) =>
      if |p1.board| == 9 && |p2.board| == 9 then
        match WinnerIn(LogOf(UnitsOn(p1, P1), UnitsOn(p2, P2), coins(round)))
        case Some(winner) => winner
        case None => None
      else None
  }

  /** The engine's judge names the winner of the battle_end that closes the log of the two rosters. */
  lemma JudgeNamesLast(p1: Economy.Player, p2: Economy.Player, coins: nat -> Side, round: nat)
    requires |p1.board| == 9 && |p2.board| == 9
    ensures
      var log := LogOf(UnitsOn(p1, P1), UnitsOn(p2, P2), coins(round));
      && log != [] && log[|log| - 1].event.BattleEnd?
      && EngineJudge(coins)(p1, p2, round) == log[|log| - 1].event.winner
  {
    var us := UnitsOn(p1, P1) + UnitsOn(p2, P2);
    var acts := Battle(BoardOf(us), LayoutOf(us), coins(round));
    EndsClosed(BoardOf(us), LayoutOf(us), coins(round), 1);
    var n := |acts| - 1;
    assert acts == acts[..n] + [acts[n]];
    RenderConcat(acts[..n], [acts[n]], LayoutOf(us));
    RenderMarker(acts[n], LayoutOf(us));
    LogNamesVerdict(acts, LayoutOf(us));
  }

  lemma {:induction false} EndsClosed(b: Board, layout: seq<Pos>, initSide: Side, cycle: int)
    requires 1 <= cycle <= MAX_CYCLES
    ensures
      var acts := RunCycles(b, layout, initSide, cycle);
      acts != [] && |acts[|acts| - 1].events| == 1 && acts[|acts| - 1].events[0].BattleEnd?
    decreases MAX_CYCLES - cycle
  {
    var end := After(b, RunCycle(b, layout, initSide, cycle));
    if !Decided(end) && cycle < MAX_CYCLES {
      EndsClosed(end, layout, initSide, cycle + 1);
    }
  }

  predicate Vacant(p: Economy.Player) {
    |p.board| == 9 && forall k | 0 <= k < 9 :: p.board[k].None?
  }

  /** One unit as it was bought, and nobody beside it. */
  ghost predicate HoldsOne(p: Economy.Player) {
    && |p.board| == 9 && (forall k | 1 <= k < 9 :: p.board[k].None?)
    && exists unitId, id :: p.board[0] == Some(Economy.NewUnit(unitId, id))
  }

  /** Two empty boards tie, and a unit without an opponent wins. */
  ghost predicate Decides(judge: Judge) {
    && (forall p1, p2, round {:trigger judge(p1, p2, round)} | Vacant(p1) && Vacant(p2) :: judge(p1, p2, round) == None)
    && (forall p1, p2, round {:trigger judge(p1, p2, round)} | HoldsOne(p1) && Vacant(p2) ::
      judge(p1, p2, round) == Some(P1))
  }

  /** Each unit stands for the roster unit on its square. */
  lemma UnitStands(p: Economy.Player, side: Side, i: nat)
    requires |p.board| == 9 && i < |UnitsOn(p, side)|
    ensures
      var u := UnitsOn(p, side)[i];
      && u.pos.side == side && p.board[u.pos.slot].Some?
      && u == UnitFrom(StoredEntry(p.board[u.pos.slot].value), u.pos, Unnamed())
  {
    UnitsOnAre(p, side);
    assert ReadOff(UnitsOn(p, side)[i], StoredBoard(p.board), side, Unnamed());
  }

  // ---- the battle board of two rosters ----

  function RosterAt(p1: Economy.Player, p2: Economy.Player, pos: Pos): Option<Economy.RosterUnit>
    requires |p1.board| == 9 && |p2.board| == 9
  {
    if pos.side.P1? then p1.board[pos.slot] else p2.board[pos.slot]
  }

  ghost predicate NoSharedIds(p1: Economy.Player, p2: Economy.Player)
    requires |p1.board| == 9 && |p2.board| == 9
  {
    forall p, q {:trigger RosterAt(p1, p2, p), RosterAt(p1, p2, q)} |
      p != q && RosterAt(p1, p2, p).Some? && RosterAt(p1, p2, q).Some? ::
      RosterAt(p1, p2, p).value.id != RosterAt(p1, p2, q).value.id
  }

  /** A roster unit as it enters a battle: all it is stored with, at the full pace of its kind. */
  predicate Enters(u: UnitState, r: Economy.RosterUnit, p: Pos) {
    && u.pos == p && u.id == r.id && u.unitId == r.unitId && u.star == r.star
    && (0 <= r.hp <= r.maxHp && 0 < r.maxHp ==> u.hp == r.hp && u.maxHp == r.maxHp)
    && u.alive == (u.hp > 0) && !u.revived && !u.slowActive && u.slowedBy == None && u.spd == PaceTable(r.unitId)
  }

  lemma RostersAreDistinct(p1: Economy.Player, p2: Economy.Player)
    requires |p1.board| == 9 && |p2.board| == 9 && NoSharedIds(p1, p2)
    ensures DistinctIds(UnitsOn(p1, P1) + UnitsOn(p2, P2))
  {
    var us, vs := UnitsOn(p1, P1), UnitsOn(p2, P2);
    UnitsOnAre(p1, P1);
    UnitsOnAre(p2, P2);
    var ws := us + vs;
    forall i, j | 0 <= i < j < |ws| ensures ws[i].id != ws[j].id {
      if i < |us| { UnitStands(p1, P1, i); } else { UnitStands(p2, P2, i - |us|); }
      if j < |us| { UnitStands(p1, P1, j); } else { UnitStands(p2, P2, j - |us|); }
      var u, v := ws[i], ws[j];
      assert RosterAt(p1, p2, u.pos).value.id == u.id && RosterAt(p1, p2, v.pos).value.id == v.id;
    }
  }

  /** The engine fights with the units of the two rosters, each on its square, and with no others. */
  lemma RostersFight(p1: Economy.Player, p2: Economy.Player)
    requires |p1.board| == 9 && |p2.board| == 9 && NoSharedIds(p1, p2)
    ensures
      var b := BoardOf(UnitsOn(p1, P1) + UnitsOn(p2, P2));
      forall p: Pos :: (p in b <==> RosterAt(p1, p2, p).Some?) && (p in b ==> Enters(b[p], RosterAt(p1, p2, p).value, p))
  {
    RostersAreDistinct(p1, p2);
    var b1, b2 := StoredBoard(p1.board), StoredBoard(p2.board);
    RefusedIff(b1, P1, Unnamed(), 9);
    RefusedIff(b2, P2, Unnamed(), 9);
    BattleOfStored(b1, b2, Unnamed());
    var b := BoardOf(UnitsOn(p1, P1) + UnitsOn(p2, P2));
    forall p: Pos
      ensures (p in b <==> RosterAt(p1, p2, p).Some?) && (p in b ==> Enters(b[p], RosterAt(p1, p2, p).value, p))
    {
      assert p == Pos(p.side, p.slot);
      if p in b {
        assert Stands(b[p], StoredEntry(RosterAt(p1, p2, p).value), p, Unnamed());
      }
    }
  }

  lemma FirstTwo(p: Economy.Player, side: Side)
    requires |p.board| == 9
    ensures var us := UnitsOn(p, side); |us| > 1 ==> us[0].pos.slot < us[1].pos.slot
  {
    UnitsOnAre(p, side);
  }

  lemma NoUnits(p: Economy.Player, side: Side)
    requires Vacant(p)
    ensures UnitsOn(p, side) == []
  {
    if UnitsOn(p, side) != [] {
      UnitStands(p, side, 0);
    }
  }

  lemma OneUnit(p: Economy.Player, side: Side)
    requires HoldsOne(p)
    ensures
      var us := UnitsOn(p, side);
      |us| == 1 && us[0].pos.side == side && us[0].star == 0 && us[0].hp > 0 && Fresh(us[0])
  {
    UnitsOnAre(p, side);
    var us := UnitsOn(p, side);
    assert Has(us, Pos(side, 0));
    forall i | 0 <= i < |us| ensures us[i].pos.slot == 0 {
      UnitStands(p, side, i);
    }
    UnitStands(p, side, 0);
    FirstTwo(p, side);
  }

  lemma EmptyBattle(coin: Side)
    ensures WinnerIn(LogOf([], [], coin)) == Some(None)
  {
    var none: seq<UnitInstance> := [];
    assert none + none == none;
    assert BoardOf(none) == map[];
    LivingSideWins(BoardOf(none), LayoutOf(none), coin, P1);
  }

  lemma LoneBattle(u: UnitInstance, coin: Side)
    requires u.pos.side == P1 && u.star == 0 && u.hp > 0 && Fresh(u)
    ensures WinnerIn(LogOf([u], [], coin)) == Some(Some(P1))
  {
    var us, none: seq<UnitInstance> := [u], [];
    assert us + none == us;
    FreshIsSound(us, none);
    BoardHolds(us);
    var b := BoardOf(us);
    assert b[u.pos] == CloneOf(us[0]);
    LivingSideWins(b, LayoutOf(us), coin, P1);
  }

  /** The engine is such a judge, whatever the coins. */
  lemma EngineDecides(coins: nat -> Side)
    ensures Decides(EngineJudge(coins))
  {
    var judge := EngineJudge(coins);
    forall p1, p2, round | Vacant(p1) && Vacant(p2) ensures judge(p1, p2, round) == None {
      NoUnits(p1, P1);
      NoUnits(p2, P2);
      EmptyBattle(coins(round));
    }
    forall p1, p2, round | HoldsOne(p1) && Vacant(p2) ensures judge(p1, p2, round) == Some(P1) {
      OneUnit(p1, P1);
      NoUnits(p2, P2);
      var us := UnitsOn(p1, P1);
      assert us == [us[0]];
      LoneBattle(us[0], coins(round));
    }
  }
}
