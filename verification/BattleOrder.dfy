/** Array order matters only through the order of the 2-star tanks. */
module BattleOrder {
  import opened GameTypes
  import opened BattleSpec
  import opened BattleTrace
  import opened BattleReplay

  /** The 2-star tanks of a side, in array order. */
  function Tanks(b: Board, layout: seq<Pos>, side: Side): seq<Pos> {
    if layout == [] then []
    else if layout[0] in b && layout[0].side == side && IsStar2Tank(b[layout[0]])
    then [layout[0]] + Tanks(b, layout[1..], side)
    else Tanks(b, layout[1..], side)
  }

  function FirstAlive(b: Board, squares: seq<Pos>): Option<Pos> {
    if squares == [] then None
    else if AliveIn(b, squares[0]) then Some(squares[0])
    else FirstAlive(b, squares[1..])
  }

  lemma {:induction false} FirstTank2IsFirstAlive(b: Board, layout: seq<Pos>, side: Side)
    ensures FirstTank2(b, layout, side) == FirstAlive(b, Tanks(b, layout, side))
    decreases |layout|
  {
    if layout != [] {
      FirstTank2IsFirstAlive(b, layout[1..], side);
      var rest := Tanks(b, layout[1..], side);
      assert ([layout[0]] + rest)[1..] == rest;
    }
  }

  lemma {:induction false} TanksKeep(b: Board, c: Board, layout: seq<Pos>, side: Side)
    requires SameUnits(b, c)
    ensures Tanks(b, layout, side) == Tanks(c, layout, side)
    decreases |layout|
  {
    if layout != [] {
      TanksKeep(b, c, layout[1..], side);
      assert layout[0] in b ==> IdentityOf(b[layout[0]]) == IdentityOf(c[layout[0]]);
    }
  }

  ghost predicate SameTanks(b: Board, l1: seq<Pos>, l2: seq<Pos>) {
    Tanks(b, l1, P1) == Tanks(b, l2, P1) && Tanks(b, l1, P2) == Tanks(b, l2, P2)
  }

  lemma SameTanksKeep(b: Board, c: Board, l1: seq<Pos>, l2: seq<Pos>)
    requires SameUnits(b, c) && SameTanks(b, l1, l2)
    ensures SameTanks(c, l1, l2)
  {
    TanksKeep(b, c, l1, P1);
    TanksKeep(b, c, l1, P2);
    TanksKeep(b, c, l2, P1);
    TanksKeep(b, c, l2, P2);
  }

  lemma SameAct(b: Board, l1: seq<Pos>, l2: seq<Pos>, a: Pos, cycle: int, tick: int)
    requires SameTanks(b, l1, l2) && a in b
    ensures ActOf(b, l1, a, cycle, tick) == ActOf(b, l2, a, cycle, tick)
    ensures SameTanks(ActOf(b, l1, a, cycle, tick).post, l1, l2)
  {
    FirstTank2IsFirstAlive(b, l1, a.side.Other());
    FirstTank2IsFirstAlive(b, l2, a.side.Other());
    assert Target(b, l1, a) == Target(b, l2, a);
    ActKeepsUnits(b, l1, a, cycle, tick);
    SameTanksKeep(b, UnitAct(b, l1, a, cycle, tick).board, l1, l2);
  }

  lemma {:induction false} SameQueue(b: Board, l1: seq<Pos>, l2: seq<Pos>, queue: seq<Pos>, cycle: int, tick: int)
    requires SameTanks(b, l1, l2)
    ensures RunQueue(b, l1, queue, cycle, tick) == RunQueue(b, l2, queue, cycle, tick)
    ensures SameTanks(After(b, RunQueue(b, l1, queue, cycle, tick)), l1, l2)
    decreases |queue|
  {
    if queue != [] {
      if AliveIn(b, queue[0]) {
        SameAct(b, l1, l2, queue[0], cycle, tick);
        SameQueue(ActOf(b, l1, queue[0], cycle, tick).post, l1, l2, queue[1..], cycle, tick);
      } else {
        SameQueue(b, l1, l2, queue[1..], cycle, tick);
      }
    }
  }

  lemma {:induction false} SameTicks(b: Board, l1: seq<Pos>, l2: seq<Pos>, initSide: Side, cycle: int, tick: int)
    requires SameTanks(b, l1, l2) && 1 <= tick <= TICKS_PER_CYCLE + 1
    ensures RunTicks(b, l1, initSide, cycle, tick) == RunTicks(b, l2, initSide, cycle, tick)
    ensures SameTanks(After(b, RunTicks(b, l1, initSide, cycle, tick)), l1, l2)
    decreases TICKS_PER_CYCLE + 1 - tick
  {
    if tick <= TICKS_PER_CYCLE {
      var queue := ActingOrder(b, initSide, tick);
      SameQueue(b, l1, l2, queue, cycle, tick);
      SameTicks(After(b, RunQueue(b, l1, queue, cycle, tick)), l1, l2, initSide, cycle, tick + 1);
    }
  }

  lemma SameCycle(b: Board, l1: seq<Pos>, l2: seq<Pos>, initSide: Side, cycle: int)
    requires SameTanks(b, l1, l2)
    ensures RunCycle(b, l1, initSide, cycle) == RunCycle(b, l2, initSide, cycle)
    ensures SameTanks(After(b, RunCycle(b, l1, initSide, cycle)), l1, l2)
  {
    SameTicks(b, l1, l2, initSide, cycle, 1);
  }

  lemma SameTanksAfter(b: Board, l1: seq<Pos>, l2: seq<Pos>, initSide: Side, cycle: int, end: Board)
    requires SameTanks(b, l1, l2) && end == After(b, RunCycle(b, l1, initSide, cycle))
    ensures SameTanks(end, l1, l2)
  {
    SameCycle(b, l1, l2, initSide, cycle);
  }

  lemma SameLastCycle(b: Board, l1: seq<Pos>, l2: seq<Pos>, initSide: Side, cycle: int)
    requires SameTanks(b, l1, l2) && 1 <= cycle <= MAX_CYCLES
    requires var end := After(b, RunCycle(b, l1, initSide, cycle)); Decided(end) || cycle == MAX_CYCLES
    ensures RunCycles(b, l1, initSide, cycle) == RunCycles(b, l2, initSide, cycle)
  {
    SameCycle(b, l1, l2, initSide, cycle);
    LastCycle(b, l1, initSide, cycle);
    LastCycle(b, l2, initSide, cycle);
  }

  lemma SameNextCycle(b: Board, l1: seq<Pos>, l2: seq<Pos>, initSide: Side, cycle: int, end: Board)
    requires SameTanks(b, l1, l2) && 1 <= cycle < MAX_CYCLES
    requires end == After(b, RunCycle(b, l1, initSide, cycle)) && !Decided(end)
    requires RunCycles(end, l1, initSide, cycle + 1) == RunCycles(end, l2, initSide, cycle + 1)
    ensures RunCycles(b, l1, initSide, cycle) == RunCycles(b, l2, initSide, cycle)
  {
    SameCycle(b, l1, l2, initSide, cycle);
    MoreCycles(b, l1, initSide, cycle);
    MoreCycles(b, l2, initSide, cycle);
  }

  /** Two array orders that list the 2-star tanks of each side alike give the same battle. */
  lemma {:induction false} OrderIrrelevant(b: Board, l1: seq<Pos>, l2: seq<Pos>, initSide: Side, cycle: int)
    requires SameTanks(b, l1, l2) && 1 <= cycle <= MAX_CYCLES
    ensures RunCycles(b, l1, initSide, cycle) == RunCycles(b, l2, initSide, cycle)
    decreases MAX_CYCLES - cycle
  {
    var end := After(b, RunCycle(b, l1, initSide, cycle));
    if Decided(end) || cycle == MAX_CYCLES {
      SameLastCycle(b, l1, l2, initSide, cycle);
    } else {
      SameTanksAfter(b, l1, l2, initSide, cycle, end);
      OrderIrrelevant(end, l1, l2, initSide, cycle + 1);
      SameNextCycle(b, l1, l2, initSide, cycle, end);
    }
  }

  // ---- when do two orders list the tanks alike? ----

  lemma {:induction false} TanksAre(b: Board, layout: seq<Pos>, side: Side, p: Pos)
    ensures multiset(Tanks(b, layout, side))[p]
         == if p in b && p.side == side && IsStar2Tank(b[p]) then multiset(layout)[p] else 0
    decreases |layout|
  {
    if layout != [] {
      TanksAre(b, layout[1..], side, p);
      assert layout == [layout[0]] + layout[1..];
    }
  }

  lemma PermutedTanks(b: Board, l1: seq<Pos>, l2: seq<Pos>, side: Side)
    requires multiset(l1) == multiset(l2)
    ensures multiset(Tanks(b, l1, side)) == multiset(Tanks(b, l2, side))
  {
    forall p ensures multiset(Tanks(b, l1, side))[p] == multiset(Tanks(b, l2, side))[p] {
      TanksAre(b, l1, side, p);
      TanksAre(b, l2, side, p);
    }
  }

  lemma ShortPermutation(x: seq<Pos>, y: seq<Pos>)
    requires multiset(x) == multiset(y) && |x| <= 1
    ensures x == y
  {
    assert |multiset(x)| == |x| && |multiset(y)| == |y|;
    if |x| == 1 {
      assert x[0] in multiset(y);
    }
  }

  /** With at most one 2-star tank per side, any permutation of the arrays gives the same battle. */
  lemma PermutationIrrelevant(b: Board, l1: seq<Pos>, l2: seq<Pos>, initSide: Side)
    requires multiset(l1) == multiset(l2)
    requires |Tanks(b, l1, P1)| <= 1 && |Tanks(b, l1, P2)| <= 1
    ensures Battle(b, l1, initSide) == Battle(b, l2, initSide)
  {
    PermutedTanks(b, l1, l2, P1);
    PermutedTanks(b, l1, l2, P2);
    ShortPermutation(Tanks(b, l1, P1), Tanks(b, l2, P1));
    ShortPermutation(Tanks(b, l1, P2), Tanks(b, l2, P2));
    OrderIrrelevant(b, l1, l2, initSide, 1);
  }

  // ---- and only then: some phase of a battle tells any two other orders apart ----

  function Without(b: Board, dead: seq<Pos>): Board {
    map p | p in b :: b[p].(alive := p !in dead)
  }

  lemma {:induction false} FirstAliveSkips(b: Board, dead: seq<Pos>, squares: seq<Pos>, k: nat)
    requires k < |squares| && squares[..k] == dead && squares[k] in b && squares[k] !in dead
    ensures FirstAlive(Without(b, dead), squares) == Some(squares[k])
  {
    FirstAliveFrom(Without(b, dead), squares, k);
  }

  lemma {:induction false} FirstAliveFrom(c: Board, squares: seq<Pos>, k: nat)
    requires k < |squares| && AliveIn(c, squares[k]) && forall i | 0 <= i < k :: !AliveIn(c, squares[i])
    ensures FirstAlive(c, squares) == Some(squares[k])
    decreases k
  {
    if k > 0 {
      FirstAliveFrom(c, squares[1..], k - 1);
    }
  }

  ghost predicate NoRepeats(s: seq<Pos>) {
    forall i, j | 0 <= i < j < |s| :: s[i] != s[j]
  }

  ghost predicate AlwaysSameTank(b: Board, l1: seq<Pos>, l2: seq<Pos>, side: Side) {
    forall c | SameUnits(b, c) :: FirstTank2(c, l1, side) == FirstTank2(c, l2, side)
  }

  lemma {:induction false} FirstDifference(x: seq<Pos>, y: seq<Pos>) returns (k: nat)
    requires |x| == |y| && x != y
    ensures k < |x| && x[..k] == y[..k] && x[k] != y[k]
    decreases |x|
  {
    if x[0] != y[0] {
      k := 0;
    } else {
      assert x == [x[0]] + x[1..] && y == [y[0]] + y[1..];
      var j := FirstDifference(x[1..], y[1..]);
      k := j + 1;
      assert x[..k] == [x[0]] + x[1..][..j] && y[..k] == [y[0]] + y[1..][..j];
    }
  }

  lemma SameListSameTank(b: Board, l1: seq<Pos>, l2: seq<Pos>, side: Side)
    requires Tanks(b, l1, side) == Tanks(b, l2, side)
    ensures AlwaysSameTank(b, l1, l2, side)
  {
    forall c | SameUnits(b, c) ensures FirstTank2(c, l1, side) == FirstTank2(c, l2, side) {
      TanksKeep(b, c, l1, side);
      TanksKeep(b, c, l2, side);
      FirstTank2IsFirstAlive(c, l1, side);
      FirstTank2IsFirstAlive(c, l2, side);
    }
  }

  /** The units of b with all the tanks before the k-th dead: the k-th is the first alive. */
  lemma KthIsFirst(b: Board, layout: seq<Pos>, side: Side, k: nat)
    requires NoRepeats(Tanks(b, layout, side)) && k < |Tanks(b, layout, side)|
    ensures
      var x := Tanks(b, layout, side);
      SameUnits(b, Without(b, x[..k])) && FirstTank2(Without(b, x[..k]), layout, side) == Some(x[k])
  {
    var x := Tanks(b, layout, side);
    var c := Without(b, x[..k]);
    TanksAre(b, layout, side, x[k]);
    assert x[k] in multiset(x);
    FirstAliveSkips(b, x[..k], x, k);
    assert SameUnits(b, c);
    TanksKeep(b, c, layout, side);
    FirstTank2IsFirstAlive(c, layout, side);
  }

  lemma OtherListOtherTank(b: Board, l1: seq<Pos>, l2: seq<Pos>, side: Side)
    requires |Tanks(b, l1, side)| == |Tanks(b, l2, side)| && Tanks(b, l1, side) != Tanks(b, l2, side)
    requires NoRepeats(Tanks(b, l1, side)) && NoRepeats(Tanks(b, l2, side))
    ensures !AlwaysSameTank(b, l1, l2, side)
  {
    var k := FirstDifference(Tanks(b, l1, side), Tanks(b, l2, side));
    KthIsFirst(b, l1, side, k);
    KthIsFirst(b, l2, side, k);
  }

  /**
   * For two listings of the same units: they pick the same 2-star tank in every state of
   * those units if and only if they list the 2-star tanks in the same order.
   */
  lemma SameTankIff(b: Board, l1: seq<Pos>, l2: seq<Pos>, side: Side)
    requires multiset(l1) == multiset(l2)
    requires NoRepeats(Tanks(b, l1, side)) && NoRepeats(Tanks(b, l2, side))
    ensures AlwaysSameTank(b, l1, l2, side) <==> Tanks(b, l1, side) == Tanks(b, l2, side)
  {
    PermutedTanks(b, l1, l2, side);
    assert |multiset(Tanks(b, l1, side))| == |Tanks(b, l1, side)|;
    assert |multiset(Tanks(b, l2, side))| == |Tanks(b, l2, side)|;
    if Tanks(b, l1, side) == Tanks(b, l2, side) {
      SameListSameTank(b, l1, l2, side);
    } else {
      OtherListOtherTank(b, l1, l2, side);
    }
  }
}
