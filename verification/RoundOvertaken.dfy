/**
 * An advance that overtakes a pending write of the round protocol. From there a run leads to a
 * wrong score, whatever the write is, so that the condition of module RoundRace is exact; one
 * short run also shows damage and gold that are lost for good. In these runs every battle has
 * the result that the engine, or any judge like it, yields from the rosters that fight it.
 */
module RoundOvertaken {
  import opened GameTypes
  import opened MatchPhase
  import opened MatchRules
  import opened RoundProtocol
  import opened RoundSafety
  import opened RoundRace
  import opened RoundLaws
  import opened RoundBattle
  import opened RoundPlays
  import Economy
  import EconomyLaws

  // ---- overtaking loses ----

  /** A worker beyond all that have done anything. */
  lemma {:induction false} FreshWorker(keys: set<int>) returns (y: int)
    ensures forall k :: k in keys ==> k < y
    decreases |keys|
  {
    y := 0;
    if exists k :: k in keys {
      var k :| k in keys;
      var x := FreshWorker(keys - {k});
      y := if x <= k then k + 1 else x;
      assert forall j :: j in keys ==> j == k || j in keys - {k};
    }
  }

  /** A result of the next round that makes the order of the two results tell. */
  function OtherResult(winner: Winner): Winner {
    if winner.None? then Some(P1) else None
  }

  lemma OrderTells(s: Score, winner: Winner)
    requires s.hp1 > 0 && s.hp2 > 0 && s.wipes1 >= 0 && s.wipes2 >= 0
    ensures
      var first := ResolveRound(s, OtherResult(winner));
      ResolveRound(s, winner) != if VerdictOf(first) == Ongoing then ResolveRound(first, winner) else first
  {
  }

  lemma WrongOrder(h: seq<Winner>, winner: Winner)
    requires VerdictOf(Play(h)) == Ongoing
    ensures Play(h + [OtherResult(winner)] + [winner]) != ResolveRound(Play(h), winner)
  {
    WipesCount(h);
    OrderTells(Play(h), winner);
    PlaySnoc(h, OtherResult(winner));
    var one := h + [OtherResult(winner)];
    assert (one + [winner])[..|one|] == one;
  }

  lemma {:induction false} WipesCount(h: seq<Winner>)
    ensures Play(h).wipes1 >= 0 && Play(h).wipes2 >= 0
    decreases |h|
  {
    if h != [] {
      WipesCount(h[..|h| - 1]);
    }
  }

  /** What is known when an advance is about to overtake the write of worker u. */
  lemma PendingWrite(s: State, me: int, a: Action) returns (u: int)
    requires SplitInv(s) && Overtakes(s, me, a)
    ensures Settling(s, u) && OnlyWriter(s, u) && u != me
    ensures
      var p, h := s.jobs[u], s.world.history;
      && VerdictOf(Play(h)) == Ongoing
      && ResolveRound(ScoreOf(p.seen), p.fought.winner) == ResolveRound(Play(h), p.fought.winner)
  {
    if AtRest(s) {
      NobodyWrites(s);
    }
    u :| Settling(s, u);
    OneWrites(s, u);
    var h, w := s.world.history, s.jobs[u].fought.winner;
    assert (h + [w])[..|h + [w]| - 1] == h;
    PlaySnoc(h, w);
  }

  /** In a resolved round both players are still, or again, worth 5 gold per result and 5 to begin with. */
  ghost predicate Worthy(w: World) {
    w.rt.phase == Resolved ==> FairHalf(w.rt.p1, |w.history| + 1) && FairHalf(w.rt.p2, |w.history| + 1)
  }

  lemma HalvesStay(w: World, me: int, t: Job, winner: Winner)
    requires !t.Settle? && Proceed(w, me, t, winner, false).world.rt.phase == Resolved
    ensures
      var v := Proceed(w, me, t, winner, false).world;
      && v.rt.p1 == w.rt.p1 && v.rt.p2 == w.rt.p2 && v.history == w.history
      && (w.rt.phase == Battle || w.rt.phase == Resolved)
  {
  }

  lemma RestIsWorthy(s: State)
    requires AtRest(s)
    ensures Worthy(s.world)
    ensures s.world.rt.phase == Battle ==>
      FairHalf(s.world.rt.p1, |s.world.history| + 1) && FairHalf(s.world.rt.p2, |s.world.history| + 1)
  {
  }

  lemma StaysWorthy(s: State, me: int, a: Action)
    requires SplitInv(s) && Worthy(s.world) && SplitInv(Next(s, me, a, false))
    requires !(a.Continue? && JobOf(s, me).Settle?)
    ensures Worthy(Next(s, me, a, false).world)
  {
    if a.Continue? && Next(s, me, a, false).world.rt.phase == Resolved {
      HalvesStay(s.world, me, JobOf(s, me), a.winner);
      if s.world.rt.phase == Battle {
        BattleAtRest(s);
        RestIsWorthy(s);
      }
    }
  }

  lemma WrittenIsWorthy(s: State, u: int, me: int, winner: Winner)
    requires Settling(s, u) && JobOf(s, me).Settle?
    ensures Worthy(Next(s, me, Continue(winner), false).world)
  {
    OneWrites(s, u);
    assert Writing(JobOf(s, me));
    assert Next(s, me, Continue(winner), false) == Behind(s, u);
    RestIsWorthy(Behind(s, u));
  }

  lemma {:induction false} RunIsWorthy(moves: seq<Move>)
    requires RaceFree(moves)
    ensures Worthy(Run(moves, false).world)
    decreases |moves|
  {
    if moves != [] {
      var n := |moves| - 1;
      RaceFreePrefix(moves, n);
      RunIsWorthy(moves[..n]);
      RaceFreeKeeps(moves[..n]);
      RaceFreeKeeps(moves);
      NextIsWorthy(Run(moves[..n], false), moves[n].me, moves[n].action);
    }
  }

  lemma NextIsWorthy(s: State, me: int, a: Action)
    requires SplitInv(s) && Worthy(s.world) && SplitInv(Next(s, me, a, false))
    ensures Worthy(Next(s, me, a, false).world)
  {
    if a.Continue? && JobOf(s, me).Settle? {
      if AtRest(s) {
        NobodyWrites(s);
      }
      var u :| Settling(s, u);
      WrittenIsWorthy(s, u, me, a.winner);
    } else {
      StaysWorthy(s, me, a);
    }
  }

  // ---- the next round is fought first ----

  lemma AdvanceSteps(s: State, me: int, winner: Winner)
    requires Overtakes(s, me, Continue(winner))
    ensures
      var a := Next(s, me, Continue(winner), false);
      var c := Next(a, me, Continue(None), false);
      && JobOf(a, me) == ClearRound && Ready(c.world.rt) && c.world.history == s.world.history
      && c.world.rt.p1 == s.world.rt.p1 && c.world.rt.p2 == s.world.rt.p2
      && OnlyMoved(s, c, me) && JobOf(c, me) == Idle
  {
  }

  /** The advance, and the clean-up that follows it: the next round is ready to be fought. */
  lemma Advance(moves: seq<Move>, me: int, winner: Winner, judge: Judge) returns (all: seq<Move>)
    requires Overtakes(Run(moves, false), me, Continue(winner))
    ensures moves + [Move(me, Continue(winner))] <= all && PlainFrom(all, |moves| + 1, judge)
    ensures
      var s, c := Run(moves, false), Run(all, false);
      && Ready(c.world.rt) && c.world.history == s.world.history
      && c.world.rt.p1 == s.world.rt.p1 && c.world.rt.p2 == s.world.rt.p2
      && OnlyMoved(s, c, me) && JobOf(c, me) == Idle
  {
    var one := moves + [Move(me, Continue(winner))];
    RunSnoc(moves, me, Continue(winner));
    AdvanceSteps(Run(moves, false), me, winner);
    all := Then(one, |one|, me, Continue(None), judge);
  }

  predicate Worth5(p: Economy.Player) {
    |p.board| == 9 && |p.bench| == 8 && EconomyLaws.Wealth(p) >= 5
  }

  /** Both players have nothing on their boards, or player 1 has one unit there. */
  ghost predicate Prepared(rt: Record, late: Winner) {
    Vacant(rt.p2.roster) && if late.None? then HoldsOne(rt.p1.roster) else Vacant(rt.p1.roster)
  }

  /** The same state but for the two rosters, with worker y at rest. */
  ghost predicate Rearmed(base: State, s: State, y: int) {
    && s.world.rt == base.world.rt.(p1 := s.world.rt.p1, p2 := s.world.rt.p2) && s.world.history == base.world.history
    && OnlyMoved(base, s, y) && JobOf(s, y) == Idle
  }

  lemma TradedRearms(base: State, a: State, b: State, y: int, side: Side, p: Economy.Player)
    requires Rearmed(base, a, y) && Traded(a, b, y, side, p)
    ensures Rearmed(base, b, y) && RosterOf(b.world.rt, side) == p
    ensures RosterOf(b.world.rt, side.Other()) == RosterOf(a.world.rt, side.Other())
  {
  }

  /** The players sell out and, if the late result is a tie, player 1 fields one unit. */
  lemma Prepare(all: seq<Move>, i: nat, y: int, late: Winner, shop: Economy.Shop, judge: Judge)
    returns (more: seq<Move>)
    requires PlainFrom(all, i, judge) && i <= |all| && Stocked(shop)
    requires Run(all, false).world.rt.phase == ShopPlace && JobOf(Run(all, false), y) == Idle
    requires Worth5(Run(all, false).world.rt.p1.roster) && Worth5(Run(all, false).world.rt.p2.roster)
    ensures all <= more && PlainFrom(more, i, judge)
    ensures Rearmed(Run(all, false), Run(more, false), y) && Prepared(Run(more, false).world.rt, late)
  {
    var base := Run(all, false);
    var m1, p1 := SellOut(all, i, y, P1, shop, judge);
    TradedRearms(base, base, Run(m1, false), y, P1, p1);
    var m2, p2 := SellOut(m1, i, y, P2, shop, judge);
    TradedRearms(base, Run(m1, false), Run(m2, false), y, P2, p2);
    more := m2;
    if late.None? {
      var q: Economy.Player;
      more, q := FieldOne(m2, i, y, P1, shop, judge);
      TradedRearms(base, Run(m2, false), Run(more, false), y, P1, q);
    }
  }

  lemma CombatIsMarked(base: State, s: State, y: int, winner: Winner)
    requires Fighting(base, s, y, 7, winner)
    ensures Marked(s.world, Fought(base.world.rt.round, base.world.rt.p1, base.world.rt.p2, winner))
    ensures !Writing(JobOf(s, y))
  {
  }

  /** What is left once worker y + 1 has written the round that y fought, and u its own. */
  lemma BothWritten(s: State, f: State, c: State, d: State, e: State, y: int, u: int, fought: Fought)
    requires u < y && (forall k :: k >= y ==> JobOf(s, k) == Idle) && JobOf(s, u).Settle?
    requires OnlyMoved(s, f, y) && !Writing(JobOf(f, y)) && f.world.history == s.world.history
    requires OnlyMoved(f, c, y + 1) && c.world.history == f.world.history
    requires JobOf(c, y + 1).Settle? && JobOf(c, y + 1).fought == fought
    requires JobOf(d, y + 1) == Idle && OnlyMoved(c, d, y + 1) && d.world == Completed(c.world, JobOf(c, y + 1))
    requires JobOf(e, u) == Idle && OnlyMoved(d, e, u) && e.world == Completed(d.world, JobOf(d, u))
    ensures e.world.history == s.world.history + [fought.winner] + [JobOf(s, u).fought.winner]
    ensures ScoreOf(e.world.rt) == ResolveRound(ScoreOf(JobOf(s, u).seen), JobOf(s, u).fought.winner)
    ensures forall k :: Writing(JobOf(e, k)) ==> k < y && k != u && Writing(JobOf(s, k))
  {
    assert JobOf(d, u) == JobOf(s, u);
  }

  /** The next round is fought, resolved and written before the pending write is done. */
  lemma NextRoundFirst(all: seq<Move>, i: nat, y: int, u: int, winner: Winner, judge: Judge) returns (more: seq<Move>)
    requires JudgeSays(Run(all, false), winner, judge)
    requires PlainFrom(all, i, judge) && i <= |all| && Ready(Run(all, false).world.rt) && u < y
    requires forall k :: k >= y ==> JobOf(Run(all, false), k) == Idle
    requires JobOf(Run(all, false), u).Settle?
    ensures all <= more && PlainFrom(more, i, judge)
    ensures
      var s, c := Run(all, false), Run(more, false);
      && c.world.history == s.world.history + [winner] + [JobOf(s, u).fought.winner]
      && ScoreOf(c.world.rt) == ResolveRound(ScoreOf(JobOf(s, u).seen), JobOf(s, u).fought.winner)
      && forall k :: Writing(JobOf(c, k)) ==> k < y && k != u && Writing(JobOf(s, k))
  {
    var s := Run(all, false);
    var fought := Fought(s.world.rt.round, s.world.rt.p1, s.world.rt.p2, winner);
    var m1 := Fight(all, i, y, winner, judge);
    CombatIsMarked(s, Run(m1, false), y, winner);
    var m2 := FlipRound(m1, i, y + 1, fought, judge);
    var m3 := Write(m2, i, y + 1, judge);
    more := Write(m3, i, u, judge);
    BothWritten(s, Run(m1, false), Run(m2, false), Run(m3, false), Run(more, false), y, u, fought);
  }

  lemma NoLongerLawful(s: State, h: seq<Winner>, winner: Winner)
    requires forall k :: !Writing(JobOf(s, k))
    requires VerdictOf(Play(h)) == Ongoing && s.world.history == h + [OtherResult(winner)] + [winner]
    requires ScoreOf(s.world.rt) == ResolveRound(Play(h), winner)
    ensures !LawfulSoon(s)
  {
    WrongOrder(h, winner);
    forall u <- s.jobs ensures !Writing(s.jobs[u]) {
      assert s.jobs[u] == JobOf(s, u);
    }
  }

  /**
   * Whatever is written late, lethal or not: once an advance has overtaken it, the match can
   * go on, with no further overtaking and with the result that the engine gives the next
   * round, to a score that its results do not have.
   */
  lemma OvertakingLoses(moves: seq<Move>, me: int, winner: Winner, shop: Economy.Shop, judge: Judge)
    returns (all: seq<Move>)
    requires RaceFree(moves) && Overtakes(Run(moves, false), me, Continue(winner))
    requires Stocked(shop) && Decides(judge)
    ensures moves + [Move(me, Continue(winner))] <= all && PlainFrom(all, |moves| + 1, judge)
    ensures !LawfulSoon(Run(all, false))
  {
    RaceFreeKeeps(moves);
    RunIsWorthy(moves);
    var s := Run(moves, false);
    var u := PendingWrite(s, me, Continue(winner));
    var late := s.jobs[u].fought.winner;
    var y := FreshWorker(s.jobs.Keys);
    var ready := Advance(moves, me, winner, judge);
    var armed := Prepare(ready, |moves| + 1, y, late, shop, judge);
    all := NextRoundFirst(armed, |moves| + 1, y, u, OtherResult(late), judge);
    forall k ensures !Writing(JobOf(Run(all, false), k)) {
      assert k in s.jobs ==> (Writing(s.jobs[k]) <==> k == u);
    }
    NoLongerLawful(Run(all, false), s.world.history, late);
  }

  // ---- the exact condition ----

  /** From the end of this run on, every judged run that overtakes nothing more is lawful. */
  ghost predicate LawfulFromHere(moves: seq<Move>, judge: Judge) {
    forall all | moves <= all && PlainFrom(all, |moves|, judge) :: LawfulSoon(Run(all, false))
  }

  lemma Extends(moves: seq<Move>, all: seq<Move>, judge: Judge)
    requires RaceFree(moves) && moves <= all && PlainFrom(all, |moves|, judge)
    ensures RaceFree(all)
  {
    assert all[..|moves|] == moves;
    forall k ensures !OvertakesAt(all, k) {
      if k < |moves| {
        OvertakesEarlier(all, |moves|, k);
      }
    }
  }

  lemma RaceFreeIsLawful(moves: seq<Move>, judge: Judge)
    requires RaceFree(moves)
    ensures LawfulFromHere(moves, judge)
  {
    forall all | moves <= all && PlainFrom(all, |moves|, judge) ensures LawfulSoon(Run(all, false)) {
      Extends(moves, all, judge);
      ScoreIsHistory(all, false);
    }
  }

  /** One more move of a run without a race keeps it lawful if and only if it overtakes nothing. */
  lemma LawfulStepIff(moves: seq<Move>, me: int, a: Action, shop: Economy.Shop, judge: Judge)
    requires RaceFree(moves) && Stocked(shop) && Decides(judge)
    ensures LawfulFromHere(moves + [Move(me, a)], judge) <==> !Overtakes(Run(moves, false), me, a)
  {
    var one := moves + [Move(me, a)];
    if Overtakes(Run(moves, false), me, a) {
      var all := OvertakingLoses(moves, me, a.winner, shop, judge);
      assert one <= all && PlainFrom(all, |one|, judge);
    } else {
      assert one[..|moves|] == moves;
      forall k ensures !OvertakesAt(one, k) {
        if k < |moves| {
          OvertakesEarlier(one, |moves|, k);
        }
      }
      RaceFreeIsLawful(one, judge);
    }
  }

  /** At every point of the run, every continuation that overtakes nothing is lawful. */
  ghost predicate LawfulThroughout(moves: seq<Move>, judge: Judge) {
    forall i | 0 <= i <= |moves| :: LawfulFromHere(moves[..i], judge)
  }

  /**
   * The exact condition: a run has no race if and only if, at each of its points, the match
   * stays lawful along every continuation that overtakes nothing.
   */
  lemma {:induction false} RaceFreeIff(moves: seq<Move>, shop: Economy.Shop, judge: Judge)
    requires Stocked(shop) && Decides(judge)
    ensures RaceFree(moves) <==> LawfulThroughout(moves, judge)
    decreases |moves|
  {
    if RaceFree(moves) {
      forall i | 0 <= i <= |moves| ensures LawfulFromHere(moves[..i], judge) {
        RaceFreePrefix(moves, i);
        RaceFreeIsLawful(moves[..i], judge);
      }
    } else {
      var k := FirstOvertaking(moves);
      LawfulStepIff(moves[..k], moves[k].me, moves[k].action, shop, judge);
      assert moves[..k] + [Move(moves[k].me, moves[k].action)] == moves[..k + 1];
    }
  }

  /** The move that first overtakes a write. */
  lemma {:induction false} FirstOvertaking(moves: seq<Move>) returns (k: nat)
    requires !RaceFree(moves)
    ensures OvertakesAt(moves, k) && RaceFree(moves[..k])
    decreases |moves|
  {
    k :| OvertakesAt(moves, k);
    if !RaceFree(moves[..k]) {
      var j := FirstOvertaking(moves[..k]);
      assert moves[..k][..j] == moves[..j];
      k := j;
    }
  }

  // ---- written at once ----

  /** The settling write of worker u comes straight after the advance. */
  ghost function WrittenAfter(s: State, me: int, u: int): State {
    Next(Next(s, me, Continue(None), false), u, Continue(None), false)
  }

  lemma AdvanceThenWrite(s: State, me: int, u: int)
    requires Settling(s, u) && Overtakes(s, me, Continue(None))
    ensures
      var w, p := WrittenAfter(s, me, u).world, s.jobs[u];
      && w == Completed(s.world.(rt := s.world.rt.(phase := ShopPlace, round := s.world.rt.round + 1),
                                 flips := s.world.flips + [Flip(Resolved, s.world.rt.round)]), p)
      && Lawful(w) && (w.rt.phase == Finished <==> VerdictOf(Play(w.history)) != Ongoing)
  {
    InvIsLawful(Behind(s, u));
  }

  /**
   * An overtaken write that comes before anything reads what it will change does no harm: the
   * state is lawful again, and the match is over, in a round it had already begun, if and only
   * if the result written is lethal.
   */
  lemma WrittenAtOnce(moves: seq<Move>, me: int, u: int)
    requires RaceFree(moves) && Overtakes(Run(moves, false), me, Continue(None))
    requires u in Run(moves, false).jobs && Run(moves, false).jobs[u].Settle?
    ensures
      var s, w := Run(moves, false), Run(moves + [Move(me, Continue(None))] + [Move(u, Continue(None))], false).world;
      && Lawful(w) && w.history == s.world.history + [s.jobs[u].fought.winner]
      && w.rt.round == s.world.rt.round + 1
      && w.rt.phase == if VerdictOf(Play(w.history)) == Ongoing then ShopPlace else Finished
  {
    RaceFreeKeeps(moves);
    var s := Run(moves, false);
    var v := PendingWrite(s, me, Continue(None));
    assert Writing(s.jobs[u]);
    RunSnoc(moves, me, Continue(None));
    RunSnoc(moves + [Move(me, Continue(None))], u, Continue(None));
    AdvanceThenWrite(s, me, u);
  }

  // ---- one such run ----

  /** The match after a tied first round that was overtaken by an advance and a roster action. */
  predicate StaleRead(start: Record, s: State) {
    var next := start.(phase := ShopPlace, round := 2);
    && s.world.rt == next && s.world.history == []
    && JobOf(s, 2) == Settle(1, start.(phase := Battle, combatRound := Some(1)), Fought(1, start.p1, start.p2, None))
    && JobOf(s, 4) == CommitRoster(P1, next, start.p1.roster)
  }

  lemma StartIsVacant()
    ensures Vacant(Start().world.rt.p1.roster) && Vacant(Start().world.rt.p2.roster)
  {
  }

  lemma TiedRound(start: Record, judge: Judge) returns (moves: seq<Move>)
    requires start == Start().world.rt && Decides(judge)
    ensures AllJudged(moves, judge)
    ensures
      var s := Run(moves, false);
      && s.world.rt == start.(phase := Resolved, combatRound := Some(1)) && s.world.history == []
      && JobOf(s, 2) == Settle(1, start.(phase := Battle, combatRound := Some(1)), Fought(1, start.p1, start.p2, None))
      && JobOf(s, 3) == Idle && JobOf(s, 4) == Idle
  {
    var none: seq<Move> := [];
    StartIsVacant();
    var fought := Fight(none, 0, 1, None, judge);
    CombatIsMarked(Run(none, false), Run(fought, false), 1, None);
    moves := FlipRound(fought, 0, 2, Fought(1, start.p1, start.p2, None), judge);
    PlainIsJudged(moves, judge);
  }

  /** The record of round 2, with the write of round 1 still to come. */
  predicate Unwritten(start: Record, s: State) {
    && s.world.rt == start.(phase := ShopPlace, round := 2) && s.world.history == []
    && JobOf(s, 2) == Settle(1, start.(phase := Battle, combatRound := Some(1)), Fought(1, start.p1, start.p2, None))
    && JobOf(s, 4) == Idle
  }

  lemma AdvancesOver(s: State, start: Record)
    requires s.world.rt == start.(phase := Resolved, combatRound := Some(1)) && s.world.history == []
    requires start.phase == ShopPlace && start.round == 1 && start.combatRound == None
    requires
      JobOf(s, 2) == Settle(1, start.(phase := Battle, combatRound := Some(1)), Fought(1, start.p1, start.p2, None))
    requires JobOf(s, 3) == Idle && JobOf(s, 4) == Idle
    ensures
      var a := Next(s, 3, AdvanceResolved(1), false);
      var b := Next(a, 3, Continue(None), false);
      && JobOf(a, 3) == AdvanceFlip(1) && JobOf(b, 3) == ClearRound
      && Unwritten(start, Next(b, 3, Continue(None), false))
  {
  }

  lemma ReadsOld(s: State, start: Record)
    requires Unwritten(start, s)
    ensures StaleRead(start, Next(s, 4, Refresh(), false))
  {
  }

  function Refresh(): Action {
    RosterAction(P1, EconomyLaws.RefreshMove, Economy.Shop(0, false, []), [])
  }

  lemma AdvancedOver(start: Record, judge: Judge) returns (moves: seq<Move>)
    requires start == Start().world.rt && Decides(judge)
    ensures AllJudged(moves, judge) && Unwritten(start, Run(moves, false))
  {
    moves := TiedRound(start, judge);
    AdvancesOver(Run(moves, false), start);
    moves := Also(moves, 3, AdvanceResolved(1), judge);
    moves := Also(moves, 3, Continue(None), judge);
    moves := Also(moves, 3, Continue(None), judge);
  }

  lemma Overtaken(start: Record, judge: Judge) returns (moves: seq<Move>)
    requires start == Start().world.rt && Decides(judge)
    ensures AllJudged(moves, judge) && StaleRead(start, Run(moves, false))
  {
    moves := AdvancedOver(start, judge);
    ReadsOld(Run(moves, false), start);
    moves := Also(moves, 4, Refresh(), judge);
  }

  lemma LateWrite(s: State, start: Record)
    requires StaleRead(start, s) && start == Start().world.rt
    ensures
      var w := Next(Next(s, 2, Continue(None), false), 4, Continue(None), false).world;
      && w.rt.phase == ShopPlace && w.rt.round == 2 && w.history == [None]
      && w.rt.p1 == start.p1 && w.rt.p2 == Half(95, start.p2.roster.(gold := 10))
  {
  }

  lemma TieLeaves95()
    ensures Play([None]).hp1 == 95
  {
    var rounds: seq<Winner> := [None];
    assert rounds[..0] == [];
  }

  /**
   * With two commands a match can lose damage and pay for good: the action that read the old
   * state of player 1 commits it after the late write. In round 2 that player has 100 hit
   * points and 5 gold, instead of 95 and 10.
   */
  lemma SplitWriteLosesDamage(judge: Judge) returns (moves: seq<Move>)
    requires Decides(judge)
    ensures AllJudged(moves, judge)
    ensures
      var w := Run(moves, false).world;
      && w.rt.phase == ShopPlace && w.rt.round == 2 && w.history == [None]
      && Play(w.history).hp1 == 95 && w.rt.p1.hp == 100 && w.rt.p2.hp == 95
      && EconomyLaws.Wealth(w.rt.p1.roster) == 5 && EconomyLaws.Wealth(w.rt.p2.roster) == 10
  {
    var start := Start().world.rt;
    moves := Overtaken(start, judge);
    LateWrite(Run(moves, false), start);
    moves := Also(moves, 2, Continue(None), judge);
    moves := Also(moves, 4, Continue(None), judge);
    EmptyWealth(start.p1.roster, 9, 8);
    EmptyWealth(start.p2.roster.(gold := 10), 9, 8);
    TieLeaves95();
  }
}
