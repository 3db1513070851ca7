/**
 * Runs of the round protocol put together move by move: a combat, a resolution, and what the
 * players do with their rosters in between. Battles have the results that a judge gives them,
 * such as the engine with the coins of a match.
 */
module RoundPlays {
  import opened GameTypes
  import opened MatchPhase
  import opened MatchRules
  import opened RoundProtocol
  import opened RoundSafety
  import opened RoundRace
  import opened RoundBattle
  import Economy
  import EconomyLaws

  // ---- extending a run ----

  /** The battle of a combat job yields what the judge says of the two rosters that it read. */
  ghost predicate Judged(s: State, me: int, a: Action, judge: Judge) {
    var t := JobOf(s, me);
    a.Continue? && t.ClearResult? ==> a.winner == judge(t.base.p1.roster, t.base.p2.roster, t.round)
  }

  ghost predicate JudgedAt(moves: seq<Move>, k: int, judge: Judge) {
    0 <= k < |moves| ==> Judged(Run(moves[..k], false), moves[k].me, moves[k].action, judge)
  }

  lemma JudgedEarlier(moves: seq<Move>, i: nat, k: int, judge: Judge)
    requires i <= |moves| && k < i
    ensures JudgedAt(moves[..i], k, judge) <==> JudgedAt(moves, k, judge)
  {
    if 0 <= k {
      assert moves[..i][..k] == moves[..k];
    }
  }

  /** From the given move on every battle is judged, and no move overtakes a pending write. */
  ghost predicate PlainFrom(moves: seq<Move>, i: nat, judge: Judge) {
    forall k | i <= k :: !OvertakesAt(moves, k) && JudgedAt(moves, k, judge)
  }

  lemma RunSnoc(moves: seq<Move>, me: int, a: Action)
    ensures Run(moves + [Move(me, a)], false) == Next(Run(moves, false), me, a, false)
  {
    assert (moves + [Move(me, a)])[..|moves|] == moves;
  }

  /** One more move, that overtakes nothing. */
  lemma Then(all: seq<Move>, i: nat, me: int, a: Action, judge: Judge) returns (more: seq<Move>)
    requires PlainFrom(all, i, judge) && i <= |all|
    requires !Overtakes(Run(all, false), me, a) && Judged(Run(all, false), me, a, judge)
    ensures all <= more && PlainFrom(more, i, judge) && Run(more, false) == Next(Run(all, false), me, a, false)
  {
    more := all + [Move(me, a)];
    RunSnoc(all, me, a);
    assert more[..|all|] == all;
    forall k | i <= k ensures !OvertakesAt(more, k) && JudgedAt(more, k, judge) {
      if k < |all| {
        OvertakesEarlier(more, |all|, k);
        JudgedEarlier(more, |all|, k, judge);
      }
    }
  }

  /** Every battle of the run is judged. */
  ghost predicate AllJudged(moves: seq<Move>, judge: Judge) {
    forall k :: JudgedAt(moves, k, judge)
  }

  /** One more move, whatever it overtakes. */
  lemma Also(all: seq<Move>, me: int, a: Action, judge: Judge) returns (more: seq<Move>)
    requires AllJudged(all, judge) && Judged(Run(all, false), me, a, judge)
    ensures more == all + [Move(me, a)] && AllJudged(more, judge)
    ensures Run(more, false) == Next(Run(all, false), me, a, false)
  {
    more := all + [Move(me, a)];
    RunSnoc(all, me, a);
    assert more[..|all|] == all;
    forall k ensures JudgedAt(more, k, judge) {
      if k < |all| {
        JudgedEarlier(more, |all|, k, judge);
      }
    }
  }

  lemma PlainIsJudged(moves: seq<Move>, judge: Judge)
    requires PlainFrom(moves, 0, judge)
    ensures AllJudged(moves, judge)
  {
    forall k ensures JudgedAt(moves, k, judge) {
    }
  }

  /** Only worker y has done anything. */
  ghost predicate OnlyMoved(base: State, s: State, y: int) {
    forall k :: k != y ==> JobOf(s, k) == JobOf(base, k)
  }

  // ---- one whole combat of one worker ----

  /** The worker after i commands of the combat of a round that began on a record. */
  function CombatJob(i: nat, start: Record, winner: Winner): Job {
    var round, fought := start.round, Fought(start.round, start.p1, start.p2, winner);
    if i == 0 then StartFlip(round, start)
    else if i == 1 then TakeLock(round, start)
    else if i == 2 then CheckCombat(round, start)
    else if i == 3 then ClearResult(round, start, start.(phase := Battle))
    else if i == 4 then RecheckCombat(round, start, fought)
    else if i == 5 then WriteResult(round, start, fought)
    else if i == 6 then MarkCombat(round, start, fought)
    else ReleaseLock(round, start, true)
  }

  ghost predicate Fighting(base: State, s: State, y: int, i: nat, winner: Winner) {
    var start := base.world.rt;
    && JobOf(s, y) == CombatJob(i, start, winner) && OnlyMoved(base, s, y)
    && s.world.rt == (
      if i == 0 then start
      else if i < 7 then start.(phase := Battle)
      else start.(phase := Battle, combatRound := Some(start.round)))
    && s.world.history == base.world.history && (i <= 1 ==> s.world.lock == None)
    && (i >= 6 ==> s.world.result == Some(Fought(start.round, start.p1, start.p2, winner)))
  }

  ghost predicate JudgeSays(s: State, winner: Winner, judge: Judge) {
    winner == judge(s.world.rt.p1.roster, s.world.rt.p2.roster, s.world.rt.round)
  }

  /** A record on which the combat of its round can be run. */
  predicate Ready(r: Record) {
    r.phase == ShopPlace && r.combatRound != Some(r.round)
  }

  lemma FightsOn(base: State, s: State, y: int, i: nat, winner: Winner)
    requires Ready(base.world.rt) && i < 7 && Fighting(base, s, y, i, winner)
    ensures Fighting(base, Next(s, y, Continue(winner), false), y, i + 1, winner)
  {
  }

  lemma FightStarts(s: State, y: int, winner: Winner)
    requires Ready(s.world.rt) && JobOf(s, y) == Idle
    ensures
      var unlocked := Next(s, y, LockExpires, false);
      JobOf(unlocked, y) == Idle
      && Fighting(s, Next(unlocked, y, TryStartCombat(s.world.rt.round), false), y, 0, winner)
  {
  }

  /** The launch: an expired lock, and the first read. */
  lemma Launch(all: seq<Move>, i: nat, y: int, winner: Winner, judge: Judge) returns (more: seq<Move>)
    requires PlainFrom(all, i, judge) && i <= |all|
    requires Ready(Run(all, false).world.rt) && JobOf(Run(all, false), y) == Idle
    ensures all <= more && PlainFrom(more, i, judge) && Fighting(Run(all, false), Run(more, false), y, 0, winner)
  {
    var base := Run(all, false);
    FightStarts(base, y, winner);
    var unlocked := Then(all, i, y, LockExpires, judge);
    more := Then(unlocked, i, y, TryStartCombat(base.world.rt.round), judge);
  }

  lemma OneCommand(all: seq<Move>, i: nat, base: State, y: int, j: nat, winner: Winner, judge: Judge)
    returns (more: seq<Move>)
    requires PlainFrom(all, i, judge) && i <= |all| && Ready(base.world.rt) && j < 7
    requires Fighting(base, Run(all, false), y, j, winner) && JudgeSays(base, winner, judge)
    ensures all <= more && PlainFrom(more, i, judge) && Fighting(base, Run(more, false), y, j + 1, winner)
  {
    FightsOn(base, Run(all, false), y, j, winner);
    more := Then(all, i, y, Continue(winner), judge);
  }

  /** Worker y launches the combat of the round and marks it, with the winner that the judge says. */
  lemma Fight(all: seq<Move>, i: nat, y: int, winner: Winner, judge: Judge) returns (more: seq<Move>)
    requires PlainFrom(all, i, judge) && i <= |all|
    requires Ready(Run(all, false).world.rt) && JobOf(Run(all, false), y) == Idle
    requires JudgeSays(Run(all, false), winner, judge)
    ensures all <= more && PlainFrom(more, i, judge) && Fighting(Run(all, false), Run(more, false), y, 7, winner)
  {
    more := Launch(all, i, y, winner, judge);
    for j := 0 to 7
      invariant all <= more && PlainFrom(more, i, judge) && Fighting(Run(all, false), Run(more, false), y, j, winner)
    {
      more := OneCommand(more, i, Run(all, false), y, j, winner, judge);
    }
  }

  // ---- resolving and writing ----

  predicate Marked(w: World, fought: Fought) {
    && w.rt.phase == Battle && w.rt.combatRound == Some(w.rt.round)
    && w.result == Some(fought)
  }

  lemma FlipsOn(s: State, z: int, fought: Fought)
    requires Marked(s.world, fought) && JobOf(s, z) == Idle
    ensures
      var round := s.world.rt.round;
      var a := Next(s, z, ApplyDamage(round), false);
      var b := Next(a, z, Continue(None), false);
      var c := Next(b, z, Continue(None), false);
      && JobOf(a, z).ReadResult? && JobOf(b, z).ResolveFlip?
      && JobOf(c, z) == Settle(round, s.world.rt, fought) && OnlyMoved(s, c, z)
      && c.world.rt == s.world.rt.(phase := Resolved) && c.world.history == s.world.history
  {
  }

  /** Worker z flips the round to resolved, with the write still to come. */
  lemma FlipRound(all: seq<Move>, i: nat, z: int, fought: Fought, judge: Judge) returns (more: seq<Move>)
    requires PlainFrom(all, i, judge) && i <= |all| && Marked(Run(all, false).world, fought)
    requires JobOf(Run(all, false), z) == Idle
    ensures all <= more && PlainFrom(more, i, judge)
    ensures
      var s, c := Run(all, false), Run(more, false);
      && JobOf(c, z) == Settle(s.world.rt.round, s.world.rt, fought) && OnlyMoved(s, c, z)
      && c.world.rt == s.world.rt.(phase := Resolved) && c.world.history == s.world.history
  {
    var s := Run(all, false);
    FlipsOn(s, z, fought);
    more := Then(all, i, z, ApplyDamage(s.world.rt.round), judge);
    more := Then(more, i, z, Continue(None), judge);
    more := Then(more, i, z, Continue(None), judge);
  }

  /** A pending write is done. */
  lemma Write(all: seq<Move>, i: nat, u: int, judge: Judge) returns (more: seq<Move>)
    requires PlainFrom(all, i, judge) && i <= |all| && JobOf(Run(all, false), u).Settle?
    ensures all <= more && PlainFrom(more, i, judge)
    ensures
      var s, c := Run(all, false), Run(more, false);
      JobOf(c, u) == Idle && OnlyMoved(s, c, u) && c.world == Completed(s.world, JobOf(s, u))
  {
    more := Then(all, i, u, Continue(None), judge);
  }

  // ---- trading ----

  function RosterOf(rt: Record, side: Side): Economy.Player {
    if side.P1? then rt.p1.roster else rt.p2.roster
  }

  function WithRoster(rt: Record, side: Side, p: Economy.Player): Record {
    if side.P1? then rt.(p1 := rt.p1.(roster := p)) else rt.(p2 := rt.p2.(roster := p))
  }

  /** Worker y has brought the roster of a side to p, and is done. */
  ghost predicate Traded(base: State, s: State, y: int, side: Side, p: Economy.Player) {
    && s.world == base.world.(rt := WithRoster(base.world.rt, side, p))
    && OnlyMoved(base, s, y) && JobOf(s, y) == Idle
  }

  lemma TradedTwice(a: State, b: State, c: State, y: int, side: Side, p: Economy.Player, q: Economy.Player)
    requires Traded(a, b, y, side, p) && Traded(b, c, y, side, q)
    ensures Traded(a, c, y, side, q)
  {
  }

  function NoDeal(): nat -> seq<Option<Economy.Offer>> {
    (count: nat) => []
  }

  lemma ActionRead(s: State, y: int, side: Side, move: EconomyLaws.Move, shop: Economy.Shop)
    requires s.world.rt.phase == ShopPlace && JobOf(s, y) == Idle && !move.RefreshMove?
    requires EconomyLaws.FreshId(RosterOf(s.world.rt, side), move)
    requires EconomyLaws.Apply(Economy.Hand(RosterOf(s.world.rt, side), shop), move, NoDeal()).Ok?
    ensures
      var next := EconomyLaws.Apply(Economy.Hand(RosterOf(s.world.rt, side), shop), move, NoDeal()).value.player;
      Next(s, y, RosterAction(side, move, shop, []), false)
      == State(s.world, s.jobs[y := CommitRoster(side, s.world.rt, next)])
  {
  }

  lemma ActionCommitted(s: State, a: State, y: int, side: Side, next: Economy.Player)
    requires s.world.rt.phase == ShopPlace && a == State(s.world, s.jobs[y := CommitRoster(side, s.world.rt, next)])
    ensures Traded(s, Next(a, y, Continue(None), false), y, side, next)
  {
  }

  /** One accepted action of a player. */
  lemma OneAction(
    all: seq<Move>, i: nat, y: int, side: Side, move: EconomyLaws.Move, shop: Economy.Shop, judge: Judge)
    returns (more: seq<Move>)
    requires PlainFrom(all, i, judge) && i <= |all|
    requires Run(all, false).world.rt.phase == ShopPlace && JobOf(Run(all, false), y) == Idle && !move.RefreshMove?
    requires EconomyLaws.FreshId(RosterOf(Run(all, false).world.rt, side), move)
    requires EconomyLaws.Apply(Economy.Hand(RosterOf(Run(all, false).world.rt, side), shop), move, NoDeal()).Ok?
    ensures all <= more && PlainFrom(more, i, judge)
    ensures
      var s := Run(all, false);
      Traded(s, Run(more, false), y, side,
        EconomyLaws.Apply(Economy.Hand(RosterOf(s.world.rt, side), shop), move, NoDeal()).value.player)
  {
    var s := Run(all, false);
    var next := EconomyLaws.Apply(Economy.Hand(RosterOf(s.world.rt, side), shop), move, NoDeal()).value.player;
    ActionRead(s, y, side, move, shop);
    var read := Then(all, i, y, RosterAction(side, move, shop, []), judge);
    ActionCommitted(s, Run(read, false), y, side, next);
    more := Then(read, i, y, Continue(None), judge);
  }

  // ---- selling out ----

  /** The roster q is p with some of its units sold. */
  predicate SoldFrom(p: Economy.Player, q: Economy.Player) {
    && |q.board| == |p.board| && |q.bench| == |p.bench|
    && EconomyLaws.Wealth(q) == EconomyLaws.Wealth(p) && q.gold >= p.gold
  }

  lemma SaleKeeps(p: Economy.Player, spot: Economy.Spot, shop: Economy.Shop)
    requires p.Has(spot) && p.At(spot).Some?
    ensures
      var r := EconomyLaws.Apply(Economy.Hand(p, shop), EconomyLaws.SellMove(spot), NoDeal());
      && r.Ok? && SoldFrom(p, r.value.player)
      && forall other :: p.Has(other) ==> r.value.player.At(other) == if other == spot then None else p.At(other)
  {
    EconomyLaws.PutWealth(p, spot, None);
  }

  /** The unit on a spot is sold, if there is one. */
  lemma SellSpot(all: seq<Move>, i: nat, y: int, side: Side, spot: Economy.Spot, shop: Economy.Shop, judge: Judge)
    returns (more: seq<Move>, q: Economy.Player)
    requires PlainFrom(all, i, judge) && i <= |all|
    requires Run(all, false).world.rt.phase == ShopPlace && JobOf(Run(all, false), y) == Idle
    requires RosterOf(Run(all, false).world.rt, side).Has(spot)
    ensures all <= more && PlainFrom(more, i, judge) && Traded(Run(all, false), Run(more, false), y, side, q)
    ensures
      var p := RosterOf(Run(all, false).world.rt, side);
      && SoldFrom(p, q)
      && forall other :: p.Has(other) ==> q.At(other) == if other == spot then None else p.At(other)
  {
    var p := RosterOf(Run(all, false).world.rt, side);
    if p.At(spot).None? {
      more, q := all, p;
    } else {
      SaleKeeps(p, spot, shop);
      more := OneAction(all, i, y, side, EconomyLaws.SellMove(spot), shop, judge);
      q := EconomyLaws.Apply(Economy.Hand(p, shop), EconomyLaws.SellMove(spot), NoDeal()).value.player;
    }
  }

  predicate VacantUpTo(p: Economy.Player, source: Economy.Source, n: int) {
    n <= |p.Row(source)| && forall k | 0 <= k < n :: p.Row(source)[k].None?
  }

  lemma OneSpotMore(p: Economy.Player, q: Economy.Player, source: Economy.Source, n: nat, spot: Economy.Spot)
    requires VacantUpTo(p, source, n) && spot == Economy.Spot(source, n) && p.Has(spot) && SoldFrom(p, q)
    requires forall other :: p.Has(other) ==> q.At(other) == if other == spot then None else p.At(other)
    ensures VacantUpTo(q, source, n + 1)
    ensures forall m, other | VacantUpTo(p, other, m) :: VacantUpTo(q, other, m)
  {
    forall m, other | VacantUpTo(p, other, m) ensures VacantUpTo(q, other, m) {
      forall k | 0 <= k < m ensures q.Row(other)[k].None? {
        assert p.Has(Economy.Spot(other, k));
      }
    }
    forall k | 0 <= k < n + 1 ensures q.Row(source)[k].None? {
      assert p.Has(Economy.Spot(source, k));
    }
  }

  /** A player sells everything in a row of the roster. */
  lemma SellRow(all: seq<Move>, i: nat, y: int, side: Side, source: Economy.Source, shop: Economy.Shop, judge: Judge)
    returns (more: seq<Move>, q: Economy.Player)
    requires PlainFrom(all, i, judge) && i <= |all|
    requires Run(all, false).world.rt.phase == ShopPlace && JobOf(Run(all, false), y) == Idle
    ensures all <= more && PlainFrom(more, i, judge) && Traded(Run(all, false), Run(more, false), y, side, q)
    ensures
      var p := RosterOf(Run(all, false).world.rt, side);
      && SoldFrom(p, q) && VacantUpTo(q, source, |q.Row(source)|)
      && forall m, other | VacantUpTo(p, other, m) :: VacantUpTo(q, other, m)
  {
    var p := RosterOf(Run(all, false).world.rt, side);
    more, q := all, p;
    for n := 0 to |p.Row(source)|
      invariant all <= more && PlainFrom(more, i, judge) && Traded(Run(all, false), Run(more, false), y, side, q)
      invariant SoldFrom(p, q) && VacantUpTo(q, source, n)
      invariant forall m, other | VacantUpTo(p, other, m) :: VacantUpTo(q, other, m)
    {
      var before, s := q, Run(more, false);
      more, q := SellSpot(more, i, y, side, Economy.Spot(source, n), shop, judge);
      OneSpotMore(before, q, source, n, Economy.Spot(source, n));
      TradedTwice(Run(all, false), s, Run(more, false), y, side, before, q);
    }
  }

  /** Nothing but gold. */
  predicate Bare(p: Economy.Player) {
    Vacant(p) && |p.bench| == 8 && forall k | 0 <= k < 8 :: p.bench[k].None?
  }

  lemma BareIsGold(p: Economy.Player)
    requires Bare(p)
    ensures p.gold == EconomyLaws.Wealth(p)
  {
    assert p.board == EmptySlots(9) && p.bench == EmptySlots(8);
    EmptyWealth(p, 9, 8);
  }

  /** A player sells everything. */
  lemma SellOut(all: seq<Move>, i: nat, y: int, side: Side, shop: Economy.Shop, judge: Judge)
    returns (more: seq<Move>, q: Economy.Player)
    requires PlainFrom(all, i, judge) && i <= |all|
    requires Run(all, false).world.rt.phase == ShopPlace && JobOf(Run(all, false), y) == Idle
    requires
      var p := RosterOf(Run(all, false).world.rt, side);
      |p.board| == 9 && |p.bench| == 8
    ensures all <= more && PlainFrom(more, i, judge) && Traded(Run(all, false), Run(more, false), y, side, q)
    ensures Bare(q) && q.gold == EconomyLaws.Wealth(RosterOf(Run(all, false).world.rt, side))
  {
    var half, p := SellRow(all, i, y, side, Economy.OnBoard, shop, judge);
    more, q := SellRow(half, i, y, side, Economy.OnBench, shop, judge);
    TradedTwice(Run(all, false), Run(half, false), Run(more, false), y, side, p, q);
    assert VacantUpTo(q, Economy.OnBoard, |p.Row(Economy.OnBoard)|);
    BareIsGold(q);
  }

  // ---- buying and placing one unit ----

  predicate Stocked(shop: Economy.Shop) {
    |shop.offers| > 0 && shop.offers[0].Some?
  }

  /** The one unit of a player who has just bought it. */
  predicate OneBought(p: Economy.Player, u: Economy.RosterUnit) {
    && Vacant(p) && |p.bench| == 8 && p.bench[0] == Some(u) && forall k | 1 <= k < 8 :: p.bench[k].None?
  }

  lemma BareSpots(p: Economy.Player)
    requires Bare(p)
    ensures forall q :: p.Has(q) ==> p.At(q).None?
  {
  }

  lemma Purchase(p: Economy.Player, shop: Economy.Shop)
    requires Bare(p) && p.gold >= 2 && Stocked(shop)
    ensures EconomyLaws.FreshId(p, EconomyLaws.BuyMove(0, 0))
    ensures
      var r := EconomyLaws.Apply(Economy.Hand(p, shop), EconomyLaws.BuyMove(0, 0), NoDeal());
      r.Ok? && OneBought(r.value.player, Economy.NewUnit(shop.offers[0].value.unitId, 0))
  {
    assert Economy.FirstFree(p.bench) == Some(0);
    BareSpots(p);
  }

  lemma Placement(p: Economy.Player, u: Economy.RosterUnit, shop: Economy.Shop)
    requires OneBought(p, u) && (exists unitId, id :: u == Economy.NewUnit(unitId, id))
    ensures
      var r := EconomyLaws.Apply(
        Economy.Hand(p, shop), EconomyLaws.PlaceMove(u.id, Economy.Spot(Economy.OnBoard, 0)), NoDeal());
      r.Ok? && HoldsOne(r.value.player)
  {
    var from, dest := Economy.Spot(Economy.OnBench, 0), Economy.Spot(Economy.OnBoard, 0);
    Economy.EntriesListed(p);
    assert Economy.Entry(from, u) in Economy.RosterEntries(p);
    var e := Economy.FindUnit(Economy.RosterEntries(p), u.id);
    assert e == Some(Economy.Entry(from, u));
    var q := p.Put(from, None).Put(dest, Some(u));
    assert q.board[0] == Some(u);
  }

  /** A player without units buys the first offer and places it on the first square. */
  lemma FieldOne(all: seq<Move>, i: nat, y: int, side: Side, shop: Economy.Shop, judge: Judge)
    returns (more: seq<Move>, q: Economy.Player)
    requires PlainFrom(all, i, judge) && i <= |all|
    requires Run(all, false).world.rt.phase == ShopPlace && JobOf(Run(all, false), y) == Idle
    requires Bare(RosterOf(Run(all, false).world.rt, side)) && RosterOf(Run(all, false).world.rt, side).gold >= 2
    requires Stocked(shop)
    ensures all <= more && PlainFrom(more, i, judge) && Traded(Run(all, false), Run(more, false), y, side, q)
    ensures HoldsOne(q)
  {
    var p := RosterOf(Run(all, false).world.rt, side);
    var u := Economy.NewUnit(shop.offers[0].value.unitId, 0);
    Purchase(p, shop);
    var bought := OneAction(all, i, y, side, EconomyLaws.BuyMove(0, 0), shop, judge);
    var p1 := RosterOf(Run(bought, false).world.rt, side);
    var place := EconomyLaws.PlaceMove(u.id, Economy.Spot(Economy.OnBoard, 0));
    Placement(p1, u, shop);
    more := OneAction(bought, i, y, side, place, shop, judge);
    q := RosterOf(Run(more, false).world.rt, side);
    TradedTwice(Run(all, false), Run(bought, false), Run(more, false), y, side, p1, q);
  }
}
