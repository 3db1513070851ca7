/**
 * What one act does, told without the functions that compute it: whom the unit aims at, and
 * the exact list of events that it logs, with their amounts in literals. Module BattleReplay
 * shows that these events make up the board after the act.
 */
module BattleActs {
  import opened GameTypes
  import opened BattleSpec
  import opened BattleTrace
  import opened BattleReplay
  import opened BattleLife
  import opened BattleAmounts
  import opened Targeting
  import BattleSlows

  // ---- whom a unit aims at ----

  ghost predicate Foe(b: Board, a: Pos, p: Pos) {
    p in b && p.side != a.side && b[p].alive
  }

  /** Own lane first, then from the left, then from the front. */
  predicate InLaneBefore(a: Pos, p: Pos, q: Pos) {
    var lane, x, y := a.slot % 3, p.slot % 3, q.slot % 3;
    if (x == lane) != (y == lane) then x == lane
    else x < y || (x == y && p.slot < q.slot)
  }

  /** Fewest hit points, then from the left, then from the front. */
  predicate WeakerBefore(b: Board, p: Pos, q: Pos)
    requires p in b && q in b
  {
    if b[p].hp != b[q].hp then b[p].hp < b[q].hp
    else p.slot % 3 < q.slot % 3 || (p.slot % 3 == q.slot % 3 && p.slot < q.slot)
  }

  ghost predicate Taunts(b: Board, a: Pos, p: Pos) {
    Foe(b, a, p) && b[p].unitId.Tank? && b[p].star == 2
  }

  /** The first listed of the enemy's living 2-star tanks. */
  ghost predicate FirstTaunt(b: Board, layout: seq<Pos>, a: Pos, p: Pos) {
    Taunts(b, a, p) && exists i :: 0 <= i < |layout| && layout[i] == p && forall j | 0 <= j < i :: !Taunts(b, a, layout[j])
  }

  ghost predicate Aims(b: Board, layout: seq<Pos>, a: Pos, t: Option<Pos>)
    requires a in b
  {
    match t
    case None => forall p :: !Foe(b, a, p)
    case Some(p) =>
      && Foe(b, a, p)
      && if b[a].unitId.Ranger? && b[a].star == 2 then forall q :: Foe(b, a, q) && q != p ==> WeakerBefore(b, p, q)
         else if !b[a].unitId.Ranger? && exists q :: q in layout && Taunts(b, a, q) then FirstTaunt(b, layout, a, p)
         else forall q :: Foe(b, a, q) && q != p ==> InLaneBefore(a, p, q)
  }

  lemma {:induction false} FirstTauntFound(b: Board, layout: seq<Pos>, a: Pos)
    ensures
      match FirstTank2(b, layout, a.side.Other())
      case None => forall q <- layout :: !Taunts(b, a, q)
      case Some(p) => p in layout && FirstTaunt(b, layout, a, p)
    decreases |layout|
  {
    if layout != [] {
      var rest := FirstTank2(b, layout[1..], a.side.Other());
      FirstTauntFound(b, layout[1..], a);
      if Taunts(b, a, layout[0]) {
        assert FirstTank2(b, layout, a.side.Other()) == Some(layout[0]);
      } else if rest.Some? {
        var i :| 0 <= i < |layout[1..]| && layout[1..][i] == rest.value
          && forall j | 0 <= j < i :: !Taunts(b, a, layout[1..][j]);
        assert layout[i + 1] == rest.value;
        forall j | 0 <= j < i + 1 ensures !Taunts(b, a, layout[j]) {
          assert j > 0 ==> layout[j] == layout[1..][j - 1];
        }
      }
    }
  }

  lemma LaneAim(b: Board, a: Pos)
    requires Placed(b)
    ensures
      match Leader(b, a.side.Other(), OwnLaneFirst(Col(a.slot)))
      case None => forall p :: !Foe(b, a, p)
      case Some(p) => Foe(b, a, p) && forall q :: Foe(b, a, q) && q != p ==> InLaneBefore(a, p, q)
  {
    var c := OwnLaneFirst(Col(a.slot));
    LeaderIsLeast(b, a.side.Other(), c, 9);
    forall p | Foe(b, a, p) ensures Candidate(b, a.side.Other(), c, p) {
    }
  }

  lemma HpAim(b: Board, a: Pos)
    requires Placed(b)
    ensures
      match Leader(b, a.side.Other(), LowestHp)
      case None => forall p :: !Foe(b, a, p)
      case Some(p) => Foe(b, a, p) && forall q :: Foe(b, a, q) && q != p ==> WeakerBefore(b, p, q)
  {
    LeaderIsLeast(b, a.side.Other(), LowestHp, 9);
    forall p | Foe(b, a, p) ensures Candidate(b, a.side.Other(), LowestHp, p) {
    }
  }

  lemma TargetAims(b: Board, layout: seq<Pos>, a: Pos)
    requires Placed(b) && a in b
    ensures Aims(b, layout, a, Target(b, layout, a))
  {
    LaneAim(b, a);
    HpAim(b, a);
    FirstTauntFound(b, layout, a);
  }

  // ---- what it logs ----

  /** The identity of a unit, field by field. */
  predicate IsWho(w: Who, u: UnitState) {
    w.id == u.id && w.side == u.pos.side && w.slot == u.pos.slot && w.unitId == u.unitId && w.star == u.star
  }

  predicate LogsAttack(e: Event, doer: UnitState, on: UnitState, hpAfter: int) {
    && e.Attack? && IsWho(e.attacker, doer) && IsWho(e.target, on)
    && e.damage == AttackTable(doer.unitId, doer.star) && e.targetHpAfter == hpAfter
  }

  /** A tank with a star rises once from a deadly hit. */
  predicate RisesFrom(u: UnitState, damage: int) {
    u.hp <= damage && u.unitId.Tank? && u.star != 0 && !u.revived
  }

  predicate DiesOf(u: UnitState, damage: int) {
    u.hp <= damage && !RisesFrom(u, damage)
  }

  /**
   * A hit logs the attack, after the death if there is one; a tank that rises logs that alone,
   * with half its maximum.
   */
  predicate LogsHit(doer: UnitState, on: UnitState, es: seq<Event>) {
    var damage := AttackTable(doer.unitId, doer.star);
    if RisesFrom(on, damage) then
      |es| == 1 && es[0].Revive? && IsWho(es[0].unit, on) && 2 * es[0].hpAfter <= on.maxHp < 2 * es[0].hpAfter + 2
    else if DiesOf(on, damage) then
      |es| == 2 && es[0].Death? && IsWho(es[0].unit, on) && LogsAttack(es[1], doer, on, 0)
    else |es| == 1 && LogsAttack(es[0], doer, on, on.hp - damage)
  }

  /** A fighter with a star drains 1 point (3 at two stars), as far as it is missing, on every hit. */
  predicate LogsDrain(u: UnitState, es: seq<Event>) {
    if u.star == 0 then es == []
    else
      var most, missing := if u.star == 1 then 1 else 3, u.maxHp - u.hp;
      && |es| == 1 && es[0].Lifesteal? && IsWho(es[0].unit, u)
      && es[0].amount == (if missing < most then missing else most) && es[0].hpAfter == u.hp + es[0].amount
  }

  /** Whether a unit lives directly behind the target. */
  ghost predicate Backed(b: Board, t: Pos, p: Pos) {
    t.slot + 3 < 9 && p == Pos(t.side, t.slot + 3) && p in b && b[p].alive
  }

  /** The hit of a 1-star ranger takes 1 point from the unit that lives directly behind its target. */
  ghost predicate LogsSpill(b: Board, doer: UnitState, t: Pos, es: seq<Event>) {
    if doer.star != 1 || forall p :: !Backed(b, t, p) then es == []
    else exists p :: Backed(b, t, p) && LogsPierce(doer, b[p], es)
  }

  predicate LogsPierce(doer: UnitState, on: UnitState, es: seq<Event>) {
    && |es| == (if on.hp <= 1 then 2 else 1)
    && es[0].Pierce? && IsWho(es[0].attacker, doer) && IsWho(es[0].target, on) && es[0].damage == 1
    && (on.hp <= 1 ==> es[1].Death? && IsWho(es[1].unit, on))
  }

  ghost predicate Ally(b: Board, side: Side, not: Option<Pos>, p: Pos) {
    p in b && p.side == side && b[p].alive && not != Some(p)
  }

  /** The living ally, other than the excluded one, with the fewest hit points, then the least id. */
  ghost predicate Weakest(b: Board, side: Side, not: Option<Pos>, r: Option<Pos>) {
    match r
    case None => forall p :: !Ally(b, side, not, p)
    case Some(p) =>
      && Ally(b, side, not, p)
      && forall q :: Ally(b, side, not, q) && q != p ==> b[p].hp < b[q].hp || (b[p].hp == b[q].hp && b[p].id < b[q].id)
  }

  /** A healer gives an ally 10 points, as far as they are missing, and logs nothing if none are. */
  ghost predicate LogsHeal(b: Board, doer: UnitState, p: Option<Pos>, es: seq<Event>)
    requires p.Some? ==> p.value in b
  {
    if p.None? || b[p.value].hp >= b[p.value].maxHp then es == []
    else
      var u := b[p.value];
      var missing := u.maxHp - u.hp;
      && |es| == 1 && es[0].Heal? && IsWho(es[0].healer, doer) && IsWho(es[0].target, u)
      && es[0].amount == (if missing < 10 then missing else 10) && es[0].targetHpAfter == u.hp + es[0].amount
  }

  /** A healer supports the weakest ally and, at two stars, the weakest of the others as well. */
  ghost predicate LogsSupport(b: Board, a: Pos, es: seq<Event>)
    requires a in b
  {
    exists first, second, x, y ::
      && Weakest(b, a.side, None, first) && Weakest(b, a.side, first, second)
      && es == x + y && LogsHeal(b, b[a], first, x) && (if b[a].star == 2 then LogsHeal(b, b[a], second, y) else y == [])
  }

  /** A healer with a star slows what she attacks. */
  predicate LogsSlow(doer: UnitState, on: UnitState, es: seq<Event>) {
    if doer.star == 0 then es == []
    else |es| == 1 && es[0].Slow? && IsWho(es[0].healer, doer) && IsWho(es[0].target, on)
  }

  /** The events of the act of the unit on a that aims at t, in their order. */
  ghost predicate Logs(b: Board, a: Pos, t: Option<Pos>, es: seq<Event>)
    requires a in b && (t.Some? ==> t.value in b)
  {
    match b[a].unitId
    case Healer => exists hit, support, slow ::
      && es == hit + support + slow && LogsSupport(b, a, support)
      && (if t.None? then hit == [] && slow == [] else LogsHit(b[a], b[t.value], hit) && LogsSlow(b[a], b[t.value], slow))
    case Tank => if t.None? then es == [] else LogsHit(b[a], b[t.value], es)
    case Fighter =>
      if t.None? then es == []
      else exists hit, drain :: es == hit + drain && LogsHit(b[a], b[t.value], hit) && LogsDrain(b[a], drain)
    case Ranger =>
      if t.None? then es == []
      else exists hit, spill :: es == hit + spill && LogsHit(b[a], b[t.value], hit) && LogsSpill(b, b[a], t.value, spill)
  }

  // ---- each part does so ----

  lemma DamageLogs(b: Board, t: Pos, a: Pos, cycle: int, tick: int)
    requires t in b && a in b && t != a
    ensures
      var o := Damage(b, t, AtkFor(b[a].unitId, b[a].star), a, cycle, tick);
      LogsHit(b[a], b[t], o.events) && forall p <- b :: p != t ==> o.board[p] == b[p]
  {
    AttackIsTable(b[a].unitId, b[a].star);
  }

  lemma DrainLogs(b: Board, f: Pos, cycle: int, tick: int)
    requires f in b && b[f].unitId.Fighter? && b[f].star >= 1 && Fit(b[f])
    ensures LogsDrain(b[f], LifestealEffect(b, f, AtkFor(Fighter, b[f].star), cycle, tick).events)
  {
  }

  lemma FighterLogs(b: Board, a: Pos, t: Pos, cycle: int, tick: int)
    requires a in b && t in b && t != a && b[a].unitId.Fighter? && Fit(b[a])
    ensures Logs(b, a, Some(t), FighterAct(b, a, t, cycle, tick).events)
  {
    var dmg := AtkFor(Fighter, b[a].star);
    var o1 := Damage(b, t, dmg, a, cycle, tick);
    DamageLogs(b, t, a, cycle, tick);
    var drain := if b[a].star >= 1 then LifestealEffect(o1.board, a, dmg, cycle, tick).events else [];
    if b[a].star >= 1 {
      DrainLogs(o1.board, a, cycle, tick);
    }
    assert FighterAct(b, a, t, cycle, tick).events == o1.events + drain;
  }

  lemma SpillLogs(b: Board, c: Board, a: Pos, t: Pos, cycle: int, tick: int)
    requires a in b && t in b && c.Keys == b.Keys && (forall p <- b :: p != t ==> c[p] == b[p]) && a != t
    requires t.side == a.side.Other() && b[a].star == 1
    ensures LogsSpill(b, b[a], t, PierceEffect(c, a, t, AtkFor(Ranger, 1), cycle, tick).events)
  {
    if t.slot + 3 < 9 {
      var p := Pos(t.side, t.slot + 3);
      if AliveIn(b, p) {
        assert Backed(b, t, p);
        assert LogsPierce(b[a], b[p], PierceEffect(c, a, t, AtkFor(Ranger, 1), cycle, tick).events);
      }
    }
  }

  lemma RangerLogs(b: Board, a: Pos, t: Pos, cycle: int, tick: int)
    requires a in b && t in b && t.side == a.side.Other() && b[a].unitId.Ranger?
    ensures Logs(b, a, Some(t), RangerAct(b, a, t, cycle, tick).events)
  {
    var dmg := AtkFor(Ranger, b[a].star);
    var o1 := Damage(b, t, dmg, a, cycle, tick);
    DamageLogs(b, t, a, cycle, tick);
    var spill := if b[a].star == 1 then PierceEffect(o1.board, a, t, dmg, cycle, tick).events else [];
    if b[a].star == 1 {
      SpillLogs(b, o1.board, a, t, cycle, tick);
    }
    assert RangerAct(b, a, t, cycle, tick).events == o1.events + spill;
  }

  // ---- healers ----

  /** The same vital numbers and names on one side. */
  ghost predicate SameVitals(b: Board, c: Board, side: Side) {
    && b.Keys == c.Keys
    && forall p <- b :: p.side == side ==>
      && c[p].pos == b[p].pos && c[p].id == b[p].id && c[p].unitId == b[p].unitId && c[p].star == b[p].star
      && c[p].hp == b[p].hp && c[p].maxHp == b[p].maxHp && c[p].alive == b[p].alive
  }

  lemma LeaderIsWeakest(b: Board, side: Side, not: Option<Pos>)
    requires WellFormed(b)
    ensures Weakest(b, side, not, Leader(b, side, WeakestAlly(not)))
  {
    var c := WeakestAlly(not);
    LeaderIsLeast(b, side, c, 9);
    forall p | Ally(b, side, not, p) ensures Candidate(b, side, c, p) {
    }
  }

  lemma WeakestKeeps(b: Board, c: Board, side: Side, not: Option<Pos>, r: Option<Pos>)
    requires SameVitals(b, c, side) && Weakest(c, side, not, r)
    ensures Weakest(b, side, not, r)
  {
    forall p ensures Ally(b, side, not, p) <==> Ally(c, side, not, p) {
    }
  }

  lemma HealLogs(b: Board, p: Option<Pos>, h: Pos, cycle: int, tick: int)
    requires h in b && (p.Some? ==> p.value in b)
    ensures LogsHeal(b, b[h], p, HealChosen(b, p, h, cycle, tick).events)
    ensures forall q <- b :: p != Some(q) ==> HealChosen(b, p, h, cycle, tick).board[q] == b[q]
  {
  }

  /** Support on board c, whose units on the healer's side are those of b. */
  lemma FirstHealKeeps(b: Board, first: Pos, h: Pos, cycle: int, tick: int)
    requires h in b && first in b
    ensures
      var c := HealEffect(b, first, h, cycle, tick).board;
      && c.Keys == b.Keys && (forall q <- b :: q != first ==> c[q] == b[q])
      && c[first].id == b[first].id && c[first].alive == b[first].alive && c[first].pos == b[first].pos
      && c[first].unitId == b[first].unitId && c[first].star == b[first].star
  {
  }

  lemma OthersWeakest(b: Board, c: Board, side: Side, first: Option<Pos>, r: Option<Pos>)
    requires b.Keys == c.Keys && Weakest(c, side, first, r)
    requires forall q <- b :: first != Some(q) ==> c[q] == b[q]
    ensures Weakest(b, side, first, r)
  {
    forall p ensures Ally(b, side, first, p) <==> Ally(c, side, first, p) {
    }
  }

  lemma StillWellFormedAfterHeal(b: Board, p: Option<Pos>, h: Pos, cycle: int, tick: int)
    requires WellFormed(b) && h in b && (p.Some? ==> p.value in b)
    ensures WellFormed(HealChosen(b, p, h, cycle, tick).board)
  {
    if p.Some? {
      FirstHealKeeps(b, p.value, h, cycle, tick);
    }
  }

  lemma SecondHealLogs(b: Board, h: Pos, first: Option<Pos>, cycle: int, tick: int) returns (second: Option<Pos>)
    requires WellFormed(b) && h in b && b[h].alive && Weakest(b, h.side, None, first) && (first.Some? ==> first.value in b)
    ensures
      var c := HealChosen(b, first, h, cycle, tick).board;
      && second == Leader(c, h.side, WeakestAlly(first)) && Weakest(b, h.side, first, second)
      && LogsHeal(b, b[h], second, HealChosen(c, second, h, cycle, tick).events)
  {
    var c := HealChosen(b, first, h, cycle, tick).board;
    StillWellFormedAfterHeal(b, first, h, cycle, tick);
    HealLogs(b, first, h, cycle, tick);
    second := Leader(c, h.side, WeakestAlly(first));
    LeaderIsWeakest(c, h.side, first);
    OthersWeakest(b, c, h.side, first, second);
    HealLogs(c, second, h, cycle, tick);
    if first.Some? {
      FirstHealKeeps(b, first.value, h, cycle, tick);
    }
  }

  lemma SupportLogs(b: Board, h: Pos, cycle: int, tick: int)
    requires WellFormed(b) && h in b && b[h].alive
    ensures LogsSupport(b, h, SupportEffect(b, h, cycle, tick).events)
  {
    var first := Leader(b, h.side, WeakestAlly(None));
    LeaderIsWeakest(b, h.side, None);
    HealLogs(b, first, h, cycle, tick);
    var o1 := HealChosen(b, first, h, cycle, tick);
    var second := SecondHealLogs(b, h, first, cycle, tick);
    var y := if b[h].star == 2 then HealChosen(o1.board, second, h, cycle, tick).events else [];
    assert SupportEffect(b, h, cycle, tick).events == o1.events + y;
  }

  lemma HealSees(b: Board, c: Board, h: Pos, p: Option<Pos>, es: seq<Event>)
    requires SameVitals(b, c, h.side) && h in b && (p.Some? ==> p.value in b && p.value.side == h.side)
    requires LogsHeal(c, c[h], p, es)
    ensures LogsHeal(b, b[h], p, es)
  {
  }

  lemma SupportSees(b: Board, c: Board, h: Pos, es: seq<Event>)
    requires SameVitals(b, c, h.side) && h in b && LogsSupport(c, h, es)
    ensures LogsSupport(b, h, es)
  {
    var first, second, x, y :|
      && Weakest(c, h.side, None, first) && Weakest(c, h.side, first, second)
      && es == x + y && LogsHeal(c, c[h], first, x) && (if c[h].star == 2 then LogsHeal(c, c[h], second, y) else y == []);
    WeakestKeeps(b, c, h.side, None, first);
    WeakestKeeps(b, c, h.side, first, second);
    HealSees(b, c, h, first, x);
    if c[h].star == 2 {
      HealSees(b, c, h, second, y);
    }
  }

  lemma HitSees(doer: UnitState, on: UnitState, doer2: UnitState, on2: UnitState, es: seq<Event>)
    requires LogsHit(doer2, on2, es) && IdentityOf(doer) == IdentityOf(doer2) && IdentityOf(on) == IdentityOf(on2)
    requires on.hp == on2.hp && on.revived == on2.revived
    ensures LogsHit(doer, on, es)
  {
  }

  lemma StrikeHits(b: Board, a: Pos, t: Pos, cycle: int, tick: int)
    requires a in b && t in b && t != a && b[a].unitId.Healer?
    ensures LogsHit(b[a], b[t], HealerStrike(b, a, Some(t), cycle, tick).events)
  {
    var c := ClearSlows(b, b[a].id);
    DamageLogs(c, t, a, cycle, tick);
    HitSees(b[a], b[t], c[a], c[t], HealerStrike(b, a, Some(t), cycle, tick).events);
  }

  lemma ClearedVitals(b: Board, healer: InstanceId, side: Side)
    ensures SameVitals(b, ClearSlows(b, healer), side)
  {
  }

  lemma StrikeSpares(b: Board, a: Pos, t: Pos, cycle: int, tick: int)
    requires a in b && t in b && t.side == a.side.Other() && b[a].unitId.Healer?
    ensures SameVitals(b, HealerStrike(b, a, Some(t), cycle, tick).board, a.side)
  {
    var c := ClearSlows(b, b[a].id);
    ClearedVitals(b, b[a].id, a.side);
    DamageLogs(c, t, a, cycle, tick);
  }

  lemma SupportKeepsNames(b: Board, h: Pos, cycle: int, tick: int)
    requires h in b
    ensures SameUnits(b, SupportEffect(b, h, cycle, tick).board)
  {
    SupportKeepsUnits(b, h, cycle, tick);
  }

  lemma SlowLogs(b: Board, c: Board, a: Pos, t: Pos, cycle: int, tick: int)
    requires a in b && t in b && a in c && t in c
    requires IdentityOf(b[a]) == IdentityOf(c[a]) && IdentityOf(b[t]) == IdentityOf(c[t])
    ensures LogsSlow(b[a], b[t], HealerSlow(c, a, Some(t), cycle, tick).events)
  {
  }

  lemma HealerLogs(b: Board, a: Pos, target: Option<Pos>, cycle: int, tick: int)
    requires WellFormed(b) && a in b && b[a].alive && b[a].unitId.Healer?
    requires target.Some? ==> target.value in b && target.value.side == a.side.Other()
    ensures Logs(b, a, target, HealerAct(b, a, target, cycle, tick).events)
  {
    var o1 := HealerStrike(b, a, target, cycle, tick);
    var o2 := SupportEffect(o1.board, a, cycle, tick);
    var o3 := HealerSlow(o2.board, a, target, cycle, tick);
    if target.Some? {
      StrikeHits(b, a, target.value, cycle, tick);
      StrikeSpares(b, a, target.value, cycle, tick);
      StrikeKeepsUnits(b, a, target, cycle, tick);
      BattleSlows.StillWellFormed(b, o1.board);
    }
    SupportLogs(o1.board, a, cycle, tick);
    SupportSees(b, o1.board, a, o2.events);
    SupportKeepsNames(o1.board, a, cycle, tick);
    SameUnitsThen(b, o1.board, o2.board);
    if target.Some? {
      SlowLogs(b, o2.board, a, target.value, cycle, tick);
    }
    assert HealerAct(b, a, target, cycle, tick).events == o1.events + o2.events + o3.events;
  }

  // ---- one act, and every act of a run ----

  /** The unit on a aims as it should, and its act logs exactly that. */
  ghost predicate ActsOut(b: Board, layout: seq<Pos>, a: Pos, es: seq<Event>)
    requires a in b
  {
    exists t: Option<Pos> :: Aims(b, layout, a, t) && (t.Some? ==> t.value in b) && Logs(b, a, t, es)
  }

  lemma ActLogs(b: Board, layout: seq<Pos>, a: Pos, cycle: int, tick: int)
    requires WellFormed(b) && a in b && b[a].alive && Fit(b[a])
    ensures ActsOut(b, layout, a, UnitAct(b, layout, a, cycle, tick).events)
  {
    var t := Target(b, layout, a);
    TargetAims(b, layout, a);
    match b[a].unitId
    case Healer => HealerLogs(b, a, t, cycle, tick);
    case Fighter => if t.Some? { FighterLogs(b, a, t.value, cycle, tick); }
    case Ranger => if t.Some? { RangerLogs(b, a, t.value, cycle, tick); }
    case Tank => if t.Some? { DamageLogs(b, t.value, a, cycle, tick); }
  }

  /**
   * In every act of a run a living unit that the board started with, in kind, star and name,
   * aims as it should and logs exactly its events, with the amounts that its target, its
   * allies and itself leave.
   */
  lemma RunLogs(b: Board, layout: seq<Pos>, acts: seq<Act>, k: nat)
    requires WellFormed(b) && AllFit(b) && Run(b, LegalBy(layout), acts) && k < |acts| && acts[k].actor.Some?
    ensures
      var a, pre := acts[k].actor.value, acts[k].pre;
      && a in b && a in pre && pre[a].alive && ActsOut(pre, layout, a, acts[k].events)
      && pre.Keys == b.Keys && forall p <- b ::
        pre[p].pos == p && pre[p].id == b[p].id && pre[p].unitId == b[p].unitId && pre[p].star == b[p].star
        && pre[p].maxHp == b[p].maxHp
  {
    RunSplit(b, LegalBy(layout), acts, k);
    RunKeepsUnits(b, layout, acts[..k]);
    RunStaysFit(b, layout, acts, k);
    var a, pre := acts[k].actor.value, acts[k].pre;
    forall p <- b ensures IdentityOf(pre[p]) == IdentityOf(b[p]) {
    }
    ActLogs(pre, layout, a, acts[k].cycle, acts[k].tick);
  }
}
