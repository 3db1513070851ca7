/** The numbers and the roles on the events of a battle, against tables of literals. */
module BattleAmounts {
  import opened GameTypes
  import opened BattleSpec
  import opened BattleTrace
  import BattleReplay

  function AttackTable(unitId: UnitId, star: Star): int {
    match unitId
    case Fighter => if star == 0 then 15 else if star == 1 then 22 else 30
    case Healer => if star == 0 then 6 else if star == 1 then 9 else 12
    case Ranger => if star == 0 then 12 else if star == 1 then 18 else 24
    case Tank => if star == 0 then 8 else if star == 1 then 12 else 16
  }

  lemma AttackIsTable(unitId: UnitId, star: Star)
    ensures AtkFor(unitId, star) == AttackTable(unitId, star)
  {
  }

  /** Who may cause the event, and how much it may be. */
  predicate Proper(e: Event) {
    match e
    case Attack(_, _, attacker, _, damage, _) => damage == AttackTable(attacker.unitId, attacker.star)
    case Revive(_, _, unit, _) => unit.unitId.Tank? && unit.star >= 1
    case Heal(_, _, target, healer, amount, _) => healer.unitId.Healer? && target.side == healer.side && 1 <= amount <= 10
    case Lifesteal(_, _, unit, amount, _) =>
      unit.unitId.Fighter? && unit.star >= 1 && 0 <= amount <= (if unit.star == 1 then 1 else 3)
    case Pierce(_, _, attacker, _, damage) => attacker.unitId.Ranger? && attacker.star == 1 && damage == 1
    case Slow(_, _, _, healer) => healer.unitId.Healer? && healer.star >= 1
    case _ => true
  }

  ghost predicate AllProper(events: seq<Event>) {
    forall e <- events :: Proper(e)
  }

  lemma DamageProper(b: Board, t: Pos, s: Pos, cycle: int, tick: int)
    requires t in b && s in b
    ensures AllProper(Damage(b, t, AtkFor(b[s].unitId, b[s].star), s, cycle, tick).events)
  {
    AttackIsTable(b[s].unitId, b[s].star);
  }

  lemma SupportProper(b: Board, h: Pos, cycle: int, tick: int)
    requires Placed(b) && h in b && b[h].unitId.Healer?
    ensures AllProper(SupportEffect(b, h, cycle, tick).events)
  {
  }

  lemma StrikeKeepsHealer(b: Board, a: Pos, target: Option<Pos>, cycle: int, tick: int)
    requires Placed(b) && a in b && (target.Some? ==> target.value in b)
    ensures
      var c := HealerStrike(b, a, target, cycle, tick).board;
      Placed(c) && c[a].unitId == b[a].unitId && c[a].star == b[a].star
  {
  }

  lemma SupportKeepsHealer(b: Board, h: Pos, cycle: int, tick: int)
    requires h in b
    ensures
      var c := SupportEffect(b, h, cycle, tick).board;
      c[h].unitId == b[h].unitId && c[h].star == b[h].star
  {
  }

  lemma StrikeProper(b: Board, a: Pos, target: Option<Pos>, cycle: int, tick: int)
    requires a in b && b[a].unitId.Healer? && (target.Some? ==> target.value in b)
    ensures AllProper(HealerStrike(b, a, target, cycle, tick).events)
  {
    if target.Some? {
      DamageProper(ClearSlows(b, b[a].id), target.value, a, cycle, tick);
    }
  }

  lemma SlowProper(b: Board, a: Pos, target: Option<Pos>, cycle: int, tick: int)
    requires a in b && b[a].unitId.Healer? && (target.Some? ==> target.value in b)
    ensures AllProper(HealerSlow(b, a, target, cycle, tick).events)
  {
  }

  lemma HealerProper(b: Board, a: Pos, target: Option<Pos>, cycle: int, tick: int)
    requires Placed(b) && a in b && b[a].unitId.Healer? && (target.Some? ==> target.value in b)
    ensures AllProper(HealerAct(b, a, target, cycle, tick).events)
  {
    var o1 := HealerStrike(b, a, target, cycle, tick);
    StrikeProper(b, a, target, cycle, tick);
    StrikeKeepsHealer(b, a, target, cycle, tick);
    SupportProper(o1.board, a, cycle, tick);
    SupportKeepsHealer(o1.board, a, cycle, tick);
    SlowProper(SupportEffect(o1.board, a, cycle, tick).board, a, target, cycle, tick);
  }

  lemma StrikerProper(b: Board, a: Pos, t: Pos, cycle: int, tick: int)
    requires a in b && t in b
    ensures b[a].unitId.Fighter? ==> AllProper(FighterAct(b, a, t, cycle, tick).events)
    ensures b[a].unitId.Ranger? ==> AllProper(RangerAct(b, a, t, cycle, tick).events)
  {
    DamageProper(b, t, a, cycle, tick);
  }

  /** Every event of an act is caused by a unit that may, in the amount of its kind and star. */
  lemma ActProper(b: Board, layout: seq<Pos>, a: Pos, cycle: int, tick: int)
    requires Placed(b) && a in b
    ensures AllProper(UnitAct(b, layout, a, cycle, tick).events)
  {
    var target := Target(b, layout, a);
    if b[a].unitId.Healer? {
      HealerProper(b, a, target, cycle, tick);
    } else if target.Some? {
      StrikerProper(b, a, target.value, cycle, tick);
      DamageProper(b, target.value, a, cycle, tick);
    }
  }

  /** And so in every act of a run. */
  lemma RunProper(b: Board, layout: seq<Pos>, acts: seq<Act>, k: nat)
    requires Placed(b) && Run(b, LegalBy(layout), acts) && k < |acts|
    ensures AllProper(acts[k].events)
  {
    RunSplit(b, LegalBy(layout), acts, k);
    BattleReplay.RunKeepsUnits(b, layout, acts[..k]);
    BattleReplay.SameUnitsPlaced(b, acts[k].pre);
    if acts[k].actor.Some? {
      ActProper(acts[k].pre, layout, acts[k].actor.value, acts[k].cycle, acts[k].tick);
    }
  }
}
