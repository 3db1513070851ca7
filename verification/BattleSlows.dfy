/** Slow ownership: who is slowed, by whom, at what speed, and when a slow ends. */
module BattleSlows {
  import opened GameTypes
  import opened BattleSpec
  import opened BattleTrace
  import opened BattleReplay

  datatype Pace = Pace(slowActive: bool, slowedBy: Option<InstanceId>, spd: int)

  function PaceOf(u: UnitState): Pace { Pace(u.slowActive, u.slowedBy, u.spd) }

  function FreePace(unitId: UnitId): Pace { Pace(false, None, SpdFor(unitId)) }

  function SlowPace(unitId: UnitId, healer: InstanceId): Pace { Pace(true, Some(healer), SlowedSpd(unitId)) }

  /** A unit runs at base speed with no owner, or at the rounded 0.7 of it with one. */
  ghost predicate Paced(u: UnitState) {
    PaceOf(u) == match u.slowedBy
      case None => FreePace(u.unitId)
      case Some(h) => SlowPace(u.unitId, h)
  }

  /** The owner of a slow is a healer of one star or more on the other side. */
  ghost predicate OwnedBy(b: Board, h: Pos, p: Pos)
    requires p in b
  {
    h in b && b[p].slowedBy == Some(b[h].id) && h.side == p.side.Other() && b[h].unitId.Healer? && b[h].star >= 1
  }

  /** No healer owns two slows. */
  ghost predicate OneEach(b: Board) {
    forall p, q :: p in b && q in b && b[p].slowedBy.Some? && b[p].slowedBy == b[q].slowedBy ==> p == q
  }

  ghost predicate SlowsSound(b: Board) {
    && WellFormed(b)
    && (forall p <- b :: Paced(b[p]))
    && (forall p <- b :: b[p].slowedBy.Some? ==> exists h :: OwnedBy(b, h, p))
    && OneEach(b)
  }

  ghost predicate SamePaces(b: Board, c: Board) {
    b.Keys == c.Keys && forall p <- b :: PaceOf(b[p]) == PaceOf(c[p])
  }

  lemma SupportKeepsPaces(b: Board, h: Pos, cycle: int, tick: int)
    requires h in b
    ensures SamePaces(b, SupportEffect(b, h, cycle, tick).board)
  {
  }

  /** The pace of every unit after an act, from the board before it. */
  ghost function PaceAfter(b: Board, layout: seq<Pos>, a: Pos, p: Pos): Pace
    requires a in b && p in b
  {
    var target := Target(b, layout, a);
    if !b[a].unitId.Healer? || target.None? then PaceOf(b[p])
    else if target == Some(p) && b[a].star >= 1 then SlowPace(b[p].unitId, b[a].id)
    else if b[p].slowedBy == Some(b[a].id) then FreePace(b[p].unitId)
    else PaceOf(b[p])
  }

  ghost function StrikePace(b: Board, a: Pos, target: Option<Pos>, p: Pos): Pace
    requires a in b && p in b
  {
    if target.Some? && b[p].slowedBy == Some(b[a].id) then FreePace(b[p].unitId) else PaceOf(b[p])
  }

  lemma StrikePaces(b: Board, a: Pos, target: Option<Pos>, cycle: int, tick: int)
    requires a in b && (target.Some? ==> target.value in b)
    ensures
      var c := HealerStrike(b, a, target, cycle, tick).board;
      SameUnits(b, c) && forall p <- b :: PaceOf(c[p]) == StrikePace(b, a, target, p)
  {
  }

  lemma HealerPaces(b: Board, layout: seq<Pos>, a: Pos, cycle: int, tick: int, p: Pos)
    requires a in b && b[a].unitId.Healer? && p in b
    ensures PaceOf(HealerAct(b, a, Target(b, layout, a), cycle, tick).board[p]) == PaceAfter(b, layout, a, p)
  {
    var target := Target(b, layout, a);
    var b1 := HealerStrike(b, a, target, cycle, tick).board;
    StrikePaces(b, a, target, cycle, tick);
    assert PaceOf(b1[p]) == StrikePace(b, a, target, p);
    assert IdentityOf(b1[p]) == IdentityOf(b[p]) && IdentityOf(b1[a]) == IdentityOf(b[a]);
    var b2 := SupportEffect(b1, a, cycle, tick).board;
    SupportKeepsPaces(b1, a, cycle, tick);
    SupportKeepsUnits(b1, a, cycle, tick);
    assert PaceOf(b2[p]) == PaceOf(b1[p]);
    assert IdentityOf(b2[p]) == IdentityOf(b1[p]) && IdentityOf(b2[a]) == IdentityOf(b1[a]);
  }

  lemma DamageKeepsPaces(b: Board, t: Pos, dmg: int, s: Pos, cycle: int, tick: int)
    requires t in b && s in b
    ensures SamePaces(b, Damage(b, t, dmg, s, cycle, tick).board)
  {
  }

  lemma StrikersKeepPaces(b: Board, a: Pos, t: Pos, cycle: int, tick: int)
    requires a in b && t in b
    ensures SamePaces(b, FighterAct(b, a, t, cycle, tick).board)
    ensures SamePaces(b, RangerAct(b, a, t, cycle, tick).board)
  {
    DamageKeepsPaces(b, t, AtkFor(Fighter, b[a].star), a, cycle, tick);
    DamageKeepsPaces(b, t, AtkFor(Ranger, b[a].star), a, cycle, tick);
  }

  /** Only a healer that attacks changes paces, and then exactly as PaceAfter says. */
  lemma ActPaces(b: Board, layout: seq<Pos>, a: Pos, cycle: int, tick: int, p: Pos)
    requires a in b && p in b
    ensures PaceOf(UnitAct(b, layout, a, cycle, tick).board[p]) == PaceAfter(b, layout, a, p)
  {
    var target := Target(b, layout, a);
    if b[a].unitId.Healer? {
      HealerPaces(b, layout, a, cycle, tick, p);
    } else if target.Some? {
      StrikersKeepPaces(b, a, target.value, cycle, tick);
      DamageKeepsPaces(b, target.value, AtkFor(Tank, b[a].star), a, cycle, tick);
    }
  }

  lemma ActKeepsSlowsSound(b: Board, layout: seq<Pos>, a: Pos, cycle: int, tick: int)
    requires SlowsSound(b) && a in b
    ensures SlowsSound(UnitAct(b, layout, a, cycle, tick).board)
  {
    var c := UnitAct(b, layout, a, cycle, tick).board;
    forall p <- b ensures PaceOf(c[p]) == PaceAfter(b, layout, a, p) {
      ActPaces(b, layout, a, cycle, tick, p);
    }
    ActKeepsUnits(b, layout, a, cycle, tick);
    NextSlowsSound(b, layout, a, c);
  }

  lemma NextOwned(b: Board, layout: seq<Pos>, a: Pos, c: Board, p: Pos)
    requires SlowsSound(b) && a in b && SameUnits(b, c) && p in c && c[p].slowedBy.Some?
    requires PaceOf(c[p]) == PaceAfter(b, layout, a, p)
    ensures exists h :: OwnedBy(c, h, p)
  {
    assert IdentityOf(b[p]) == IdentityOf(c[p]) && IdentityOf(b[a]) == IdentityOf(c[a]);
    if c[p].slowedBy == b[p].slowedBy {
      var h :| OwnedBy(b, h, p);
      assert IdentityOf(b[h]) == IdentityOf(c[h]);
      assert OwnedBy(c, h, p);
    } else {
      assert OwnedBy(c, a, p);
    }
  }

  lemma NextPaced(b: Board, layout: seq<Pos>, a: Pos, c: Board, p: Pos)
    requires SlowsSound(b) && a in b && SameUnits(b, c) && p in c
    requires PaceOf(c[p]) == PaceAfter(b, layout, a, p)
    ensures Paced(c[p])
  {
    assert Paced(b[p]) && IdentityOf(b[p]) == IdentityOf(c[p]);
  }

  /** A slow that an act leaves is its actor's on its target, or was there before. */
  lemma SlowFrom(b: Board, layout: seq<Pos>, a: Pos, p: Pos)
    requires a in b && p in b && PaceAfter(b, layout, a, p).slowedBy.Some?
    ensures
      if b[a].unitId.Healer? && b[a].star >= 1 && Target(b, layout, a) == Some(p) then
        PaceAfter(b, layout, a, p).slowedBy == Some(b[a].id)
      else
        && b[p].slowedBy == PaceAfter(b, layout, a, p).slowedBy
        && (b[a].unitId.Healer? && Target(b, layout, a).Some? ==> b[p].slowedBy != Some(b[a].id))
  {
  }

  lemma NextUnique(b: Board, layout: seq<Pos>, a: Pos, c: Board, p: Pos, q: Pos)
    requires OneEach(b) && a in b && SameUnits(b, c) && p in c && q in c
    requires PaceOf(c[p]) == PaceAfter(b, layout, a, p) && PaceOf(c[q]) == PaceAfter(b, layout, a, q)
    requires c[p].slowedBy.Some? && c[p].slowedBy == c[q].slowedBy
    ensures p == q
  {
    SlowFrom(b, layout, a, p);
    SlowFrom(b, layout, a, q);
  }

  lemma StillWellFormed(b: Board, c: Board)
    requires WellFormed(b) && SameUnits(b, c)
    ensures WellFormed(c)
  {
    assert forall p <- c :: IdentityOf(b[p]) == IdentityOf(c[p]);
  }

  lemma NextSlowsSound(b: Board, layout: seq<Pos>, a: Pos, c: Board)
    requires SlowsSound(b) && a in b && SameUnits(b, c)
    requires forall p <- b :: PaceOf(c[p]) == PaceAfter(b, layout, a, p)
    ensures SlowsSound(c)
  {
    StillWellFormed(b, c);
    forall p <- c ensures Paced(c[p]) {
      NextPaced(b, layout, a, c, p);
    }
    forall p <- c | c[p].slowedBy.Some? ensures exists h :: OwnedBy(c, h, p) {
      NextOwned(b, layout, a, c, p);
    }
    forall p, q | p in c && q in c && c[p].slowedBy.Some? && c[p].slowedBy == c[q].slowedBy
      ensures p == q
    {
      NextUnique(b, layout, a, c, p, q);
    }
  }

  /** At every act boundary of a run, slows are sound. */
  lemma {:induction false} RunKeepsSlowsSound(b: Board, layout: seq<Pos>, acts: seq<Act>, k: nat)
    requires SlowsSound(b) && Run(b, LegalBy(layout), acts) && k <= |acts|
    ensures SlowsSound(After(b, acts[..k]))
    decreases k
  {
    if k > 0 {
      RunKeepsSlowsSound(b, layout, acts, k - 1);
      RunSplit(b, LegalBy(layout), acts, k - 1);
      var act := acts[k - 1];
      if act.actor.Some? {
        ActKeepsSlowsSound(act.pre, layout, act.actor.value, act.cycle, act.tick);
      }
    }
  }

  /** The act is an attack of the owner, or another healer's slow of p. */
  ghost predicate EndsSlow(layout: seq<Pos>, act: Act, p: Pos, owner: InstanceId) {
    && act.actor.Some? && act.actor.value in act.pre
    && var healer, target := act.pre[act.actor.value], Target(act.pre, layout, act.actor.value);
    && healer.unitId.Healer?
    && ((healer.id == owner && target.Some?) || (healer.star >= 1 && target == Some(p)))
  }

  /**
   * A slow outlives its owner: it stays, at the slowed speed, over every stretch of acts in
   * which neither the owner attacks again nor another healer slows the same unit.
   */
  lemma {:induction false} SlowStays(
    b: Board, layout: seq<Pos>, acts: seq<Act>, i: nat, j: nat, p: Pos, owner: InstanceId)
    requires Run(b, LegalBy(layout), acts) && i <= j <= |acts|
    requires p in After(b, acts[..i]) && After(b, acts[..i])[p].slowedBy == Some(owner)
    requires forall k | i <= k < j :: !EndsSlow(layout, acts[k], p, owner)
    ensures p in After(b, acts[..j])
    ensures PaceOf(After(b, acts[..j])[p]) == PaceOf(After(b, acts[..i])[p])
    decreases j
  {
    if i < j {
      SlowStays(b, layout, acts, i, j - 1, p, owner);
      RunSplit(b, LegalBy(layout), acts, j - 1);
      var act := acts[j - 1];
      assert !EndsSlow(layout, act, p, owner);
      if act.actor.Some? {
        ActPaces(act.pre, layout, act.actor.value, act.cycle, act.tick, p);
      }
    }
  }

  /** Conversely such an act ends the slow: it releases the unit, or makes it the actor's. */
  lemma SlowEnds(layout: seq<Pos>, act: Act, p: Pos, owner: InstanceId)
    requires Legit(layout, act) && EndsSlow(layout, act, p, owner)
    requires p in act.pre && act.pre[p].slowedBy == Some(owner)
    ensures
      var healer, target := act.pre[act.actor.value], Target(act.pre, layout, act.actor.value);
      && p in act.post
      && PaceOf(act.post[p]) ==
        if target == Some(p) && healer.star >= 1 then SlowPace(act.pre[p].unitId, healer.id)
        else FreePace(act.pre[p].unitId)
  {
    ActPaces(act.pre, layout, act.actor.value, act.cycle, act.tick, p);
  }
}
