/**
 * Within the act that kills a unit: after its death event only the killing attack and the
 * same act's slow still name it. Later acts never do (module BattleLife).
 */
module BattleAftermath {
  import opened GameTypes
  import opened BattleSpec
  import opened BattleTrace
  import opened BattleReplay
  import opened BattleLife
  import opened BattleSlows

  predicate Residual(e: Event, p: Pos) {
    (e.Attack? || e.Slow?) && PosOf(e.target) == p
  }

  predicate Allowed(dead: Event, later: Event) {
    dead.Death? && PosOf(dead.unit) in Named(later) ==> Residual(later, PosOf(dead.unit))
  }

  ghost predicate Hushed(events: seq<Event>) {
    forall i, j | 0 <= i < j < |events| :: Allowed(events[i], events[j])
  }

  lemma ThenHushed(x: seq<Event>, y: seq<Event>)
    requires Hushed(x) && Hushed(y) && forall e, f | e in x && f in y :: Allowed(e, f)
    ensures Hushed(x + y)
  {
    forall i, j | 0 <= i < j < |x + y| ensures Allowed((x + y)[i], (x + y)[j]) {
      if i < |x| <= j {
        assert x[i] in x && y[j - |x|] in y;
      }
    }
  }

  lemma DirectedParts(x: seq<Event>, y: seq<Event>, side: Side)
    requires AllDirected(x + y, side)
    ensures AllDirected(x, side) && AllDirected(y, side)
  {
    assert forall e <- x :: e in x + y;
    assert forall e <- y :: e in x + y;
  }

  /** Heals, lifesteals and slows may follow any death among the enemies. */
  lemma SoftHushed(x: seq<Event>, y: seq<Event>, side: Side)
    requires AllDirected(x + y, side) && Hushed(x) && Hushed(y)
    requires forall f <- y :: f.Heal? || f.Lifesteal? || f.Slow?
    ensures Hushed(x + y)
  {
    DirectedParts(x, y, side);
    forall e, f | e in x && f in y ensures Allowed(e, f) {
      assert Directed(e, side) && Directed(f, side);
    }
    ThenHushed(x, y);
  }

  lemma DamageHushed(b: Board, t: Pos, dmg: int, s: Pos, cycle: int, tick: int)
    requires Placed(b) && t in b && s in b
    ensures Hushed(Damage(b, t, dmg, s, cycle, tick).events)
    ensures forall e <- Damage(b, t, dmg, s, cycle, tick).events :: e.Death? ==> PosOf(e.unit) == t
  {
  }

  lemma SupportSoft(b: Board, h: Pos, cycle: int, tick: int)
    requires h in b
    ensures forall f <- SupportEffect(b, h, cycle, tick).events :: f.Heal?
    ensures Hushed(SupportEffect(b, h, cycle, tick).events)
  {
  }

  /** The spill lands on another unit than the primary target. */
  lemma PierceHushed(b: Board, r: Pos, t: Pos, dmg: int, cycle: int, tick: int, x: seq<Event>)
    requires Placed(b) && r in b && t in b && t.side == r.side.Other()
    requires Hushed(x) && forall e <- x :: e.Death? ==> PosOf(e.unit) == t
    ensures Hushed(x + PierceEffect(b, r, t, dmg, cycle, tick).events)
  {
    var y := PierceEffect(b, r, t, dmg, cycle, tick).events;
    assert forall f <- y :: t !in Named(f);
    ThenHushed(x, y);
  }

  lemma HealerHushed(b: Board, a: Pos, target: Option<Pos>, cycle: int, tick: int, side: Side)
    requires Placed(b) && a in b && (target.Some? ==> target.value in b)
    requires AllDirected(HealerAct(b, a, target, cycle, tick).events, side)
    ensures Hushed(HealerAct(b, a, target, cycle, tick).events)
  {
    var o1 := HealerStrike(b, a, target, cycle, tick);
    var o2 := SupportEffect(o1.board, a, cycle, tick);
    var o3 := HealerSlow(o2.board, a, target, cycle, tick);
    if target.Some? {
      ClearKeepsView(b, b[a].id);
      DamageHushed(ClearSlows(b, b[a].id), target.value, AtkFor(Healer, b[a].star), a, cycle, tick);
    }
    SupportSoft(o1.board, a, cycle, tick);
    DirectedParts(o1.events + o2.events, o3.events, side);
    SoftHushed(o1.events, o2.events, side);
    SoftHushed(o1.events + o2.events, o3.events, side);
  }

  lemma ActHushed(b: Board, layout: seq<Pos>, a: Pos, cycle: int, tick: int)
    requires AllFit(b) && a in b && b[a].alive
    ensures Hushed(UnitAct(b, layout, a, cycle, tick).events)
  {
    var target := Target(b, layout, a);
    ActFair(b, layout, a, cycle, tick);
    if b[a].unitId.Healer? {
      HealerHushed(b, a, target, cycle, tick, a.side);
    } else if target.Some? {
      var dmg := AtkFor(b[a].unitId, b[a].star);
      var o1 := Damage(b, target.value, dmg, a, cycle, tick);
      DamageHushed(b, target.value, dmg, a, cycle, tick);
      if b[a].unitId.Fighter? && dmg > 0 && o1.board[a].star >= 1 {
        SoftHushed(o1.events, LifestealEffect(o1.board, a, dmg, cycle, tick).events, a.side);
      } else if b[a].unitId.Ranger? && o1.board[a].star == 1 {
        DamageKeepsPlaces(b, target.value, dmg, a, cycle, tick);
        PierceHushed(o1.board, a, target.value, dmg, cycle, tick, o1.events);
      }
    }
  }

  lemma {:induction false} TallyHas(events: seq<Event>, i: nat)
    requires i < |events| && events[i].Death?
    ensures Tally(events, Dies, PosOf(events[i].unit)) >= 1
    decreases |events|
  {
    if i > 0 {
      TallyHas(events[1..], i - 1);
    }
  }

  /** A unit whose death an act logs is dead after the act. */
  lemma DeathIsFinal(act: Act, i: nat)
    requires act.actor.Some? && FairAct(act) && i < |act.events| && act.events[i].Death?
    ensures !AliveIn(act.post, PosOf(act.events[i].unit))
  {
    TallyHas(act.events, i);
    var p := PosOf(act.events[i].unit);
    assert act.events[i] in act.events;
    assert Named(act.events[i]) <= Living(act.pre);
    assert p in act.pre;
  }

  lemma RunHushed(b: Board, layout: seq<Pos>, acts: seq<Act>, k: nat)
    requires AllFit(b) && Run(b, LegalBy(layout), acts) && k < |acts|
    ensures Hushed(acts[k].events)
  {
    RunFair(b, layout, acts, k);
    RunStaysFit(b, layout, acts, k);
    RunSplit(b, LegalBy(layout), acts, k);
    if acts[k].actor.Some? {
      ActHushed(acts[k].pre, layout, acts[k].actor.value, acts[k].cycle, acts[k].tick);
    }
  }

  lemma SilentForGood(b: Board, layout: seq<Pos>, acts: seq<Act>, k: nat, i: nat, m: nat)
    requires AllFit(b) && Run(b, LegalBy(layout), acts) && k < m < |acts|
    requires i < |acts[k].events| && acts[k].events[i].Death?
    ensures forall e <- acts[m].events :: PosOf(acts[k].events[i].unit) !in Named(e)
  {
    RunFair(b, layout, acts, k);
    DeathIsFinal(acts[k], i);
    DeadAreLeftAlone(b, layout, acts, k + 1, m, PosOf(acts[k].events[i].unit));
  }

  /**
   * From a unit's death event on, to the end of the battle, an event names it only if it
   * belongs to the same act and is the killing attack or that act's slow.
   */
  lemma OnlyItsKillerNamesIt(b: Board, layout: seq<Pos>, acts: seq<Act>, k: nat, i: nat)
    requires AllFit(b) && Run(b, LegalBy(layout), acts) && k < |acts|
    requires i < |acts[k].events| && acts[k].events[i].Death?
    ensures
      var p := PosOf(acts[k].events[i].unit);
      && (forall j | i < j < |acts[k].events| && p in Named(acts[k].events[j]) :: Residual(acts[k].events[j], p))
      && forall m | k < m < |acts| :: forall e <- acts[m].events :: p !in Named(e)
  {
    var act, p := acts[k], PosOf(acts[k].events[i].unit);
    RunHushed(b, layout, acts, k);
    forall j | i < j < |act.events| && p in Named(act.events[j]) ensures Residual(act.events[j], p) {
      assert Allowed(act.events[i], act.events[j]);
    }
    forall m | k < m < |acts| ensures forall e <- acts[m].events :: p !in Named(e) {
      SilentForGood(b, layout, acts, k, i, m);
    }
  }

  // ---- the slows of the dead ----

  /** The healer on h, who is dead, acts in none of these acts. */
  lemma DeadOwnerRests(b: Board, layout: seq<Pos>, acts: seq<Act>, i: nat, k: nat, h: Pos)
    requires WellFormed(b) && AllFit(b) && Run(b, LegalBy(layout), acts) && i <= k < |acts|
    requires h in b && !AliveIn(After(b, acts[..i]), h)
    ensures acts[k].actor.Some? && acts[k].actor.value in acts[k].pre ==> acts[k].pre[acts[k].actor.value].id != b[h].id
  {
    DeadAreLeftAlone(b, layout, acts, i, k, h);
    RunSplit(b, LegalBy(layout), acts, k);
    RunKeepsUnits(b, layout, acts[..k]);
    if acts[k].actor.Some? && acts[k].actor.value in acts[k].pre {
      var a := acts[k].actor.value;
      assert IdentityOf(b[a]) == IdentityOf(acts[k].pre[a]);
    }
  }

  /** Another healer, of one star or more, attacks the unit on p. */
  ghost predicate TakesOver(layout: seq<Pos>, act: Act, p: Pos) {
    && act.actor.Some? && act.actor.value in act.pre
    && act.pre[act.actor.value].unitId.Healer? && act.pre[act.actor.value].star >= 1
    && Target(act.pre, layout, act.actor.value) == Some(p)
  }

  /** The slow of a dead healer stays to the end of the battle, unless another healer takes the unit over. */
  lemma SlowOfTheDeadStays(b: Board, layout: seq<Pos>, acts: seq<Act>, i: nat, j: nat, p: Pos, h: Pos)
    requires WellFormed(b) && AllFit(b) && Run(b, LegalBy(layout), acts) && i <= j <= |acts|
    requires h in b && !AliveIn(After(b, acts[..i]), h)
    requires p in After(b, acts[..i]) && After(b, acts[..i])[p].slowedBy == Some(b[h].id)
    requires forall k | i <= k < j :: !TakesOver(layout, acts[k], p)
    ensures p in After(b, acts[..j])
    ensures PaceOf(After(b, acts[..j])[p]) == PaceOf(After(b, acts[..i])[p])
  {
    forall k | i <= k < j ensures !EndsSlow(layout, acts[k], p, b[h].id) {
      DeadOwnerRests(b, layout, acts, i, k, h);
      assert !TakesOver(layout, acts[k], p);
    }
    SlowStays(b, layout, acts, i, j, p, b[h].id);
  }
}
