/** The event log is a complete redo log of the board. */
module BattleReplay {
  import opened GameTypes
  import opened BattleSpec
  import opened BattleTrace

  // ---- identity is never touched ----

  datatype Identity = Identity(pos: Pos, id: InstanceId, unitId: UnitId, star: Star, maxHp: int)

  function IdentityOf(u: UnitState): Identity {
    Identity(u.pos, u.id, u.unitId, u.star, u.maxHp)
  }

  ghost predicate SameUnits(b: Board, c: Board) {
    b.Keys == c.Keys && forall p <- b :: IdentityOf(b[p]) == IdentityOf(c[p])
  }

  lemma SupportKeepsUnits(b: Board, h: Pos, cycle: int, tick: int)
    requires h in b
    ensures SameUnits(b, SupportEffect(b, h, cycle, tick).board)
  {
  }

  lemma DamageKeepsUnits(b: Board, t: Pos, dmg: int, s: Pos, cycle: int, tick: int)
    requires t in b && s in b
    ensures SameUnits(b, Damage(b, t, dmg, s, cycle, tick).board)
  {
  }

  lemma StrikeKeepsUnits(b: Board, a: Pos, target: Option<Pos>, cycle: int, tick: int)
    requires a in b && (target.Some? ==> target.value in b)
    ensures SameUnits(b, HealerStrike(b, a, target, cycle, tick).board)
  {
    if target.Some? {
      var cleared := ClearSlows(b, b[a].id);
      DamageKeepsUnits(cleared, target.value, AtkFor(Healer, b[a].star), a, cycle, tick);
      SameUnitsThen(b, cleared, HealerStrike(b, a, target, cycle, tick).board);
    }
  }

  lemma SlowKeepsUnits(b: Board, a: Pos, target: Option<Pos>, cycle: int, tick: int)
    requires a in b && (target.Some? ==> target.value in b)
    ensures SameUnits(b, HealerSlow(b, a, target, cycle, tick).board)
  {
  }

  lemma SameUnitsThen(b: Board, c: Board, d: Board)
    requires SameUnits(b, c) && SameUnits(c, d)
    ensures SameUnits(b, d)
  {
  }

  lemma HealerKeepsUnits(b: Board, a: Pos, target: Option<Pos>, cycle: int, tick: int)
    requires a in b && (target.Some? ==> target.value in b)
    ensures SameUnits(b, HealerAct(b, a, target, cycle, tick).board)
  {
    var b1 := HealerStrike(b, a, target, cycle, tick).board;
    var b2 := SupportEffect(b1, a, cycle, tick).board;
    StrikeKeepsUnits(b, a, target, cycle, tick);
    SupportKeepsUnits(b1, a, cycle, tick);
    SlowKeepsUnits(b2, a, target, cycle, tick);
    SameUnitsThen(b, b1, b2);
    SameUnitsThen(b, b2, HealerSlow(b2, a, target, cycle, tick).board);
  }

  lemma ActKeepsUnits(b: Board, layout: seq<Pos>, a: Pos, cycle: int, tick: int)
    requires a in b
    ensures SameUnits(b, UnitAct(b, layout, a, cycle, tick).board)
  {
    var target := Target(b, layout, a);
    if b[a].unitId.Healer? {
      HealerKeepsUnits(b, a, target, cycle, tick);
    } else if target.Some? {
      DamageKeepsUnits(b, target.value, AtkFor(b[a].unitId, b[a].star), a, cycle, tick);
    }
  }

  lemma {:induction false} RunKeepsUnits(b: Board, layout: seq<Pos>, acts: seq<Act>)
    requires Run(b, LegalBy(layout), acts)
    ensures SameUnits(b, After(b, acts))
    decreases |acts|
  {
    if acts != [] {
      var k := |acts| - 1;
      RunSplit(b, LegalBy(layout), acts, k);
      RunKeepsUnits(b, layout, acts[..k]);
      if acts[k].actor.Some? {
        ActKeepsUnits(acts[k].pre, layout, acts[k].actor.value, acts[k].cycle, acts[k].tick);
      }
    }
  }

  // ---- replaying events ----

  /** What the events determine about a unit. */
  datatype Vital = Vital(hp: int, alive: bool)

  type View = map<Pos, Vital>

  function PosOf(w: Who): Pos { Pos(w.side, w.slot) }

  function SetHp(v: View, w: Who, hp: int): View {
    if PosOf(w) in v then v[PosOf(w) := v[PosOf(w)].(hp := hp)] else v
  }

  function GiveHp(v: View, w: Who, amount: int): View {
    if PosOf(w) in v then SetHp(v, w, v[PosOf(w)].hp + amount) else v
  }

  function TakeHp(v: View, w: Who, damage: int): View {
    if PosOf(w) in v then SetHp(v, w, Max(0, v[PosOf(w)].hp - damage)) else v
  }

  /** An event tells the hit points that it leaves, and how many it takes or gives. */
  datatype Reading = ByHpAfter | ByAmount

  /** Redoes one event, keyed by side and slot only, by either of the two readings. */
  function Redo(how: Reading, v: View, e: Event): View {
    match e
    case Attack(_, _, _, target, damage, hpAfter) =>
      if how.ByHpAfter? then SetHp(v, target, hpAfter) else TakeHp(v, target, damage)
    case Revive(_, _, unit, hpAfter) => SetHp(v, unit, hpAfter)
    case Heal(_, _, target, _, amount, hpAfter) =>
      if how.ByHpAfter? then SetHp(v, target, hpAfter) else GiveHp(v, target, amount)
    case Lifesteal(_, _, unit, amount, hpAfter) =>
      if how.ByHpAfter? then SetHp(v, unit, hpAfter) else GiveHp(v, unit, amount)
    case Pierce(_, _, _, target, damage) => TakeHp(v, target, damage)
    case Death(_, _, unit) =>
      if PosOf(unit) in v then v[PosOf(unit) := v[PosOf(unit)].(alive := false)] else v
    case _ => v
  }

  function Replay(how: Reading, v: View, events: seq<Event>): View
    decreases |events|
  {
    if events == [] then v else Replay(how, Redo(how, v, events[0]), events[1..])
  }

  function ViewOf(b: Board): View {
    map p | p in b :: Vital(b[p].hp, b[p].alive)
  }

  lemma {:induction false} ReplayConcat(how: Reading, v: View, x: seq<Event>, y: seq<Event>)
    ensures Replay(how, v, x + y) == Replay(how, Replay(how, v, x), y)
    decreases |x|
  {
    if x == [] {
      assert x + y == y;
    } else {
      assert (x + y)[1..] == x[1..] + y;
      ReplayConcat(how, Redo(how, v, x[0]), x[1..], y);
    }
  }

  lemma ReplayOne(how: Reading, v: View, e: Event)
    ensures Replay(how, v, [e]) == Redo(how, v, e)
  {
    assert [e][1..] == [];
  }

  lemma ReplayTwo(how: Reading, v: View, e: Event, f: Event)
    ensures Replay(how, v, [e, f]) == Redo(how, Redo(how, v, e), f)
  {
    assert [e, f][1..] == [f];
    ReplayOne(how, Redo(how, v, e), f);
  }

  ghost predicate Replays(how: Reading, b: Board, o: Outcome) {
    Replay(how, ViewOf(b), o.events) == ViewOf(o.board)
  }

  lemma ThenReplays(how: Reading, b: Board, o1: Outcome, o2: Outcome)
    requires Replays(how, b, o1) && Replays(how, o1.board, o2)
    ensures Replays(how, b, Outcome(o2.board, o1.events + o2.events))
  {
    ReplayConcat(how, ViewOf(b), o1.events, o2.events);
  }

  lemma DamageReplays(how: Reading, b: Board, t: Pos, dmg: int, s: Pos, cycle: int, tick: int)
    requires Placed(b) && t in b && s in b
    ensures Replays(how, b, Damage(b, t, dmg, s, cycle, tick))
  {
    var o := Damage(b, t, dmg, s, cycle, tick);
    if |o.events| == 1 {
      ReplayOne(how, ViewOf(b), o.events[0]);
    } else {
      ReplayTwo(how, ViewOf(b), o.events[0], o.events[1]);
    }
  }

  lemma PierceReplays(how: Reading, b: Board, r: Pos, t: Pos, dmg: int, cycle: int, tick: int)
    requires Placed(b) && r in b && t in b
    ensures Replays(how, b, PierceEffect(b, r, t, dmg, cycle, tick))
  {
    var o := PierceEffect(b, r, t, dmg, cycle, tick);
    if |o.events| == 1 {
      ReplayOne(how, ViewOf(b), o.events[0]);
    } else if |o.events| == 2 {
      ReplayTwo(how, ViewOf(b), o.events[0], o.events[1]);
    }
  }

  lemma HealReplays(how: Reading, b: Board, t: Pos, h: Pos, cycle: int, tick: int)
    requires Placed(b) && t in b && h in b
    ensures Replays(how, b, HealEffect(b, t, h, cycle, tick))
  {
    var o := HealEffect(b, t, h, cycle, tick);
    if o.events != [] {
      ReplayOne(how, ViewOf(b), o.events[0]);
    }
  }

  lemma SupportReplays(how: Reading, b: Board, h: Pos, cycle: int, tick: int)
    requires Placed(b) && h in b
    ensures Replays(how, b, SupportEffect(b, h, cycle, tick))
  {
    var first := Leader(b, h.side, WeakestAlly(None));
    var o1 := if first.Some? then HealEffect(b, first.value, h, cycle, tick) else Outcome(b, []);
    if first.Some? {
      HealReplays(how, b, first.value, h, cycle, tick);
    }
    if b[h].star == 2 {
      var second := Leader(o1.board, h.side, WeakestAlly(first));
      if second.Some? {
        HealReplays(how, o1.board, second.value, h, cycle, tick);
        ThenReplays(how, b, o1, HealEffect(o1.board, second.value, h, cycle, tick));
      }
    }
  }

  lemma ClearKeepsView(b: Board, healer: InstanceId)
    ensures ViewOf(ClearSlows(b, healer)) == ViewOf(b)
    ensures Placed(b) ==> Placed(ClearSlows(b, healer))
  {
  }

  lemma StrikeReplays(how: Reading, b: Board, a: Pos, target: Option<Pos>, cycle: int, tick: int)
    requires Placed(b) && a in b && (target.Some? ==> target.value in b)
    ensures Replays(how, b, HealerStrike(b, a, target, cycle, tick))
    ensures Placed(HealerStrike(b, a, target, cycle, tick).board)
  {
    if target.Some? {
      var cleared := ClearSlows(b, b[a].id);
      ClearKeepsView(b, b[a].id);
      DamageReplays(how, cleared, target.value, AtkFor(Healer, b[a].star), a, cycle, tick);
    }
  }

  lemma SlowReplays(how: Reading, b: Board, a: Pos, target: Option<Pos>, cycle: int, tick: int)
    requires a in b && (target.Some? ==> target.value in b)
    ensures Replays(how, b, HealerSlow(b, a, target, cycle, tick))
  {
    var o := HealerSlow(b, a, target, cycle, tick);
    assert ViewOf(o.board) == ViewOf(b);
    if o.events != [] {
      ReplayOne(how, ViewOf(b), o.events[0]);
    }
  }

  lemma HealerReplays(how: Reading, b: Board, a: Pos, target: Option<Pos>, cycle: int, tick: int)
    requires Placed(b) && a in b && (target.Some? ==> target.value in b)
    ensures Replays(how, b, HealerAct(b, a, target, cycle, tick))
  {
    var o1 := HealerStrike(b, a, target, cycle, tick);
    var o2 := SupportEffect(o1.board, a, cycle, tick);
    StrikeReplays(how, b, a, target, cycle, tick);
    SupportReplays(how, o1.board, a, cycle, tick);
    ThenReplays(how, b, o1, o2);
    SlowReplays(how, o2.board, a, target, cycle, tick);
    ThenReplays(how, b, Outcome(o2.board, o1.events + o2.events), HealerSlow(o2.board, a, target, cycle, tick));
  }

  lemma LifestealReplays(how: Reading, b: Board, f: Pos, dmg: int, cycle: int, tick: int)
    requires Placed(b) && f in b
    ensures Replays(how, b, LifestealEffect(b, f, dmg, cycle, tick))
  {
    ReplayOne(how, ViewOf(b), LifestealEffect(b, f, dmg, cycle, tick).events[0]);
  }

  lemma DamageKeepsPlaces(b: Board, t: Pos, dmg: int, s: Pos, cycle: int, tick: int)
    requires Placed(b) && t in b && s in b
    ensures Placed(Damage(b, t, dmg, s, cycle, tick).board)
  {
  }

  lemma FighterReplays(how: Reading, b: Board, a: Pos, t: Pos, cycle: int, tick: int)
    requires Placed(b) && a in b && t in b
    ensures Replays(how, b, FighterAct(b, a, t, cycle, tick))
  {
    var dmg := AtkFor(Fighter, b[a].star);
    var o1 := Damage(b, t, dmg, a, cycle, tick);
    DamageReplays(how, b, t, dmg, a, cycle, tick);
    DamageKeepsPlaces(b, t, dmg, a, cycle, tick);
    LifestealReplays(how, o1.board, a, dmg, cycle, tick);
    ThenReplays(how, b, o1, LifestealEffect(o1.board, a, dmg, cycle, tick));
  }

  lemma RangerReplays(how: Reading, b: Board, a: Pos, t: Pos, cycle: int, tick: int)
    requires Placed(b) && a in b && t in b
    ensures Replays(how, b, RangerAct(b, a, t, cycle, tick))
  {
    var dmg := AtkFor(Ranger, b[a].star);
    var o1 := Damage(b, t, dmg, a, cycle, tick);
    DamageReplays(how, b, t, dmg, a, cycle, tick);
    DamageKeepsPlaces(b, t, dmg, a, cycle, tick);
    PierceReplays(how, o1.board, a, t, dmg, cycle, tick);
    ThenReplays(how, b, o1, PierceEffect(o1.board, a, t, dmg, cycle, tick));
  }

  lemma ActReplays(how: Reading, b: Board, layout: seq<Pos>, a: Pos, cycle: int, tick: int)
    requires Placed(b) && a in b
    ensures Replays(how, b, UnitAct(b, layout, a, cycle, tick))
  {
    var target := Target(b, layout, a);
    if b[a].unitId.Healer? {
      HealerReplays(how, b, a, target, cycle, tick);
    } else if target.Some? {
      if b[a].unitId.Fighter? {
        FighterReplays(how, b, a, target.value, cycle, tick);
      } else if b[a].unitId.Ranger? {
        RangerReplays(how, b, a, target.value, cycle, tick);
      } else {
        DamageReplays(how, b, target.value, AtkFor(Tank, b[a].star), a, cycle, tick);
      }
    }
  }

  lemma {:induction false} AllEventsSnoc(acts: seq<Act>, k: nat)
    requires k < |acts|
    ensures AllEvents(acts[..k + 1]) == AllEvents(acts[..k]) + acts[k].events
    decreases k
  {
    if k == 0 {
      assert acts[..1] == [acts[0]] && acts[..1][1..] == [] && acts[..0] == [];
    } else {
      AllEventsSnoc(acts[1..], k - 1);
      assert acts[..k + 1][1..] == acts[1..][..k] && acts[..k][1..] == acts[1..][..k - 1];
    }
  }

  lemma LegalActReplays(how: Reading, act: Act, layout: seq<Pos>)
    requires Placed(act.pre) && Legit(layout, act)
    ensures Replay(how, ViewOf(act.pre), act.events) == ViewOf(act.post)
  {
    if act.actor.Some? {
      ActReplays(how, act.pre, layout, act.actor.value, act.cycle, act.tick);
    } else {
      ReplayOne(how, ViewOf(act.pre), act.events[0]);
    }
  }

  lemma SameUnitsPlaced(b: Board, c: Board)
    requires Placed(b) && SameUnits(b, c)
    ensures Placed(c)
  {
    forall p <- c ensures c[p].pos == p {
      assert IdentityOf(b[p]) == IdentityOf(c[p]);
    }
  }

  /**
   * Redoing the events up to any act boundary yields exactly the board at that boundary, by
   * the hit points that they tell as well as by the damage and the healing that they tell.
   */
  lemma {:induction false} RunReplays(how: Reading, b: Board, layout: seq<Pos>, acts: seq<Act>, k: nat)
    requires Placed(b) && Run(b, LegalBy(layout), acts) && k <= |acts|
    ensures Replay(how, ViewOf(b), AllEvents(acts[..k])) == ViewOf(After(b, acts[..k]))
    decreases k
  {
    if k > 0 {
      var act := acts[k - 1];
      RunSplit(b, LegalBy(layout), acts, k - 1);
      RunReplays(how, b, layout, acts, k - 1);
      RunKeepsUnits(b, layout, acts[..k - 1]);
      SameUnitsPlaced(b, act.pre);
      AllEventsSnoc(acts, k - 1);
      ReplayConcat(how, ViewOf(b), AllEvents(acts[..k - 1]), act.events);
      LegalActReplays(how, act, layout);
    }
  }
}
