/** Life cycle of units: hit points, deaths, revives, and who may be named by an event. */
module BattleLife {
  import opened GameTypes
  import opened BattleSpec
  import opened BattleTrace
  import opened BattleReplay

  ghost predicate Fit(u: UnitState) {
    && 0 <= u.hp <= u.maxHp
    && (u.alive <==> u.hp > 0)
    && (u.unitId.Tank? && u.star >= 1 ==> u.maxHp >= 2)
  }

  ghost predicate AllFit(b: Board) {
    Placed(b) && forall p <- b :: Fit(b[p])
  }

  /** A hit keeps a unit fit, unless it revives a tank of one hit point (see below). */
  lemma HurtKeepsFit(u: UnitState, dmg: int)
    requires Fit(u) && u.alive && dmg >= 0
    ensures Fit(Hurt(u, dmg))
  {
  }

  /**
   * For any tank the revive is sound exactly when it has two or more hit points at most:
   * below that the revived tank stands alive with no hit points.
   */
  lemma ReviveSoundIff(u: UnitState, dmg: int)
    requires 0 <= u.hp <= u.maxHp && (u.alive <==> u.hp > 0) && u.alive && Revives(u, dmg)
    ensures Hurt(u, dmg).alive
    ensures Hurt(u, dmg).hp > 0 <==> u.maxHp >= 2
  {
  }

  // ---- counting deaths and revives ----

  datatype Fate = Dies | ComesBack

  predicate Marks(e: Event, fate: Fate, p: Pos) {
    if fate.Dies? then e.Death? && PosOf(e.unit) == p else e.Revive? && PosOf(e.unit) == p
  }

  function Tally(events: seq<Event>, fate: Fate, p: Pos): nat {
    if events == [] then 0 else (if Marks(events[0], fate, p) then 1 else 0) + Tally(events[1..], fate, p)
  }

  lemma {:induction false} TallyConcat(x: seq<Event>, y: seq<Event>, fate: Fate, p: Pos)
    ensures Tally(x + y, fate, p) == Tally(x, fate, p) + Tally(y, fate, p)
    decreases |x|
  {
    if x == [] {
      assert x + y == y;
    } else {
      assert (x + y)[1..] == x[1..] + y;
      TallyConcat(x[1..], y, fate, p);
    }
  }

  /** How far a unit is from a fate that it meets at most once: 1 before, 0 after. */
  function Left(u: UnitState, fate: Fate): int {
    if fate.Dies? then (if u.alive then 1 else 0) else (if u.revived then 0 else 1)
  }

  ghost predicate Accounts(b: Board, o: Outcome) {
    && b.Keys == o.board.Keys
    && forall p, fate {:trigger Tally(o.events, fate, p)} ::
      Tally(o.events, fate, p) == if p in b then Left(b[p], fate) - Left(o.board[p], fate) else 0
  }

  lemma ThenAccounts(b: Board, o1: Outcome, o2: Outcome)
    requires Accounts(b, o1) && Accounts(o1.board, o2)
    ensures Accounts(b, Outcome(o2.board, o1.events + o2.events))
  {
    forall p, fate
      ensures Tally(o1.events + o2.events, fate, p)
           == if p in b then Left(b[p], fate) - Left(o2.board[p], fate) else 0
    {
      TallyConcat(o1.events, o2.events, fate, p);
    }
  }

  lemma TallyTwo(e: Event, f: Event, fate: Fate, p: Pos)
    ensures Tally([e], fate, p) == if Marks(e, fate, p) then 1 else 0
    ensures Tally([e, f], fate, p) == (if Marks(e, fate, p) then 1 else 0) + (if Marks(f, fate, p) then 1 else 0)
  {
    assert [e][1..] == [] && [f][1..] == [];
    assert [e, f][1..] == [f];
    assert Tally([f], fate, p) == if Marks(f, fate, p) then 1 else 0;
  }

  lemma ShortAccounts(b: Board, o: Outcome)
    requires b.Keys == o.board.Keys && 1 <= |o.events| <= 2
    requires forall p, fate {:trigger Marks(o.events[0], fate, p)} ::
      (if Marks(o.events[0], fate, p) then 1 else 0)
      + (if |o.events| == 2 && Marks(o.events[1], fate, p) then 1 else 0)
      == if p in b then Left(b[p], fate) - Left(o.board[p], fate) else 0
    ensures Accounts(b, o)
  {
    forall p, fate
      ensures Tally(o.events, fate, p)
           == if p in b then Left(b[p], fate) - Left(o.board[p], fate) else 0
    {
      var e := o.events[0];
      var f := o.events[|o.events| - 1];
      TallyTwo(e, f, fate, p);
      assert o.events == [e] || o.events == [e, f];
      assert Marks(e, fate, p) || !Marks(e, fate, p);
    }
  }

  // ---- what one act does ----

  function Named(e: Event): set<Pos> {
    match e
    case Attack(_, _, attacker, target, _, _) => {PosOf(attacker), PosOf(target)}
    case Death(_, _, unit) => {PosOf(unit)}
    case Revive(_, _, unit, _) => {PosOf(unit)}
    case Heal(_, _, target, healer, _, _) => {PosOf(target), PosOf(healer)}
    case Lifesteal(_, _, unit, _, _) => {PosOf(unit)}
    case Pierce(_, _, attacker, target, _) => {PosOf(attacker), PosOf(target)}
    case Slow(_, _, target, healer) => {PosOf(target), PosOf(healer)}
    case _ => {}
  }

  ghost predicate NamesOnly(events: seq<Event>, squares: set<Pos>) {
    forall e <- events :: Named(e) <= squares
  }

  /** Heals and lifesteals reach their own side; every other event lands on the enemy. */
  predicate Directed(e: Event, side: Side) {
    match e
    case Attack(_, _, attacker, target, _, _) => attacker.side == side && target.side == side.Other()
    case Death(_, _, unit) => unit.side == side.Other()
    case Revive(_, _, unit, hpAfter) => unit.side == side.Other() && unit.unitId.Tank? && unit.star >= 1
    case Heal(_, _, target, healer, _, _) => target.side == side && healer.side == side
    case Lifesteal(_, _, unit, _, _) => unit.side == side
    case Pierce(_, _, attacker, target, _) => attacker.side == side && target.side == side.Other()
    case Slow(_, _, target, healer) => target.side == side.Other() && healer.side == side
    case _ => false
  }

  ghost predicate AllDirected(events: seq<Event>, side: Side) {
    forall e <- events :: Directed(e, side)
  }

  ghost function Living(b: Board): set<Pos> {
    set p | p in b && b[p].alive
  }

  /** An act of side `side` keeps units fit, harms nobody of that side and names the living. */
  ghost predicate Fair(b: Board, o: Outcome, side: Side, named: set<Pos>) {
    && AllFit(o.board)
    && Accounts(b, o)
    && (forall p <- b :: p.side == side ==> o.board[p].alive == b[p].alive && o.board[p].hp >= b[p].hp)
    && (forall p <- b :: o.board[p].alive ==> b[p].alive)
    && NamesOnly(o.events, named)
    && AllDirected(o.events, side)
  }

  lemma ThenFair(b: Board, o1: Outcome, o2: Outcome, side: Side, named: set<Pos>)
    requires Fair(b, o1, side, named) && Fair(o1.board, o2, side, named)
    ensures Fair(b, Outcome(o2.board, o1.events + o2.events), side, named)
  {
    ThenAccounts(b, o1, o2);
  }

  lemma DamageFair(b: Board, t: Pos, dmg: int, s: Pos, cycle: int, tick: int, named: set<Pos>)
    requires AllFit(b) && t in b && s in b && t.side == s.side.Other() && b[t].alive && dmg >= 0
    requires {s, t} <= named
    ensures Fair(b, Damage(b, t, dmg, s, cycle, tick), s.side, named)
  {
    var o := Damage(b, t, dmg, s, cycle, tick);
    HurtKeepsFit(b[t], dmg);
    ShortAccounts(b, o);
  }

  lemma LifestealFair(b: Board, f: Pos, dmg: int, cycle: int, tick: int, named: set<Pos>)
    requires AllFit(b) && f in b && b[f].alive && f in named
    ensures Fair(b, LifestealEffect(b, f, dmg, cycle, tick), f.side, named)
  {
    ShortAccounts(b, LifestealEffect(b, f, dmg, cycle, tick));
  }

  lemma PierceFair(b: Board, r: Pos, t: Pos, dmg: int, cycle: int, tick: int, named: set<Pos>)
    requires AllFit(b) && r in b && t in b && dmg >= 0
    requires {r} + Living(b) <= named
    ensures Fair(b, PierceEffect(b, r, t, dmg, cycle, tick), r.side, named)
  {
    var o := PierceEffect(b, r, t, dmg, cycle, tick);
    if o.events != [] {
      ShortAccounts(b, o);
    }
  }

  lemma HealFair(b: Board, t: Pos, h: Pos, cycle: int, tick: int, named: set<Pos>)
    requires AllFit(b) && t in b && h in b && b[t].alive && t.side == h.side && {t, h} <= named
    ensures Fair(b, HealEffect(b, t, h, cycle, tick), h.side, named)
  {
    var o := HealEffect(b, t, h, cycle, tick);
    if o.events != [] {
      ShortAccounts(b, o);
    }
  }

  lemma SupportFair(b: Board, h: Pos, cycle: int, tick: int, named: set<Pos>)
    requires AllFit(b) && h in b && {h} + Living(b) <= named
    ensures Fair(b, SupportEffect(b, h, cycle, tick), h.side, named)
  {
    var first := Leader(b, h.side, WeakestAlly(None));
    var o1 := if first.Some? then HealEffect(b, first.value, h, cycle, tick) else Outcome(b, []);
    if first.Some? {
      HealFair(b, first.value, h, cycle, tick, named);
    }
    if b[h].star == 2 {
      var second := Leader(o1.board, h.side, WeakestAlly(first));
      if second.Some? {
        HealFair(o1.board, second.value, h, cycle, tick, named);
        ThenFair(b, o1, HealEffect(o1.board, second.value, h, cycle, tick), h.side, named);
      }
    }
  }

  lemma StrikeFair(b: Board, a: Pos, target: Option<Pos>, cycle: int, tick: int, named: set<Pos>)
    requires AllFit(b) && a in named && a in b
    requires target.Some? ==>
      target.value in b && target.value.side == a.side.Other() && b[target.value].alive && target.value in named
    ensures Fair(b, HealerStrike(b, a, target, cycle, tick), a.side, named)
  {
    if target.Some? {
      var cleared := ClearSlows(b, b[a].id);
      assert AllFit(cleared);
      DamageFair(cleared, target.value, AtkFor(Healer, b[a].star), a, cycle, tick, named);
      var o := HealerStrike(b, a, target, cycle, tick);
      assert Accounts(cleared, o);
      assert forall p <- b, fate :: Left(b[p], fate) == Left(cleared[p], fate);
    }
  }

  lemma SlowFair(b: Board, a: Pos, target: Option<Pos>, cycle: int, tick: int, named: set<Pos>)
    requires AllFit(b) && a in named && a in b
    requires target.Some? ==> target.value in b && target.value.side == a.side.Other() && target.value in named
    ensures Fair(b, HealerSlow(b, a, target, cycle, tick), a.side, named)
  {
    var o := HealerSlow(b, a, target, cycle, tick);
    if o.events != [] {
      ShortAccounts(b, o);
    }
  }

  lemma HealerFair(b: Board, a: Pos, target: Option<Pos>, cycle: int, tick: int)
    requires AllFit(b) && a in b && b[a].alive
    requires target.Some? ==> target.value in b && target.value.side == a.side.Other() && b[target.value].alive
    ensures Fair(b, HealerAct(b, a, target, cycle, tick), a.side, Living(b))
  {
    var named := Living(b);
    var o1 := HealerStrike(b, a, target, cycle, tick);
    var o2 := SupportEffect(o1.board, a, cycle, tick);
    StrikeFair(b, a, target, cycle, tick, named);
    SupportFair(o1.board, a, cycle, tick, named);
    ThenFair(b, o1, o2, a.side, named);
    SlowFair(o2.board, a, target, cycle, tick, named);
    ThenFair(b, Outcome(o2.board, o1.events + o2.events), HealerSlow(o2.board, a, target, cycle, tick), a.side, named);
  }

  /** One act of a living unit, whatever the board. */
  lemma ActFair(b: Board, layout: seq<Pos>, a: Pos, cycle: int, tick: int)
    requires AllFit(b) && a in b && b[a].alive
    ensures Fair(b, UnitAct(b, layout, a, cycle, tick), a.side, Living(b))
  {
    var target := Target(b, layout, a);
    var named := Living(b);
    if b[a].unitId.Healer? {
      HealerFair(b, a, target, cycle, tick);
    } else if target.Some? {
      var dmg := AtkFor(b[a].unitId, b[a].star);
      var o1 := Damage(b, target.value, dmg, a, cycle, tick);
      DamageFair(b, target.value, dmg, a, cycle, tick, named);
      if b[a].unitId.Fighter? && dmg > 0 && o1.board[a].star >= 1 {
        LifestealFair(o1.board, a, dmg, cycle, tick, named);
        ThenFair(b, o1, LifestealEffect(o1.board, a, dmg, cycle, tick), a.side, named);
      } else if b[a].unitId.Ranger? && o1.board[a].star == 1 {
        PierceFair(o1.board, a, target.value, dmg, cycle, tick, named);
        ThenFair(b, o1, PierceEffect(o1.board, a, target.value, dmg, cycle, tick), a.side, named);
      }
    }
  }

  // ---- over whole runs ----

  lemma {:induction false} RunStaysFit(b: Board, layout: seq<Pos>, acts: seq<Act>, k: nat)
    requires AllFit(b) && Run(b, LegalBy(layout), acts) && k <= |acts|
    ensures AllFit(After(b, acts[..k]))
    decreases k
  {
    if k > 0 {
      RunStaysFit(b, layout, acts, k - 1);
      RunSplit(b, LegalBy(layout), acts, k - 1);
      var act := acts[k - 1];
      if act.actor.Some? {
        ActFair(act.pre, layout, act.actor.value, act.cycle, act.tick);
      }
    }
  }

  /** What one act of a run does: a marker does nothing, and a unit's act is fair. */
  ghost predicate FairAct(a: Act) {
    if a.actor.None? then
      a.post == a.pre && |a.events| == 1 && (a.events[0].CycleEnd? || a.events[0].BattleEnd?)
    else
      && AliveIn(a.pre, a.actor.value)
      && Fair(a.pre, Outcome(a.post, a.events), a.actor.value.side, Living(a.pre))
  }

  lemma RunFair(b: Board, layout: seq<Pos>, acts: seq<Act>, k: nat)
    requires AllFit(b) && Run(b, LegalBy(layout), acts) && k < |acts|
    ensures acts[k].pre == After(b, acts[..k]) && acts[k].post == After(b, acts[..k + 1])
    ensures FairAct(acts[k])
  {
    RunStaysFit(b, layout, acts, k);
    RunSplit(b, LegalBy(layout), acts, k);
    var act := acts[k];
    if act.actor.Some? {
      ActFair(act.pre, layout, act.actor.value, act.cycle, act.tick);
    }
  }

  lemma MarkerAccounts(a: Act)
    requires a.actor.None? && FairAct(a)
    ensures Accounts(a.pre, Outcome(a.post, a.events))
  {
    ShortAccounts(a.pre, Outcome(a.post, a.events));
  }

  /** Deaths and revives are conserved: the log shows each exactly when the board says so. */
  lemma {:induction false} RunAccounts(b: Board, layout: seq<Pos>, acts: seq<Act>, k: nat)
    requires AllFit(b) && Run(b, LegalBy(layout), acts) && k <= |acts|
    ensures Accounts(b, Outcome(After(b, acts[..k]), AllEvents(acts[..k])))
    decreases k
  {
    if k > 0 {
      RunAccounts(b, layout, acts, k - 1);
      RunFair(b, layout, acts, k - 1);
      AllEventsSnoc(acts, k - 1);
      var act := acts[k - 1];
      if act.actor.None? {
        MarkerAccounts(act);
      }
      ThenAccounts(b, Outcome(act.pre, AllEvents(acts[..k - 1])), Outcome(act.post, act.events));
    }
  }

  /** At most one death and at most one revive per unit, and the board tells which happened. */
  lemma AtMostOnce(b: Board, layout: seq<Pos>, acts: seq<Act>, p: Pos)
    requires AllFit(b) && Run(b, LegalBy(layout), acts) && p in b
    ensures p in After(b, acts)
    ensures Tally(AllEvents(acts), Dies, p) <= 1 && Tally(AllEvents(acts), ComesBack, p) <= 1
    ensures Tally(AllEvents(acts), Dies, p) == 1 <==> b[p].alive && !After(b, acts)[p].alive
    ensures Tally(AllEvents(acts), ComesBack, p) == 1 <==> !b[p].revived && After(b, acts)[p].revived
  {
    assert acts[..|acts|] == acts;
    RunAccounts(b, layout, acts, |acts|);
    assert Tally(AllEvents(acts), Dies, p) == Left(b[p], Dies) - Left(After(b, acts)[p], Dies);
    assert Tally(AllEvents(acts), ComesBack, p) == Left(b[p], ComesBack) - Left(After(b, acts)[p], ComesBack);
  }

  /** The dead stay dead ... */
  lemma {:induction false} DeadStayDead(b: Board, layout: seq<Pos>, acts: seq<Act>, i: nat, j: nat, p: Pos)
    requires AllFit(b) && Run(b, LegalBy(layout), acts) && i <= j <= |acts|
    requires !AliveIn(After(b, acts[..i]), p)
    ensures !AliveIn(After(b, acts[..j]), p)
    decreases j
  {
    if i < j {
      DeadStayDead(b, layout, acts, i, j - 1, p);
      RunFair(b, layout, acts, j - 1);
    }
  }

  /** ... and are left alone: no later act is theirs, and no event of a later act names them. */
  lemma DeadAreLeftAlone(b: Board, layout: seq<Pos>, acts: seq<Act>, i: nat, j: nat, p: Pos)
    requires AllFit(b) && Run(b, LegalBy(layout), acts) && i <= j < |acts|
    requires !AliveIn(After(b, acts[..i]), p)
    ensures acts[j].actor != Some(p)
    ensures forall e <- acts[j].events :: p !in Named(e)
  {
    DeadStayDead(b, layout, acts, i, j, p);
    RunFair(b, layout, acts, j);
  }

  ghost predicate SomeLiving(b: Board) {
    HasLiving(b, P1) || HasLiving(b, P2)
  }

  /** Mutual wipe is impossible. */
  lemma {:induction false} NeverBothWiped(b: Board, layout: seq<Pos>, acts: seq<Act>, k: nat)
    requires AllFit(b) && Run(b, LegalBy(layout), acts) && k <= |acts| && SomeLiving(b)
    ensures SomeLiving(After(b, acts[..k]))
    decreases k
  {
    if k > 0 {
      NeverBothWiped(b, layout, acts, k - 1);
      RunFair(b, layout, acts, k - 1);
      var act := acts[k - 1];
      assert act.actor.Some? ==> AliveIn(act.post, act.actor.value);
    }
  }

  lemma ActorLives(layout: seq<Pos>, act: Act)
    requires Legit(layout, act)
    ensures act.actor.Some? ==> SomeLiving(act.pre)
  {
    if act.actor.Some? {
      assert HasLiving(act.pre, act.actor.value.side);
    }
  }

  lemma {:induction false} DeadBoardStaysDead(b: Board, layout: seq<Pos>, acts: seq<Act>, k: nat)
    requires AllFit(b) && Run(b, LegalBy(layout), acts) && k <= |acts| && !SomeLiving(b)
    ensures !SomeLiving(After(b, acts[..k]))
    decreases k
  {
    if k > 0 {
      DeadBoardStaysDead(b, layout, acts, k - 1);
      RunFair(b, layout, acts, k - 1);
      var act := acts[k - 1];
      ActorLives(layout, act);
    }
  }

  lemma CycleKeepsHope(b: Board, layout: seq<Pos>, initSide: Side, cycle: int)
    requires AllFit(b)
    ensures
      var end := After(b, RunCycle(b, layout, initSide, cycle));
      AllFit(end) && (SomeLiving(end) <==> SomeLiving(b))
  {
    var acts := RunCycle(b, layout, initSide, cycle);
    CycleRuns(b, LegalBy(layout), layout, initSide, cycle);
    assert acts[..|acts|] == acts;
    RunStaysFit(b, layout, acts, |acts|);
    if SomeLiving(b) {
      NeverBothWiped(b, layout, acts, |acts|);
    } else {
      DeadBoardStaysDead(b, layout, acts, |acts|);
    }
  }

  /**
   * The last event is a battle_end. It names side s exactly when s has a living unit and the
   * other side has none; it names nobody exactly when both sides outlive cycle 30 or when
   * neither side had a living unit to begin with.
   */
  ghost predicate FairVerdict(hope: bool, last: Act) {
    && |last.events| == 1 && last.events[0].BattleEnd? && last.events[0].cycle <= 30
    && (forall s :: last.events[0].winner == Some(s) <==>
      HasLiving(last.post, s) && !HasLiving(last.post, s.Other()))
    && (last.events[0].winner == None <==>
      !hope || (HasLiving(last.post, P1) && HasLiving(last.post, P2) && last.events[0].cycle == 30))
  }

  ghost predicate ClosedBy(hope: bool, acts: seq<Act>) {
    acts != [] && FairVerdict(hope, acts[|acts| - 1])
  }

  lemma ClosedConcat(hope: bool, x: seq<Act>, y: seq<Act>)
    requires ClosedBy(hope, y)
    ensures ClosedBy(hope, x + y)
  {
    assert (x + y)[|x + y| - 1] == y[|y| - 1];
  }

  lemma LastCycleCloses(b: Board, layout: seq<Pos>, initSide: Side, cycle: int, hope: bool)
    requires AllFit(b) && 1 <= cycle <= MAX_CYCLES && hope == SomeLiving(b)
    requires var end := After(b, RunCycle(b, layout, initSide, cycle)); Decided(end) || cycle == MAX_CYCLES
    ensures ClosedBy(hope, RunCycles(b, layout, initSide, cycle))
  {
    var end := After(b, RunCycle(b, layout, initSide, cycle));
    CycleKeepsHope(b, layout, initSide, cycle);
    assert FairVerdict(hope, Marker(end, cycle, BattleEnd(cycle, if Decided(end) then WinnerOf(end) else None)));
  }

  lemma {:induction false} WinnerIsSurvivor(b: Board, layout: seq<Pos>, initSide: Side, cycle: int, hope: bool)
    requires AllFit(b) && 1 <= cycle <= MAX_CYCLES && hope == SomeLiving(b)
    ensures ClosedBy(hope, RunCycles(b, layout, initSide, cycle))
    decreases MAX_CYCLES - cycle
  {
    var acts := RunCycle(b, layout, initSide, cycle);
    var end := After(b, acts);
    if Decided(end) || cycle == MAX_CYCLES {
      LastCycleCloses(b, layout, initSide, cycle, hope);
    } else {
      CycleKeepsHope(b, layout, initSide, cycle);
      WinnerIsSurvivor(end, layout, initSide, cycle + 1, hope);
      ClosedConcat(hope, acts, RunCycles(end, layout, initSide, cycle + 1));
      MoreCycles(b, layout, initSide, cycle);
    }
  }
}
