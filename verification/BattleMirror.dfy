/** The game is side-symmetric: mirrored boards fight the mirrored battle. */
module BattleMirror {
  import opened GameTypes
  import opened BattleSpec
  import opened BattleTrace

  function Flip(p: Pos): Pos { Pos(p.side.Other(), p.slot) }

  function FlipOption(o: Option<Pos>): Option<Pos> {
    match o case None => None case Some(p) => Some(Flip(p))
  }

  function FlipAll(s: seq<Pos>): (r: seq<Pos>)
    ensures |r| == |s|
  {
    seq(|s|, i requires 0 <= i < |s| => Flip(s[i]))
  }

  function MirrorUnit(u: UnitState): UnitState { u.(pos := Flip(u.pos)) }

  /** The n-th of the 18 squares. */
  function Square(n: nat): Pos
    requires n < 18
  {
    if n < 9 then Pos(P1, n) else Pos(P2, n - 9)
  }

  /** The units of the first n squares of b, each moved to the other side. */
  function Mirror(b: Board, n: nat := 18): Board
    requires n <= 18
    decreases n, b
  {
    if n == 0 then map[]
    else if Square(n - 1) in b then Mirror(b, n - 1)[Flip(Square(n - 1)) := MirrorUnit(b[Square(n - 1)])]
    else Mirror(b, n - 1)
  }

  function SquareNo(p: Pos): nat { if p.side.P1? then p.slot else 9 + p.slot }

  lemma {:induction false} MirrorUpTo(b: Board, n: nat, p: Pos)
    requires n <= 18
    ensures Flip(p) in Mirror(b, n) <==> p in b && SquareNo(p) < n
    ensures p in b && SquareNo(p) < n ==> Mirror(b, n)[Flip(p)] == MirrorUnit(b[p])
  {
    if n > 0 {
      MirrorUpTo(b, n - 1, p);
      assert Square(n - 1) == p <==> SquareNo(p) == n - 1;
      assert Flip(Flip(p)) == p && Flip(Flip(Square(n - 1))) == Square(n - 1);
    }
  }

  lemma MirrorAt(b: Board, p: Pos)
    ensures Flip(p) in Mirror(b) <==> p in b
    ensures p in b ==> Mirror(b)[Flip(p)] == MirrorUnit(b[p])
  {
    MirrorUpTo(b, 18, p);
  }

  lemma MirrorUpdate(b: Board, p: Pos, u: UnitState)
    requires p in b
    ensures Mirror(b[p := u]) == Mirror(b)[Flip(p) := MirrorUnit(u)]
  {
    var x, y := Mirror(b[p := u]), Mirror(b)[Flip(p) := MirrorUnit(u)];
    forall q: Pos
      ensures q in x <==> q in y
      ensures q in x ==> x[q] == y[q]
    {
      var f := Flip(q);
      assert Flip(f) == q;
      MirrorAt(b[p := u], f);
      MirrorAt(b, f);
    }
  }

  function MirrorWho(w: Who): Who { w.(side := w.side.Other()) }

  function OtherOption(s: Option<Side>): Option<Side> {
    match s case None => None case Some(x) => Some(x.Other())
  }

  function MirrorEvent(e: Event): Event {
    match e
    case Attack(c, k, a, t, damage, hp) => Attack(c, k, MirrorWho(a), MirrorWho(t), damage, hp)
    case Death(c, k, u) => Death(c, k, MirrorWho(u))
    case Revive(c, k, u, hp) => Revive(c, k, MirrorWho(u), hp)
    case Heal(c, k, t, h, amount, hp) => Heal(c, k, MirrorWho(t), MirrorWho(h), amount, hp)
    case Lifesteal(c, k, u, amount, hp) => Lifesteal(c, k, MirrorWho(u), amount, hp)
    case Pierce(c, k, a, t, damage) => Pierce(c, k, MirrorWho(a), MirrorWho(t), damage)
    case Slow(c, k, t, h) => Slow(c, k, MirrorWho(t), MirrorWho(h))
    case CycleEnd(c) => CycleEnd(c)
    case BattleEnd(c, w) => BattleEnd(c, OtherOption(w))
  }

  function MirrorEvents(events: seq<Event>): (r: seq<Event>)
    ensures |r| == |events|
  {
    seq(|events|, i requires 0 <= i < |events| => MirrorEvent(events[i]))
  }

  lemma MirrorEventsConcat(x: seq<Event>, y: seq<Event>)
    ensures MirrorEvents(x + y) == MirrorEvents(x) + MirrorEvents(y)
  {
  }

  lemma MirrorShort(e: Event, f: Event)
    ensures MirrorEvents([]) == []
    ensures MirrorEvents([e]) == [MirrorEvent(e)]
    ensures MirrorEvents([e, f]) == [MirrorEvent(e), MirrorEvent(f)]
  {
  }

  function MirrorOutcome(o: Outcome): Outcome {
    Outcome(Mirror(o.board), MirrorEvents(o.events))
  }

  // ---- choices ----

  function MirrorCriterion(c: Criterion): Criterion {
    match c case WeakestAlly(x) => WeakestAlly(FlipOption(x)) case _ => c
  }

  lemma {:induction false} LeaderMirror(b: Board, side: Side, c: Criterion, n: nat)
    requires n <= 9
    ensures Leader(Mirror(b), side.Other(), MirrorCriterion(c), n) == FlipOption(Leader(b, side, c, n))
  {
    if n > 0 {
      LeaderMirror(b, side, c, n - 1);
      var p := Pos(side, n - 1);
      MirrorAt(b, p);
      var rest := Leader(b, side, c, n - 1);
      if rest.Some? {
        MirrorAt(b, rest.value);
      }
      if p in b {
        assert Flip(b[p].pos).side.Other() == b[p].pos.side;
        assert Eligible(MirrorCriterion(c), MirrorUnit(b[p])) == Eligible(c, b[p]);
      }
    }
  }

  lemma {:induction false} FirstTank2Mirror(b: Board, layout: seq<Pos>, side: Side)
    ensures FirstTank2(Mirror(b), FlipAll(layout), side.Other()) == FlipOption(FirstTank2(b, layout, side))
    decreases |layout|
  {
    if layout != [] {
      MirrorAt(b, layout[0]);
      assert FlipAll(layout)[1..] == FlipAll(layout[1..]);
      FirstTank2Mirror(b, layout[1..], side);
    }
  }

  lemma TargetMirror(b: Board, layout: seq<Pos>, a: Pos)
    requires a in b
    ensures Flip(a) in Mirror(b)
    ensures Target(Mirror(b), FlipAll(layout), Flip(a)) == FlipOption(Target(b, layout, a))
  {
    MirrorAt(b, a);
    var enemy := a.side.Other();
    LeaderMirror(b, enemy, LowestHp, 9);
    LeaderMirror(b, enemy, OwnLaneFirst(Col(a.slot)), 9);
    FirstTank2Mirror(b, layout, enemy);
  }

  // ---- effects ----

  lemma DamageMirror(b: Board, t: Pos, dmg: int, s: Pos, cycle: int, tick: int)
    requires t in b && s in b
    ensures Flip(t) in Mirror(b) && Flip(s) in Mirror(b)
    ensures Damage(Mirror(b), Flip(t), dmg, Flip(s), cycle, tick) == MirrorOutcome(Damage(b, t, dmg, s, cycle, tick))
  {
    MirrorAt(b, t);
    MirrorAt(b, s);
    var u := Hurt(b[t], dmg);
    assert Hurt(MirrorUnit(b[t]), dmg) == MirrorUnit(u);
    MirrorUpdate(b, t, u);
    MirrorShort(Revive(cycle, tick, WhoOf(u), u.hp), Revive(cycle, tick, WhoOf(u), u.hp));
    var attack := Attack(cycle, tick, WhoOf(b[s]), WhoOf(u), dmg, u.hp);
    MirrorShort(attack, attack);
    MirrorShort(Death(cycle, tick, WhoOf(u)), attack);
  }

  lemma LifestealMirror(b: Board, f: Pos, dmg: int, cycle: int, tick: int)
    requires f in b
    ensures Flip(f) in Mirror(b)
    ensures LifestealEffect(Mirror(b), Flip(f), dmg, cycle, tick) == MirrorOutcome(LifestealEffect(b, f, dmg, cycle, tick))
  {
    MirrorAt(b, f);
    MirrorUpdate(b, f, LifestealEffect(b, f, dmg, cycle, tick).board[f]);
  }

  lemma PierceMirror(b: Board, r: Pos, t: Pos, dmg: int, cycle: int, tick: int)
    requires r in b && t in b
    ensures Flip(r) in Mirror(b) && Flip(t) in Mirror(b)
    ensures PierceEffect(Mirror(b), Flip(r), Flip(t), dmg, cycle, tick)
         == MirrorOutcome(PierceEffect(b, r, t, dmg, cycle, tick))
  {
    MirrorAt(b, r);
    MirrorAt(b, t);
    if Row(t.slot) + 1 <= 2 {
      var p := Pos(r.side.Other(), t.slot + 3);
      assert Flip(p) == Pos(Flip(r).side.Other(), Flip(t).slot + 3);
      MirrorAt(b, p);
      if AliveIn(b, p) {
        var spill := PierceOf(dmg);
        var hp := Max(0, b[p].hp - spill);
        MirrorUpdate(b, p, if hp == 0 then b[p].(hp := 0, alive := false) else b[p].(hp := hp));
        MirrorShort(Pierce(cycle, tick, WhoOf(b[r]), WhoOf(b[p]), spill), Death(cycle, tick, WhoOf(b[p])));
      }
    }
  }

  lemma HealMirror(b: Board, t: Pos, h: Pos, cycle: int, tick: int)
    requires t in b && h in b
    ensures Flip(t) in Mirror(b) && Flip(h) in Mirror(b)
    ensures HealEffect(Mirror(b), Flip(t), Flip(h), cycle, tick) == MirrorOutcome(HealEffect(b, t, h, cycle, tick))
  {
    MirrorAt(b, t);
    MirrorAt(b, h);
    var amount := Min(HEAL_AMOUNT, b[t].maxHp - b[t].hp);
    var u := b[t].(hp := b[t].hp + amount);
    MirrorUpdate(b, t, u);
    var heal := Heal(cycle, tick, WhoOf(u), WhoOf(b[h]), amount, u.hp);
    MirrorShort(heal, heal);
  }

  lemma SupportMirror(b: Board, h: Pos, cycle: int, tick: int)
    requires h in b
    ensures Flip(h) in Mirror(b)
    ensures SupportEffect(Mirror(b), Flip(h), cycle, tick) == MirrorOutcome(SupportEffect(b, h, cycle, tick))
  {
    MirrorAt(b, h);
    var first := Leader(b, h.side, WeakestAlly(None));
    LeaderMirror(b, h.side, WeakestAlly(None), 9);
    var o1 := Outcome(b, []);
    if first.Some? {
      o1 := HealEffect(b, first.value, h, cycle, tick);
      HealMirror(b, first.value, h, cycle, tick);
    }
    if b[h].star == 2 {
      var second := Leader(o1.board, h.side, WeakestAlly(first));
      LeaderMirror(o1.board, h.side, WeakestAlly(first), 9);
      if second.Some? {
        HealMirror(o1.board, second.value, h, cycle, tick);
        MirrorEventsConcat(o1.events, HealEffect(o1.board, second.value, h, cycle, tick).events);
      }
    }
  }

  lemma ClearSlowsMirror(b: Board, healer: InstanceId)
    ensures ClearSlows(Mirror(b), healer) == Mirror(ClearSlows(b, healer))
  {
    var x, y := ClearSlows(Mirror(b), healer), Mirror(ClearSlows(b, healer));
    forall q: Pos
      ensures q in x <==> q in y
      ensures q in x ==> x[q] == y[q]
    {
      assert Flip(Flip(q)) == q;
      MirrorAt(b, Flip(q));
      MirrorAt(ClearSlows(b, healer), Flip(q));
    }
  }

  lemma StrikeMirror(b: Board, a: Pos, target: Option<Pos>, cycle: int, tick: int)
    requires a in b && (target.Some? ==> target.value in b)
    ensures Flip(a) in Mirror(b) && (target.Some? ==> Flip(target.value) in Mirror(b))
    ensures HealerStrike(Mirror(b), Flip(a), FlipOption(target), cycle, tick)
         == MirrorOutcome(HealerStrike(b, a, target, cycle, tick))
  {
    MirrorAt(b, a);
    if target.Some? {
      MirrorAt(b, target.value);
      ClearSlowsMirror(b, b[a].id);
      DamageMirror(ClearSlows(b, b[a].id), target.value, AtkFor(Healer, b[a].star), a, cycle, tick);
    }
  }

  lemma SlowMirror(b: Board, a: Pos, target: Option<Pos>, cycle: int, tick: int)
    requires a in b && (target.Some? ==> target.value in b)
    ensures Flip(a) in Mirror(b) && (target.Some? ==> Flip(target.value) in Mirror(b))
    ensures HealerSlow(Mirror(b), Flip(a), FlipOption(target), cycle, tick)
         == MirrorOutcome(HealerSlow(b, a, target, cycle, tick))
  {
    MirrorAt(b, a);
    if target.Some? {
      MirrorAt(b, target.value);
      MirrorUpdate(b, target.value, Slowed(b[target.value], b[a].id));
    }
  }

  lemma HealerMirror(b: Board, a: Pos, target: Option<Pos>, cycle: int, tick: int)
    requires a in b && (target.Some? ==> target.value in b)
    ensures Flip(a) in Mirror(b) && (target.Some? ==> Flip(target.value) in Mirror(b))
    ensures HealerAct(Mirror(b), Flip(a), FlipOption(target), cycle, tick)
         == MirrorOutcome(HealerAct(b, a, target, cycle, tick))
  {
    var o1 := HealerStrike(b, a, target, cycle, tick);
    var o2 := SupportEffect(o1.board, a, cycle, tick);
    var o3 := HealerSlow(o2.board, a, target, cycle, tick);
    StrikeMirror(b, a, target, cycle, tick);
    SupportMirror(o1.board, a, cycle, tick);
    SlowMirror(o2.board, a, target, cycle, tick);
    MirrorEventsConcat(o1.events, o2.events);
    MirrorEventsConcat(o1.events + o2.events, o3.events);
  }

  lemma FighterMirror(b: Board, a: Pos, t: Pos, cycle: int, tick: int)
    requires a in b && t in b
    ensures Flip(a) in Mirror(b) && Flip(t) in Mirror(b)
    ensures FighterAct(Mirror(b), Flip(a), Flip(t), cycle, tick) == MirrorOutcome(FighterAct(b, a, t, cycle, tick))
  {
    MirrorAt(b, a);
    var dmg := AtkFor(Fighter, b[a].star);
    var o1 := Damage(b, t, dmg, a, cycle, tick);
    DamageMirror(b, t, dmg, a, cycle, tick);
    MirrorAt(o1.board, a);
    LifestealMirror(o1.board, a, dmg, cycle, tick);
    MirrorEventsConcat(o1.events, LifestealEffect(o1.board, a, dmg, cycle, tick).events);
  }

  lemma RangerMirror(b: Board, a: Pos, t: Pos, cycle: int, tick: int)
    requires a in b && t in b
    ensures Flip(a) in Mirror(b) && Flip(t) in Mirror(b)
    ensures RangerAct(Mirror(b), Flip(a), Flip(t), cycle, tick) == MirrorOutcome(RangerAct(b, a, t, cycle, tick))
  {
    MirrorAt(b, a);
    var dmg := AtkFor(Ranger, b[a].star);
    var o1 := Damage(b, t, dmg, a, cycle, tick);
    DamageMirror(b, t, dmg, a, cycle, tick);
    MirrorAt(o1.board, a);
    PierceMirror(o1.board, a, t, dmg, cycle, tick);
    MirrorEventsConcat(o1.events, PierceEffect(o1.board, a, t, dmg, cycle, tick).events);
  }

  lemma UnitActMirror(b: Board, layout: seq<Pos>, a: Pos, cycle: int, tick: int)
    requires a in b
    ensures Flip(a) in Mirror(b)
    ensures UnitAct(Mirror(b), FlipAll(layout), Flip(a), cycle, tick)
         == MirrorOutcome(UnitAct(b, layout, a, cycle, tick))
  {
    MirrorAt(b, a);
    TargetMirror(b, layout, a);
    var target := Target(b, layout, a);
    if b[a].unitId.Healer? {
      HealerMirror(b, a, target, cycle, tick);
    } else if target.Some? {
      if b[a].unitId.Fighter? {
        FighterMirror(b, a, target.value, cycle, tick);
      } else if b[a].unitId.Ranger? {
        RangerMirror(b, a, target.value, cycle, tick);
      } else {
        DamageMirror(b, target.value, AtkFor(Tank, b[a].star), a, cycle, tick);
      }
    }
  }

  // ---- schedule ----

  lemma {:induction false} EnqueueMirror(b: Board, queue: seq<Pos>, p: Pos)
    ensures Enqueue(Mirror(b), FlipAll(queue), Flip(p)) == FlipAll(Enqueue(b, queue, p))
    decreases |queue|
  {
    MirrorAt(b, p);
    if queue != [] {
      MirrorAt(b, queue[0]);
      assert FlipAll(queue)[1..] == FlipAll(queue[1..]);
      EnqueueMirror(b, queue[1..], p);
    }
  }

  lemma {:induction false} SideQueueMirror(b: Board, side: Side, tick: int, n: nat)
    requires n <= 9
    ensures SideQueue(Mirror(b), side.Other(), tick, n) == FlipAll(SideQueue(b, side, tick, n))
  {
    if n > 0 {
      SideQueueMirror(b, side, tick, n - 1);
      var p := Pos(side, n - 1);
      MirrorAt(b, p);
      EnqueueMirror(b, SideQueue(b, side, tick, n - 1), p);
    }
  }

  lemma ActingOrderMirror(b: Board, initSide: Side, tick: int)
    ensures ActingOrder(Mirror(b), initSide.Other(), tick) == FlipAll(ActingOrder(b, initSide, tick))
  {
    SideQueueMirror(b, initSide, tick, 9);
    SideQueueMirror(b, initSide.Other(), tick, 9);
  }

  // ---- whole battles ----

  function MirrorAct(a: Act): Act {
    Act(Mirror(a.pre), a.cycle, a.tick, FlipOption(a.actor), MirrorEvents(a.events), Mirror(a.post))
  }

  function MirrorActs(acts: seq<Act>): (r: seq<Act>)
    ensures |r| == |acts|
    decreases |acts|
  {
    if acts == [] then [] else MirrorActs(acts[..|acts| - 1]) + [MirrorAct(acts[|acts| - 1])]
  }

  lemma {:induction false} MirrorActsConcat(x: seq<Act>, y: seq<Act>)
    ensures MirrorActs(x + y) == MirrorActs(x) + MirrorActs(y)
    decreases |y|
  {
    if y == [] {
      assert x + y == x;
    } else {
      assert (x + y)[..|x + y| - 1] == x + y[..|y| - 1];
      MirrorActsConcat(x, y[..|y| - 1]);
    }
  }

  lemma MirrorActsOne(a: Act)
    ensures MirrorActs([a]) == [MirrorAct(a)]
  {
    assert [a][..0] == [];
  }

  lemma AfterMirror(b: Board, acts: seq<Act>)
    ensures After(Mirror(b), MirrorActs(acts)) == Mirror(After(b, acts))
  {
  }

  lemma {:induction false} RunQueueMirror(b: Board, layout: seq<Pos>, queue: seq<Pos>, cycle: int, tick: int)
    ensures RunQueue(Mirror(b), FlipAll(layout), FlipAll(queue), cycle, tick)
         == MirrorActs(RunQueue(b, layout, queue, cycle, tick))
    decreases |queue|
  {
    if queue != [] {
      MirrorAt(b, queue[0]);
      assert FlipAll(queue)[1..] == FlipAll(queue[1..]);
      if AliveIn(b, queue[0]) {
        var act := ActOf(b, layout, queue[0], cycle, tick);
        UnitActMirror(b, layout, queue[0], cycle, tick);
        RunQueueMirror(act.post, layout, queue[1..], cycle, tick);
        MirrorActsConcat([act], RunQueue(act.post, layout, queue[1..], cycle, tick));
        MirrorActsOne(act);
      } else {
        RunQueueMirror(b, layout, queue[1..], cycle, tick);
      }
    }
  }

  lemma {:induction false} RunTicksMirror(b: Board, layout: seq<Pos>, initSide: Side, cycle: int, tick: int)
    requires 1 <= tick <= TICKS_PER_CYCLE + 1
    ensures RunTicks(Mirror(b), FlipAll(layout), initSide.Other(), cycle, tick)
         == MirrorActs(RunTicks(b, layout, initSide, cycle, tick))
    decreases TICKS_PER_CYCLE + 1 - tick
  {
    if tick <= TICKS_PER_CYCLE {
      var now := RunQueue(b, layout, ActingOrder(b, initSide, tick), cycle, tick);
      ActingOrderMirror(b, initSide, tick);
      RunQueueMirror(b, layout, ActingOrder(b, initSide, tick), cycle, tick);
      AfterMirror(b, now);
      RunTicksMirror(After(b, now), layout, initSide, cycle, tick + 1);
      MirrorActsConcat(now, RunTicks(After(b, now), layout, initSide, cycle, tick + 1));
    }
  }

  lemma MarkerMirror(b: Board, cycle: int, event: Event)
    ensures MirrorActs([Marker(b, cycle, event)]) == [Marker(Mirror(b), cycle, MirrorEvent(event))]
  {
    MirrorActsOne(Marker(b, cycle, event));
    assert MirrorEvents([event]) == [MirrorEvent(event)];
  }

  lemma GlueMirror(x: seq<Act>, y: seq<Act>, xm: seq<Act>, ym: seq<Act>)
    requires xm == MirrorActs(x) && ym == MirrorActs(y)
    ensures xm + ym == MirrorActs(x + y)
  {
    MirrorActsConcat(x, y);
  }

  lemma CloseMirror(b: Board, ticks: seq<Act>, cycle: int)
    ensures MirrorActs(ticks + [Marker(After(b, ticks), cycle, CycleEnd(cycle))])
         == MirrorActs(ticks) + [Marker(After(Mirror(b), MirrorActs(ticks)), cycle, CycleEnd(cycle))]
  {
    AfterMirror(b, ticks);
    MarkerMirror(After(b, ticks), cycle, CycleEnd(cycle));
    MirrorActsConcat(ticks, [Marker(After(b, ticks), cycle, CycleEnd(cycle))]);
  }

  lemma RunCycleMirror(b: Board, layout: seq<Pos>, initSide: Side, cycle: int)
    ensures RunCycle(Mirror(b), FlipAll(layout), initSide.Other(), cycle)
         == MirrorActs(RunCycle(b, layout, initSide, cycle))
  {
    RunTicksMirror(b, layout, initSide, cycle, 1);
    CloseMirror(b, RunTicks(b, layout, initSide, cycle, 1), cycle);
  }

  lemma LivingMirror(b: Board, side: Side)
    ensures HasLiving(Mirror(b), side.Other()) == HasLiving(b, side)
  {
    if HasLiving(b, side) {
      var p :| p in b && p.side == side && b[p].alive;
      MirrorAt(b, p);
    }
    if HasLiving(Mirror(b), side.Other()) {
      var p :| p in Mirror(b) && p.side == side.Other() && Mirror(b)[p].alive;
      MirrorAt(b, Flip(p));
      assert Flip(Flip(p)) == p;
    }
  }

  lemma VerdictMirror(b: Board)
    ensures Decided(Mirror(b)) == Decided(b)
    ensures Decided(b) ==> WinnerOf(Mirror(b)) == OtherOption(WinnerOf(b))
  {
    LivingMirror(b, P1);
    LivingMirror(b, P2);
  }

  lemma VerdictActMirror(b: Board, cycle: int)
    ensures Verdict(Mirror(b), cycle, if Decided(Mirror(b)) then WinnerOf(Mirror(b)) else None)
         == MirrorActs(Verdict(b, cycle, if Decided(b) then WinnerOf(b) else None))
  {
    VerdictMirror(b);
    MarkerMirror(b, cycle, BattleEnd(cycle, if Decided(b) then WinnerOf(b) else None));
  }

  lemma CycleEndMirror(b: Board, layout: seq<Pos>, initSide: Side, cycle: int)
    ensures
      var end := After(b, RunCycle(b, layout, initSide, cycle));
      var mend := After(Mirror(b), RunCycle(Mirror(b), FlipAll(layout), initSide.Other(), cycle));
      mend == Mirror(end) && Decided(mend) == Decided(end)
  {
    var acts := RunCycle(b, layout, initSide, cycle);
    RunCycleMirror(b, layout, initSide, cycle);
    AfterMirror(b, acts);
    VerdictMirror(After(b, acts));
  }

  lemma LastCycleMirror(b: Board, layout: seq<Pos>, initSide: Side, cycle: int)
    requires 1 <= cycle <= MAX_CYCLES
    requires var end := After(b, RunCycle(b, layout, initSide, cycle)); Decided(end) || cycle == MAX_CYCLES
    ensures RunCycles(Mirror(b), FlipAll(layout), initSide.Other(), cycle)
         == MirrorActs(RunCycles(b, layout, initSide, cycle))
  {
    var acts := RunCycle(b, layout, initSide, cycle);
    var end := After(b, acts);
    RunCycleMirror(b, layout, initSide, cycle);
    CycleEndMirror(b, layout, initSide, cycle);
    VerdictActMirror(end, cycle);
    LastCycle(b, layout, initSide, cycle);
    LastCycle(Mirror(b), FlipAll(layout), initSide.Other(), cycle);
    var verdict := Verdict(end, cycle, if Decided(end) then WinnerOf(end) else None);
    GlueMirror(acts, verdict, MirrorActs(acts), MirrorActs(verdict));
  }

  /** The mirrored battle goes on, if the battle does, from the mirrored end of the cycle. */
  lemma MoreCyclesMirror(b: Board, layout: seq<Pos>, initSide: Side, cycle: int)
    requires 1 <= cycle < MAX_CYCLES && !Decided(After(b, RunCycle(b, layout, initSide, cycle)))
    ensures RunCycles(Mirror(b), FlipAll(layout), initSide.Other(), cycle)
         == MirrorActs(RunCycle(b, layout, initSide, cycle))
            + RunCycles(Mirror(After(b, RunCycle(b, layout, initSide, cycle))), FlipAll(layout), initSide.Other(), cycle + 1)
  {
    RunCycleMirror(b, layout, initSide, cycle);
    CycleEndMirror(b, layout, initSide, cycle);
    MoreCycles(Mirror(b), FlipAll(layout), initSide.Other(), cycle);
  }

  lemma NextCycleMirror(b: Board, layout: seq<Pos>, initSide: Side, cycle: int, rest: seq<Act>, mrest: seq<Act>)
    requires 1 <= cycle < MAX_CYCLES && !Decided(After(b, RunCycle(b, layout, initSide, cycle)))
    requires rest == RunCycles(After(b, RunCycle(b, layout, initSide, cycle)), layout, initSide, cycle + 1)
    requires mrest
      == RunCycles(Mirror(After(b, RunCycle(b, layout, initSide, cycle))), FlipAll(layout), initSide.Other(), cycle + 1)
    requires mrest == MirrorActs(rest)
    ensures RunCycles(Mirror(b), FlipAll(layout), initSide.Other(), cycle)
         == MirrorActs(RunCycles(b, layout, initSide, cycle))
  {
    var acts := RunCycle(b, layout, initSide, cycle);
    MoreCycles(b, layout, initSide, cycle);
    MoreCyclesMirror(b, layout, initSide, cycle);
    GlueMirror(acts, rest, MirrorActs(acts), mrest);
  }

  /** Mirrored boards, with the coin flipped, fight the same battle with the sides swapped. */
  lemma {:induction false} BattleMirrors(b: Board, layout: seq<Pos>, initSide: Side, cycle: int)
    requires 1 <= cycle <= MAX_CYCLES
    ensures RunCycles(Mirror(b), FlipAll(layout), initSide.Other(), cycle)
         == MirrorActs(RunCycles(b, layout, initSide, cycle))
    decreases MAX_CYCLES - cycle
  {
    var end := After(b, RunCycle(b, layout, initSide, cycle));
    if Decided(end) || cycle == MAX_CYCLES {
      LastCycleMirror(b, layout, initSide, cycle);
    } else {
      BattleMirrors(end, layout, initSide, cycle + 1);
      NextCycleMirror(b, layout, initSide, cycle, RunCycles(end, layout, initSide, cycle + 1),
        RunCycles(Mirror(end), FlipAll(layout), initSide.Other(), cycle + 1));
    }
  }
}
