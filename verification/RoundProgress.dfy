/**
 * What a round amounts to: the damage message in figures, what a successful resolution writes,
 * and that a worker who is not disturbed carries a round from the shop to the next one.
 */
module RoundProgress {
  import opened GameTypes
  import opened MatchPhase
  import opened MatchRules
  import opened RoundProtocol
  import opened RoundRace
  import opened RoundLaws
  import Economy
  import EconomyLaws

  // ---- the damage message in figures ----

  /** Nothing for the winner, 5 each for a tie, and 5, 10, 15, 20, 25, 25, ... for a defeat. */
  function DamageTo(side: Side, wipes: int, winner: Winner): int {
    match winner
    case None => 5
    case Some(s) => if s == side then 0 else if wipes >= 4 then 25 else 5 * (wipes + 1)
  }

  predicate SideTells(m: SidePayload, side: Side, hp: int, wipes: int, winner: Winner) {
    && m.hpBefore == hp && m.damage == DamageTo(side, wipes, winner)
    && m.hpAfter == (if hp > m.damage then hp - m.damage else 0)
    && (m.tie <==> winner == None) && (m.wiped <==> winner == Some(side.Other()))
  }

  /** The message gives, for both sides, the stored hit points, the damage, and what is left. */
  predicate Tells(m: Payload, r: Record, round: nat, winner: Winner) {
    && m.round == round && m.winner == winner
    && SideTells(m.p1, P1, r.p1.hp, r.wipes1, winner) && SideTells(m.p2, P2, r.p2.hp, r.wipes2, winner)
  }

  lemma MessageTells(seen: Record, r: Record, round: nat, winner: Winner)
    requires ScoreOf(seen) == ScoreOf(r)
    ensures Tells(PayloadOf(seen, round, winner), r, round, winner)
  {
  }

  /** A lost round counts as one more wipe, up to five. */
  function WipesAfter(side: Side, wipes: int, winner: Winner): int {
    if winner == Some(side.Other()) then (if wipes >= 4 then 5 else wipes + 1) else wipes
  }

  predicate Earns(before: Half, after: Half, m: SidePayload, pay: int) {
    after.hp == m.hpAfter && after.roster == before.roster.(gold := before.roster.gold + pay)
  }

  /**
   * The record after the write of a resolution that had read `seen`: the hit points that its
   * message tells, 5 gold for both and an unmarked combat as long as both live, and otherwise
   * a finished match. Phase and round are those of the record that the write finds.
   */
  predicate Written(seen: Record, now: Record, after: Record, m: Payload) {
    var over := m.p1.hpAfter == 0 || m.p2.hpAfter == 0;
    && after.round == now.round && after.phase == (if over then Finished else now.phase)
    && Earns(seen.p1, after.p1, m.p1, if over then 0 else 5) && Earns(seen.p2, after.p2, m.p2, if over then 0 else 5)
    && after.wipes1 == WipesAfter(P1, seen.wipes1, m.winner) && after.wipes2 == WipesAfter(P2, seen.wipes2, m.winner)
    && after.combatRound == (if over then now.combatRound else None)
  }

  lemma SettledIsWritten(seen: Record, now: Record, round: nat, winner: Winner)
    ensures Written(seen, now, Settled(now, seen, winner), PayloadOf(seen, round, winner))
  {
  }

  // ---- a worker that is not disturbed ----

  /** The next n commands of a worker, with nobody else at work. */
  ghost function Drive(s: State, me: int, n: nat, winner: Winner, joint: bool): State
    decreases n, s
  {
    if n == 0 then s else Next(Drive(s, me, n - 1, winner, joint), me, Continue(winner), joint)
  }

  ghost function Driven(e: Effect, me: int, n: nat, winner: Winner, joint: bool): Effect
    decreases n, e
  {
    if n == 0 then e
    else
      var f := Driven(e, me, n - 1, winner, joint);
      Proceed(f.world, me, f.job, winner, joint)
  }

  /** The state with another world and the worker at another point. */
  ghost function With(s: State, me: int, e: Effect): State {
    State(e.world, s.jobs[me := e.job])
  }

  lemma WithStep(s: State, me: int, f: Effect, winner: Winner, joint: bool)
    ensures Next(With(s, me, f), me, Continue(winner), joint)
      == With(s, me, Proceed(f.world, me, f.job, winner, joint))
  {
    assert JobOf(With(s, me, f), me) == f.job;
    var job := Proceed(f.world, me, f.job, winner, joint).job;
    assert s.jobs[me := f.job][me := job] == s.jobs[me := job];
  }

  lemma {:induction false} DriveIs(s: State, me: int, e: Effect, n: nat, winner: Winner, joint: bool)
    ensures Drive(With(s, me, e), me, n, winner, joint) == With(s, me, Driven(e, me, n, winner, joint))
    decreases n
  {
    if n > 0 {
      DriveIs(s, me, e, n - 1, winner, joint);
      WithStep(s, me, Driven(e, me, n - 1, winner, joint), winner, joint);
    }
  }

  /** A handler and the commands that follow it, by a worker that had nothing to do. */
  ghost function Handled(s: State, me: int, a: Action, n: nat, winner: Winner, joint: bool): State {
    Drive(Next(s, me, a, joint), me, n, winner, joint)
  }

  predicate Starts(a: Action) { !a.Continue? && !a.LockExpires? }

  lemma HandledIs(s: State, me: int, a: Action, n: nat, winner: Winner, joint: bool)
    requires JobOf(s, me) == Idle && Starts(a)
    ensures Handled(s, me, a, n, winner, joint)
      == With(s, me, Driven(Effect(s.world, Begin(s.world, a)), me, n, winner, joint))
  {
    var e := Effect(s.world, Begin(s.world, a));
    assert Next(s, me, a, joint) == With(s, me, e);
    DriveIs(s, me, e, n, winner, joint);
  }

  predicate Quiet(s: State, me: int) {
    JobOf(s, me) == Idle && s.world.lock == None
  }

  /** The launch: the battle phase, the lock, and the two checks of the combat mark. */
  lemma LaunchDriven(w: World, me: int, round: nat, winner: Winner, joint: bool)
    requires Flips(w, ShopPlace, round) && w.lock == None && w.rt.combatRound != Some(round)
    ensures
      var v := Flipped(w, w.rt.(phase := Battle)).(lock := Some(me));
      Driven(Effect(w, StartFlip(round, w.rt)), me, 3, winner, joint) == Effect(v, ClearResult(round, w.rt, v.rt))
  {
    var e := Effect(w, StartFlip(round, w.rt));
    var one := Driven(e, me, 1, winner, joint);
    assert Driven(e, me, 0, winner, joint) == e;
    var two := Driven(e, me, 2, winner, joint);
    assert two.job.CheckCombat?;
  }

  /** The rest: the battle is run, cached and marked, the lock released, the preview sent. */
  lemma CombatDriven(e: Effect, me: int, round: nat, seen: Record, winner: Winner, joint: bool, n: nat)
    requires Driven(e, me, n, winner, joint).job == ClearResult(round, seen, Driven(e, me, n, winner, joint).world.rt)
    requires var w := Driven(e, me, n, winner, joint).world; Flips(w, Battle, round) && w.lock == Some(me)
    ensures
      var w := Driven(e, me, n, winner, joint).world;
      Driven(e, me, n + 6, winner, joint) == Effect(
        w.(result := Some(Fought(round, w.rt.p1, w.rt.p2, winner)), rt := w.rt.(combatRound := Some(round)),
          marked := w.marked + {round}, lock := None), Idle)
  {
    var w := Driven(e, me, n, winner, joint).world;
    var fought := Fought(round, w.rt.p1, w.rt.p2, winner);
    assert Driven(e, me, n + 1, winner, joint) == Effect(w.(result := None), RecheckCombat(round, seen, fought));
    assert Driven(e, me, n + 2, winner, joint) == Effect(w.(result := None), WriteResult(round, seen, fought));
    assert Driven(e, me, n + 3, winner, joint) == Effect(w.(result := Some(fought)), MarkCombat(round, seen, fought));
    var marked := w.(result := Some(fought), rt := w.rt.(combatRound := Some(round)), marked := w.marked + {round});
    assert Driven(e, me, n + 4, winner, joint) == Effect(marked, ReleaseLock(round, seen, true));
    assert Driven(e, me, n + 5, winner, joint) == Effect(marked.(lock := None), ReadPreview(round, seen));
  }

  /** The world when a combat has been run: in battle, its result cached and marked, the lock free. */
  ghost predicate CombatRun(w: World, v: World, round: nat, winner: Winner) {
    && v.rt == w.rt.(phase := Battle, combatRound := Some(round))
    && v.result == Some(Fought(round, w.rt.p1, w.rt.p2, winner)) && v.lock == None
    && v.marked == w.marked + {round} && v.history == w.history
    && v.flips == w.flips + [Flip(ShopPlace, round)]
  }

  lemma CombatRuns(s: State, me: int, winner: Winner, joint: bool)
    requires Quiet(s, me) && s.world.rt.phase == ShopPlace && s.world.rt.combatRound != Some(s.world.rt.round)
    ensures
      var round := s.world.rt.round;
      var e := Handled(s, me, TryStartCombat(round), 9, winner, joint);
      CombatRun(s.world, e.world, round, winner) && Quiet(e, me)
  {
    var w := s.world;
    var e := Effect(w, StartFlip(w.rt.round, w.rt));
    HandledIs(s, me, TryStartCombat(w.rt.round), 9, winner, joint);
    LaunchDriven(w, me, w.rt.round, winner, joint);
    CombatDriven(e, me, w.rt.round, w.rt, winner, joint, 3);
  }

  lemma ResolutionDriven(w: World, me: int, round: nat, fought: Fought, winner: Winner, joint: bool)
    requires Flips(w, Battle, round) && w.result == Some(fought)
    ensures
      Driven(Effect(w, ReadResult(round, w.rt)), me, 3, winner, joint)
      == Effect(SettledWorld(Flipped(w, w.rt.(phase := Resolved)), w.rt, fought), Idle)
  {
    var e := Effect(w, ReadResult(round, w.rt));
    assert Driven(e, me, 0, winner, joint) == e;
    assert Driven(e, me, 1, winner, joint) == Effect(w, ResolveFlip(round, w.rt, fought));
    var two := Driven(e, me, 2, winner, joint);
    var flipped := Flipped(w, w.rt.(phase := Resolved));
    assert two ==
      if joint then Effect(SettledWorld(flipped, w.rt, fought), Idle) else Effect(flipped, Settle(round, w.rt, fought));
  }

  lemma ResolutionRuns(s: State, me: int, winner: Winner, joint: bool)
    requires JobOf(s, me) == Idle && s.world.rt.phase == Battle && s.world.result.Some?
    requires s.world.rt.combatRound == Some(s.world.rt.round)
    ensures
      var w := s.world;
      var e := Handled(s, me, ApplyDamage(w.rt.round), 3, winner, joint);
      && Written(w.rt, w.rt.(phase := Resolved), e.world.rt, PayloadOf(w.rt, w.rt.round, w.result.value.winner))
      && e.world.history == w.history + [w.result.value.winner]
      && e.world.lock == w.lock && JobOf(e, me) == Idle
  {
    var w := s.world;
    HandledIs(s, me, ApplyDamage(w.rt.round), 3, winner, joint);
    ResolutionDriven(w, me, w.rt.round, w.result.value, winner, joint);
    SettledIsWritten(w.rt, w.rt.(phase := Resolved), w.rt.round, w.result.value.winner);
  }

  lemma AdvanceRuns(s: State, me: int, winner: Winner, joint: bool)
    requires JobOf(s, me) == Idle && s.world.rt.phase == Resolved
    ensures
      var w := s.world;
      var e := Handled(s, me, AdvanceResolved(w.rt.round), 2, winner, joint);
      && e.world.rt == w.rt.(phase := ShopPlace, round := w.rt.round + 1, combatRound := None)
      && e.world.history == w.history && e.world.lock == w.lock && JobOf(e, me) == Idle
  {
    var w := s.world;
    HandledIs(s, me, AdvanceResolved(w.rt.round), 2, winner, joint);
    var e := Effect(w, AdvanceFlip(w.rt.round));
    assert Driven(e, me, 0, winner, joint) == e;
    assert Driven(e, me, 1, winner, joint).job == ClearRound;
  }

  /** The state after the combat, the resolution and, if both still live, the advance of a round. */
  ghost function RoundRun(s: State, me: int, winner: Winner, joint: bool): State {
    var round := s.world.rt.round;
    var fought := Handled(s, me, TryStartCombat(round), 9, winner, joint);
    var settled := Handled(fought, me, ApplyDamage(round), 3, winner, joint);
    Handled(settled, me, AdvanceResolved(round), 2, winner, joint)
  }

  /**
   * A round that one worker carries through undisturbed: both sides lose what the message
   * tells, and either the match is finished or the next shop phase begins, with 5 gold more for
   * both, no combat marked and the lock free.
   */
  lemma RoundRuns(s: State, me: int, winner: Winner, joint: bool) returns (m: Payload)
    requires Quiet(s, me) && s.world.rt.phase == ShopPlace && s.world.rt.combatRound != Some(s.world.rt.round)
    ensures Tells(m, s.world.rt, s.world.rt.round, winner)
    ensures
      var w, e := s.world, RoundRun(s, me, winner, joint);
      && e.world.history == w.history + [winner] && Quiet(e, me)
      && (if m.p1.hpAfter == 0 || m.p2.hpAfter == 0 then
            && e.world.rt.phase == Finished && e.world.rt.round == w.rt.round
            && Earns(w.rt.p1, e.world.rt.p1, m.p1, 0) && Earns(w.rt.p2, e.world.rt.p2, m.p2, 0)
          else
            && e.world.rt.phase == ShopPlace && e.world.rt.round == w.rt.round + 1 && e.world.rt.combatRound == None
            && Earns(w.rt.p1, e.world.rt.p1, m.p1, 5) && Earns(w.rt.p2, e.world.rt.p2, m.p2, 5))
  {
    var round := s.world.rt.round;
    var fought := Handled(s, me, TryStartCombat(round), 9, winner, joint);
    var settled := Handled(fought, me, ApplyDamage(round), 3, winner, joint);
    CombatRuns(s, me, winner, joint);
    ResolutionRuns(fought, me, winner, joint);
    m := PayloadOf(fought.world.rt, round, winner);
    MessageTells(fought.world.rt, s.world.rt, round, winner);
    if settled.world.rt.phase == Resolved {
      AdvanceRuns(settled, me, winner, joint);
    } else {
      RefusedAdvance(settled, me, round, winner, joint);
    }
  }

  lemma RefusedAdvance(s: State, me: int, round: nat, winner: Winner, joint: bool)
    requires JobOf(s, me) == Idle && s.world.rt.phase == Finished
    ensures
      var e := Handled(s, me, AdvanceResolved(round), 2, winner, joint);
      e.world == s.world && JobOf(e, me) == Idle
  {
    HandledIs(s, me, AdvanceResolved(round), 2, winner, joint);
    var e := Effect(s.world, Idle);
    assert Driven(e, me, 0, winner, joint) == e;
    assert Driven(e, me, 1, winner, joint) == e;
  }

  /** A surrender or a disconnect, in whatever phase of a live match, finishes it and changes nothing else. */
  lemma ForfeitRuns(s: State, me: int, winner: Winner, joint: bool)
    requires JobOf(s, me) == Idle && s.world.rt.phase != Finished
    ensures
      var w, e := s.world, Handled(s, me, Forfeit, 1, winner, joint);
      && e.world.rt == w.rt.(phase := Finished) && e.world.history == w.history
      && e.world.lock == w.lock && JobOf(e, me) == Idle
  {
    HandledIs(s, me, Forfeit, 1, winner, joint);
    var e := Effect(s.world, ForfeitFlip(s.world.rt));
    assert Driven(e, me, 0, winner, joint) == e;
  }

  function RosterOf(r: Record, side: Side): Economy.Player {
    (if side.P1? then r.p1 else r.p2).roster
  }

  /** What a roster action makes of the world: the acting side has the next roster, and nothing else changes. */
  ghost predicate Replaces(w: World, v: World, side: Side, next: Economy.Player) {
    && RosterOf(v.rt, side) == next && RosterOf(v.rt, side.Other()) == RosterOf(w.rt, side.Other())
    && ScoreOf(v.rt) == ScoreOf(w.rt) && v.rt.phase == w.rt.phase && v.rt.round == w.rt.round
    && v.history == w.history && v.lock == w.lock
  }

  lemma CommitDriven(w: World, me: int, side: Side, next: Economy.Player, winner: Winner, joint: bool)
    requires w.rt.phase == ShopPlace
    ensures
      var e := Driven(Effect(w, CommitRoster(side, w.rt, next)), me, 1, winner, joint);
      Replaces(w, e.world, side, next) && e.job == Idle
  {
    var e := Effect(w, CommitRoster(side, w.rt, next));
    assert Driven(e, me, 0, winner, joint) == e;
  }

  lemma IdleDriven(w: World, me: int, winner: Winner, joint: bool)
    ensures Driven(Effect(w, Idle), me, 1, winner, joint) == Effect(w, Idle)
  {
    assert Driven(Effect(w, Idle), me, 0, winner, joint) == Effect(w, Idle);
  }

  /** An action of the shop phase commits the roster that it yields, and a refused one changes nothing. */
  lemma RosterActionRuns(
    s: State, me: int, side: Side, move: EconomyLaws.Move, shop: Economy.Shop,
    offers: seq<Option<Economy.Offer>>, winner: Winner, joint: bool)
    requires JobOf(s, me) == Idle && s.world.rt.phase == ShopPlace
    requires EconomyLaws.FreshId(RosterOf(s.world.rt, side), move)
    ensures
      var w, e := s.world, Handled(s, me, RosterAction(side, move, shop, offers), 1, winner, joint);
      var r := EconomyLaws.Apply(Economy.Hand(RosterOf(w.rt, side), shop), move, (count: nat) => offers);
      && JobOf(e, me) == Idle
      && (if r.Ok? then Replaces(w, e.world, side, r.value.player) else e.world == w)
  {
    var w := s.world;
    var r := EconomyLaws.Apply(Economy.Hand(RosterOf(w.rt, side), shop), move, (count: nat) => offers);
    var a := RosterAction(side, move, shop, offers);
    HandledIs(s, me, a, 1, winner, joint);
    if r.Ok? {
      assert Begin(w, a) == CommitRoster(side, w.rt, r.value.player);
      CommitDriven(w, me, side, r.value.player, winner, joint);
    } else {
      assert Begin(w, a) == Idle;
      IdleDriven(w, me, winner, joint);
    }
  }

  // ---- handlers out of their phase, and workers overtaken by others ----

  /** The phase, round and marks in which a handler has something to do. */
  predicate InPhase(w: World, a: Action) {
    match a
    case TryStartCombat(round) => w.rt.phase == ShopPlace && w.rt.round == round
    case ApplyDamage(round) =>
      w.rt.phase == Battle && w.rt.round == round && w.rt.combatRound == Some(round) && w.result.Some?
    case AdvanceResolved(round) => w.rt.phase == Resolved && w.rt.round == round
    case Forfeit => w.rt.phase != Finished
    case RosterAction(_, _, _, _) => w.rt.phase == ShopPlace
    case _ => false
  }

  /** A handler that comes too early, too late or twice changes nothing at all. */
  lemma OutOfPhase(s: State, me: int, a: Action, winner: Winner, joint: bool)
    requires JobOf(s, me) == Idle && Starts(a) && !InPhase(s.world, a)
    ensures
      var e := Handled(s, me, a, 1, winner, joint);
      e.world == s.world && JobOf(e, me) == Idle
  {
    HandledIs(s, me, a, 1, winner, joint);
    var e := Effect(s.world, Begin(s.world, a));
    assert Driven(e, me, 0, winner, joint) == e;
  }

  /** The next command of the job finds the world as the job needs it. */
  predicate Timely(w: World, t: Job) {
    match t
    case StartFlip(round, _) => w.rt.phase == ShopPlace && w.rt.round == round
    case TakeLock(_, _) => w.lock == None
    case CheckCombat(round, _) => w.rt.phase == Battle && w.rt.round == round && w.rt.combatRound != Some(round)
    case RecheckCombat(round, _, _) => w.rt.phase == Battle && w.rt.round == round
    case ReadResult(_, _) => w.result.Some?
    case ResolveFlip(round, _, _) => w.rt.phase == Battle && w.rt.round == round
    case AdvanceFlip(round) => w.rt.phase == Resolved && w.rt.round == round
    case ForfeitFlip(seen) => w.rt.phase == seen.phase && w.rt.round == seen.round
    case CommitRoster(_, seen, _) => w.rt.phase == ShopPlace && w.rt.round == seen.round
    case _ => true
  }

  /**
   * A worker that others have overtaken changes nothing: it stops, and gives the combat lock
   * back if it holds it, without a battle run or cached.
   */
  lemma OvertakenStops(s: State, me: int, winner: Winner, joint: bool)
    requires !Timely(s.world, JobOf(s, me))
    ensures
      var t, e := JobOf(s, me), Drive(s, me, 2, winner, joint);
      && JobOf(e, me) == Idle
      && e.world == (if (t.CheckCombat? || t.RecheckCombat?) && s.world.lock == Some(me) then s.world.(lock := None)
                     else s.world)
  {
    assert Drive(s, me, 0, winner, joint) == s;
    assert Drive(s, me, 1, winner, joint) == Next(s, me, Continue(winner), joint);
  }

  // ---- the resolver of a run ----

  /**
   * Over any run, whatever the other workers have done: a resolver whose flip succeeds sends
   * the message of the stored hit points and wipe counters with the cached result, and its
   * commands write exactly what the message tells.
   */
  lemma ResolverTellsAndWrites(moves: seq<Move>, joint: bool, me: int, winner: Winner)
    requires Undisturbed(moves, joint)
    requires me in Run(moves, joint).jobs && Run(moves, joint).jobs[me].ResolveFlip?
    requires Flips(Run(moves, joint).world, Battle, Run(moves, joint).jobs[me].round)
    ensures
      var s := Run(moves, joint);
      var t, e := s.jobs[me], Drive(s, me, 2, winner, joint);
      && s.world.result == Some(t.fought)
      && Tells(PayloadOf(t.seen, t.round, t.fought.winner), s.world.rt, s.world.rt.round, t.fought.winner)
      && Written(s.world.rt, s.world.rt.(phase := Resolved), e.world.rt, PayloadOf(t.seen, t.round, t.fought.winner))
      && e.world.history == s.world.history + [t.fought.winner] && JobOf(e, me) == Idle
  {
    var s := Run(moves, joint);
    var t := s.jobs[me];
    ResolvesWhatIsStored(moves, joint, me);
    MessageTells(t.seen, s.world.rt, t.round, t.fought.winner);
    SettledIsWritten(t.seen, s.world.rt.(phase := Resolved), t.round, t.fought.winner);
    FlipThenWrite(s, me, winner, joint);
  }

  lemma FlipThenWrite(s: State, me: int, winner: Winner, joint: bool)
    requires me in s.jobs && s.jobs[me].ResolveFlip? && Flips(s.world, Battle, s.jobs[me].round)
    ensures
      var e := Drive(s, me, 2, winner, joint);
      && e.world == SettledWorld(Flipped(s.world, s.world.rt.(phase := Resolved)), s.jobs[me].seen, s.jobs[me].fought)
      && JobOf(e, me) == Idle
  {
    var one := Drive(s, me, 1, winner, joint);
    assert Drive(s, me, 0, winner, joint) == s;
    assert one == Next(s, me, Continue(winner), joint);
  }

  /**
   * The write of a resolution, however late it comes: it stores hit points, rosters and wipe
   * counters as they were read before the flip, so whatever was committed since is lost.
   */
  lemma LateWriteRestores(s: State, me: int, winner: Winner)
    requires JobOf(s, me).Settle?
    ensures
      var t, e := JobOf(s, me), Next(s, me, Continue(winner), false);
      var m := PayloadOf(t.seen, t.round, t.fought.winner);
      && Tells(m, t.seen, t.round, t.fought.winner) && Written(t.seen, s.world.rt, e.world.rt, m)
      && e.world.history == s.world.history + [t.fought.winner] && JobOf(e, me) == Idle
  {
    var t := JobOf(s, me);
    MessageTells(t.seen, t.seen, t.round, t.fought.winner);
    SettledIsWritten(t.seen, s.world.rt, t.round, t.fought.winner);
  }
}
