/**
 * The damage message of a round, sent ahead as a preview by the worker that launched the combat
 * and again by the worker that resolves the round: when the two agree, and a run in which a late
 * preview tells the result of the next round.
 */
module RoundPreview {
  import opened GameTypes
  import opened MatchPhase
  import opened MatchRules
  import opened RoundProtocol
  import opened RoundSafety
  import opened RoundRace
  import opened RoundLaws
  import opened RoundBattle
  import opened RoundPlays
  import opened RoundProgress
  import Economy

  // ---- preview and final message ----

  /** What a job has read of a round, in terms of the results before that round. */
  ghost predicate SnapOf(t: Job, h: seq<Winner>) {
    t.ReadPreview? || t.ResolveFlip? ==> 1 <= t.round <= |h| + 1 && ScoreOf(t.seen) == Play(h[..t.round - 1])
  }

  lemma RestSnap(s: State, me: int)
    requires Inv(s) && me in s.jobs
    ensures SnapOf(s.jobs[me], s.world.history)
  {
    assert JobInv(s.world, s.jobs[me]);
  }

  lemma JobSnap(s: State, me: int, h: seq<Winner>)
    requires Results(s, h) && me in s.jobs
    ensures SnapOf(s.jobs[me], h)
  {
    if AtRest(s) && h == s.world.history {
      RestSnap(s, me);
    } else {
      var u :| Settling(s, u) && h == Behind(s, u).world.history;
      RestSnap(Behind(s, u), me);
    }
  }

  lemma SnapExtends(t: Job, h: seq<Winner>, k: seq<Winner>)
    requires SnapOf(t, h) && h <= k
    ensures SnapOf(t, k)
  {
    if t.ReadPreview? || t.ResolveFlip? {
      assert k[..t.round - 1] == h[..t.round - 1];
    }
  }

  /** The snapshot that a job took of a round, wherever in the run it is found. */
  lemma SnapshotOfRound(moves: seq<Move>, joint: bool, i: nat, me: int) returns (h: seq<Winner>)
    requires Undisturbed(moves, joint) && i <= |moves| && me in Run(moves[..i], joint).jobs
    ensures Results(Run(moves, joint), h) && SnapOf(Run(moves[..i], joint).jobs[me], h)
  {
    UndisturbedPrefix(moves, joint, i);
    RunSound(moves[..i], joint);
    var before := SomeResults(Run(moves[..i], joint));
    JobSnap(Run(moves[..i], joint), me, before);
    ResultsGrow(moves, joint, i, |moves|, before);
    assert moves[..|moves|] == moves;
    h :| ContinuedBy(Run(moves, joint), before, h);
    SnapExtends(Run(moves[..i], joint).jobs[me], before, h);
  }

  lemma ResultsUnique(s: State, h: seq<Winner>, k: seq<Winner>)
    requires Results(s, h) && Results(s, k)
    ensures h == k
  {
    if AtRest(s) {
      NobodyWrites(s);
    } else {
      var u :| Settling(s, u) && h == Behind(s, u).world.history;
      OneWrites(s, u);
    }
  }

  /**
   * The damage preview of a round and its final damage message agree whenever they are
   * computed from the same result, whatever was committed between their reads.
   */
  lemma PreviewIsFinal(moves: seq<Move>, joint: bool, i: nat, j: nat, me: int, other: int, winner: Winner)
    requires Undisturbed(moves, joint) && i <= |moves| && j <= |moves|
    requires me in Run(moves[..i], joint).jobs && Run(moves[..i], joint).jobs[me].ReadPreview?
    requires other in Run(moves[..j], joint).jobs && Run(moves[..j], joint).jobs[other].ResolveFlip?
    requires Run(moves[..i], joint).jobs[me].round == Run(moves[..j], joint).jobs[other].round
    ensures
      var t, u := Run(moves[..i], joint).jobs[me], Run(moves[..j], joint).jobs[other];
      PayloadOf(t.seen, t.round, winner) == PayloadOf(u.seen, u.round, winner)
  {
    var h := SnapshotOfRound(moves, joint, i, me);
    var k := SnapshotOfRound(moves, joint, j, other);
    ResultsUnique(Run(moves, joint), h, k);
  }

  // ---- the result of a round ----

  lemma StepKeepsResult(w: World, me: int, t: Job, a: Action, joint: bool)
    requires WorldInv(w) && JobInv(w, t) && w.rt.phase == Battle && w.rt.round in w.marked
    ensures
      var v := Step(w, me, t, a, joint).world;
      v.result == w.result && w.marked <= v.marked
  {
  }

  /** The record is in the battle of a round whose combat is marked. */
  predicate InBattle(s: State, round: nat) {
    s.world.rt.phase == Battle && s.world.rt.round == round && round in s.world.marked
  }

  lemma NextKeepsResult(s: State, me: int, a: Action, joint: bool, round: nat)
    requires SplitInv(s) && InBattle(s, round) && Flips(Next(s, me, a, joint).world, Battle, round)
    ensures InBattle(Next(s, me, a, joint), round) && Next(s, me, a, joint).world.result == s.world.result
  {
    BattleAtRest(s);
    assert JobInv(s.world, JobOf(s, me));
    StepKeepsResult(s.world, me, JobOf(s, me), a, joint);
  }

  lemma BetweenBattles(a: World, b: World, c: World, round: nat)
    requires Climbs(a.rt, b.rt) && Climbs(b.rt, c.rt) && Flips(a, Battle, round) && Flips(c, Battle, round)
    ensures Flips(b, Battle, round)
  {
  }

  /** A run that is in the battle phase of a round at two moments has not left it in between. */
  lemma StaysInBattle(moves: seq<Move>, joint: bool, i: nat, j: nat, round: nat)
    requires i <= j <= |moves|
    requires Flips(Run(moves[..i], joint).world, Battle, round) && Flips(Run(moves, joint).world, Battle, round)
    ensures Flips(Run(moves[..j], joint).world, Battle, round)
  {
    RunClimbs(moves, joint, j);
    RunClimbs(moves[..j], joint, i);
    assert moves[..j][..i] == moves[..i];
    BetweenBattles(Run(moves[..i], joint).world, Run(moves[..j], joint).world, Run(moves, joint).world, round);
  }

  /** The battle of the round is still on, with the result that a had. */
  predicate StillOn(a: State, s: State, round: nat) {
    InBattle(s, round) && s.world.result == a.world.result
  }

  lemma LastMoveKeepsResult(moves: seq<Move>, joint: bool, a: State, round: nat)
    requires moves != [] && Undisturbed(moves[..|moves| - 1], joint)
    requires StillOn(a, Run(moves[..|moves| - 1], joint), round) && Flips(Run(moves, joint).world, Battle, round)
    ensures StillOn(a, Run(moves, joint), round)
  {
    var n := |moves| - 1;
    RunSound(moves[..n], joint);
    NextKeepsResult(Run(moves[..n], joint), moves[n].me, moves[n].action, joint, round);
  }

  /** As long as the battle phase of a round lasts, its marked result is the same. */
  lemma {:induction false} ResultStays(moves: seq<Move>, joint: bool, i: nat, round: nat)
    requires Undisturbed(moves, joint) && i <= |moves|
    requires InBattle(Run(moves[..i], joint), round) && Flips(Run(moves, joint).world, Battle, round)
    ensures StillOn(Run(moves[..i], joint), Run(moves, joint), round)
    decreases |moves|
  {
    if i == |moves| {
      assert moves[..i] == moves;
    } else {
      var n := |moves| - 1;
      UndisturbedPrefix(moves, joint, n);
      StaysInBattle(moves, joint, i, n, round);
      assert moves[..n][..i] == moves[..i];
      ResultStays(moves[..n], joint, i, round);
      LastMoveKeepsResult(moves, joint, Run(moves[..i], joint), round);
    }
  }

  lemma PreviewInBattle(moves: seq<Move>, joint: bool, i: nat, me: int)
    requires Undisturbed(moves, joint) && i <= |moves|
    requires me in Run(moves[..i], joint).jobs && Run(moves[..i], joint).jobs[me].ReadPreview?
    requires Flips(Run(moves[..i], joint).world, Battle, Run(moves[..i], joint).jobs[me].round)
    ensures InBattle(Run(moves[..i], joint), Run(moves[..i], joint).jobs[me].round)
    ensures Run(moves[..i], joint).world.result.Some?
  {
    UndisturbedPrefix(moves, joint, i);
    RunSound(moves[..i], joint);
    var s := Run(moves[..i], joint);
    BattleAtRest(s);
    assert JobInv(s.world, s.jobs[me]);
  }

  /** The result at one moment of a round's battle is that at any other, before or after. */
  lemma OneResult(moves: seq<Move>, joint: bool, i: nat, j: nat, round: nat)
    requires Undisturbed(moves, joint) && i <= |moves| && j <= |moves|
    requires InBattle(Run(moves[..i], joint), round) && InBattle(Run(moves[..j], joint), round)
    ensures Run(moves[..i], joint).world.result == Run(moves[..j], joint).world.result
  {
    UndisturbedPrefix(moves, joint, i);
    UndisturbedPrefix(moves, joint, j);
    if i <= j {
      assert moves[..j][..i] == moves[..i];
      ResultStays(moves[..j], joint, i, round);
    } else {
      assert moves[..i][..j] == moves[..j];
      ResultStays(moves[..i], joint, j, round);
    }
  }

  /**
   * A preview that is read while its round's battle phase lasts reads the very result with
   * which the round is resolved, and so tells exactly the final damage.
   */
  lemma PreviewTellsTheRound(moves: seq<Move>, joint: bool, i: nat, j: nat, me: int, other: int)
    requires Undisturbed(moves, joint) && i <= |moves| && j <= |moves|
    requires me in Run(moves[..i], joint).jobs && Run(moves[..i], joint).jobs[me].ReadPreview?
    requires other in Run(moves[..j], joint).jobs && Run(moves[..j], joint).jobs[other].ResolveFlip?
    requires Run(moves[..i], joint).jobs[me].round == Run(moves[..j], joint).jobs[other].round
    requires Flips(Run(moves[..i], joint).world, Battle, Run(moves[..i], joint).jobs[me].round)
    requires Flips(Run(moves[..j], joint).world, Battle, Run(moves[..j], joint).jobs[other].round)
    ensures
      var t, u, result := Run(moves[..i], joint).jobs[me], Run(moves[..j], joint).jobs[other],
        Run(moves[..i], joint).world.result;
      && result == Some(u.fought)
      && PayloadOf(t.seen, t.round, result.value.winner) == PayloadOf(u.seen, u.round, u.fought.winner)
      && Tells(PayloadOf(t.seen, t.round, result.value.winner), Run(moves[..j], joint).world.rt, t.round,
           result.value.winner)
  {
    var u := Run(moves[..j], joint).jobs[other];
    UndisturbedPrefix(moves, joint, j);
    ResolverTellsAndWrites(moves[..j], joint, other, None);
    PreviewInBattle(moves, joint, i, me);
    ResolvesWhatIsStored(moves[..j], joint, other);
    OneResult(moves, joint, i, j, u.round);
    PreviewIsFinal(moves, joint, i, j, me, other, u.fought.winner);
  }

  // ---- which result is cached ----

  /** Settled rounds were marked, and the result of one, if it is the cached one, is as settled. */
  ghost predicate Remembered(w: World) {
    && (forall k | 1 <= k <= |w.history| :: k in w.marked)
    && (w.result.Some? && w.result.value.round in w.marked && 1 <= w.result.value.round <= |w.history| ==>
      w.history[w.result.value.round - 1] == w.result.value.winner)
  }

  lemma ProceedRemembers(w: World, me: int, t: Job, winner: Winner)
    requires WorldInv(w) && JobInv(w, t) && Remembered(w)
    ensures Remembered(Proceed(w, me, t, winner, true).world)
  {
  }

  lemma NextRemembers(s: State, me: int, a: Action)
    requires Inv(s) && Remembered(s.world)
    ensures Remembered(Next(s, me, a, true).world)
  {
    assert JobInv(s.world, JobOf(s, me));
    if a.Continue? {
      ProceedRemembers(s.world, me, JobOf(s, me), a.winner);
    }
  }

  /** The same with the one pending write counted in. */
  ghost predicate Recalls(s: State, h: seq<Winner>) {
    || (AtRest(s) && h == s.world.history && Remembered(s.world))
    || exists u :: Settling(s, u) && h == Behind(s, u).world.history && Remembered(Behind(s, u).world)
  }

  lemma AlikeRemembers(x: World, y: World)
    requires Alike(x, y) && Remembered(y)
    ensures Remembered(x)
  {
  }

  lemma RestRecalls(s: State, me: int, a: Action, joint: bool) returns (h: seq<Winner>)
    requires AtRest(s) && Remembered(s.world)
    ensures Recalls(Next(s, me, a, joint), h)
    ensures joint ==> AtRest(Next(s, me, a, joint))
  {
    var t := JobOf(s, me);
    NextKeeps(s, me, a);
    NextRemembers(s, me, a);
    h := Next(s, me, a, true).world.history;
    if !joint {
      if a.Continue? && t.ResolveFlip? && Flips(s.world, Battle, t.round) {
        FlipLeavesWrite(s, me, a.winner);
        FlipIsBehind(s, me, a.winner);
      } else {
        assert JobInv(s.world, t);
        assert Next(s, me, a, false) == Next(s, me, a, true);
      }
    }
  }

  lemma BehindRemembers(s: State, u: int, me: int, winner: Winner)
    requires Settling(s, u) && me != u && !Overtakes(s, me, Continue(winner)) && Remembered(Behind(s, u).world)
    ensures Remembered(Completed(Proceed(s.world, me, JobOf(s, me), winner, false).world, s.jobs[u]))
  {
    var v, t := Behind(s, u), JobOf(s, me);
    assert JobOf(v, me) == t && JobInv(v.world, t);
    OneWrites(s, u);
    Commutes(s.world, s.jobs[u], me, t, winner);
    ProceedRemembers(v.world, me, t, winner);
    AlikeRemembers(
      Completed(Proceed(s.world, me, t, winner, false).world, s.jobs[u]), Proceed(v.world, me, t, winner, true).world);
  }

  lemma SettlingRecalls(s: State, u: int, me: int, a: Action) returns (h: seq<Winner>)
    requires Settling(s, u) && !Overtakes(s, me, a) && Remembered(Behind(s, u).world)
    ensures Recalls(Next(s, me, a, false), h)
  {
    h := Behind(s, u).world.history;
    if a.Continue? && me == u {
      assert Next(s, me, a, false) == Behind(s, u);
    } else {
      SettlingStays(s, u, me, a);
      WriteWaits(s, u, me, a);
      if a.Continue? {
        BehindRemembers(s, u, me, a.winner);
      }
    }
  }

  lemma {:induction false} RunRecalls(moves: seq<Move>, joint: bool) returns (h: seq<Winner>)
    requires Undisturbed(moves, joint)
    ensures Recalls(Run(moves, joint), h)
    decreases |moves|
  {
    if moves == [] {
      StartInv();
      h := [];
    } else {
      var n := |moves| - 1;
      UndisturbedPrefix(moves, joint, n);
      RunSound(moves[..n], joint);
      assert !joint ==> !OvertakesAt(moves, n);
      var before := RunRecalls(moves[..n], joint);
      h := OneMoveRecalls(Run(moves[..n], joint), moves[n].me, moves[n].action, joint, before);
    }
  }

  lemma OneMoveRecalls(s: State, me: int, a: Action, joint: bool, before: seq<Winner>) returns (h: seq<Winner>)
    requires Recalls(s, before) && if joint then AtRest(s) else !Overtakes(s, me, a)
    ensures Recalls(Next(s, me, a, joint), h)
  {
    if AtRest(s) && Remembered(s.world) {
      h := RestRecalls(s, me, a, joint);
    } else {
      var u :| Settling(s, u) && before == Behind(s, u).world.history && Remembered(Behind(s, u).world);
      NotJoint(s, u, joint);
      h := SettlingRecalls(s, u, me, a);
    }
  }

  lemma RestResult(s: State, me: int)
    requires Inv(s) && Remembered(s.world) && me in s.jobs && s.jobs[me].ReadPreview? && s.world.result.Some?
    requires s.world.result.value.round == s.jobs[me].round && 1 <= s.jobs[me].round <= |s.world.history|
    ensures s.world.result.value.winner == s.world.history[s.jobs[me].round - 1]
  {
    assert JobInv(s.world, s.jobs[me]);
  }

  lemma PendingResult(s: State, u: int, me: int)
    requires Settling(s, u) && Remembered(Behind(s, u).world)
    requires me in s.jobs && s.jobs[me].ReadPreview? && s.world.result.Some?
    requires s.world.result.value.round == s.jobs[me].round
    requires 1 <= s.jobs[me].round <= |Behind(s, u).world.history|
    ensures s.world.result.value.winner == Behind(s, u).world.history[s.jobs[me].round - 1]
  {
    assert me != u && Behind(s, u).jobs[me] == s.jobs[me];
    RestResult(Behind(s, u), me);
  }

  lemma RecalledResult(s: State, h: seq<Winner>, me: int)
    requires Recalls(s, h) && me in s.jobs && s.jobs[me].ReadPreview? && s.world.result.Some?
    requires s.world.result.value.round == s.jobs[me].round && 1 <= s.jobs[me].round <= |h|
    ensures s.world.result.value.winner == h[s.jobs[me].round - 1]
  {
    if AtRest(s) && h == s.world.history && Remembered(s.world) {
      RestResult(s, me);
    } else {
      var u :| Settling(s, u) && h == Behind(s, u).world.history && Remembered(Behind(s, u).world);
      PendingResult(s, u, me);
    }
  }

  /**
   * The exact condition for a preview of a round that has been settled by the time it is read.
   * What decides is the round of the cached result, which a reader could check if it were kept
   * with the events: a result of the round itself tells the settled damage, and that of another
   * round tells the damage of that round's winner, which is right only by coincidence.
   */
  lemma LatePreviewIff(moves: seq<Move>, joint: bool, me: int) returns (h: seq<Winner>)
    requires Undisturbed(moves, joint) && me in Run(moves, joint).jobs && Run(moves, joint).jobs[me].ReadPreview?
    requires Run(moves, joint).world.result.Some?
    ensures Results(Run(moves, joint), h)
    ensures
      var t, r := Run(moves, joint).jobs[me], Run(moves, joint).world.result.value;
      && 1 <= t.round <= |h| + 1
      && (t.round <= |h| ==>
        var told, settled := PayloadOf(t.seen, t.round, r.winner), PayloadOf(t.seen, t.round, h[t.round - 1]);
        && (r.round == t.round ==> told == settled)
        && (r.round != t.round ==> (told == settled <==> r.winner == h[t.round - 1])))
  {
    h := RunRecalls(moves, joint);
    var s := Run(moves, joint);
    JobSnap(s, me, h);
    if s.world.result.value.round == s.jobs[me].round <= |h| {
      RecalledResult(s, h, me);
    }
  }

  // ---- a late preview ----

  /** Worker 1 has still to read its preview of round 1. */
  predicate Late(start: Record, s: State) {
    JobOf(s, 1) == ReadPreview(1, start)
  }

  ghost predicate OthersIdle(s: State) {
    forall k :: k != 1 ==> JobOf(s, k) == Idle
  }

  lemma LockReleased(base: State, s: State, start: Record)
    requires base == Start() && start == base.world.rt && Fighting(base, s, 1, 7, None)
    ensures
      var c := Next(s, 1, Continue(None), false);
      && Late(start, c) && OthersIdle(c) && Marked(c.world, Fought(1, start.p1, start.p2, None))
      && c.world.rt == s.world.rt && c.world.history == []
  {
    forall k | k != 1 ensures JobOf(Next(s, 1, Continue(None), false), k) == Idle {
      assert JobOf(s, k) == JobOf(base, k);
    }
  }

  lemma FirstRound(start: Record, judge: Judge) returns (moves: seq<Move>)
    requires start == Start().world.rt && Decides(judge)
    ensures PlainFrom(moves, 0, judge)
    ensures
      var s := Run(moves, false);
      && Late(start, s) && OthersIdle(s) && Marked(s.world, Fought(1, start.p1, start.p2, None))
      && s.world.rt == start.(phase := Battle, combatRound := Some(1)) && s.world.history == []
  {
    var none: seq<Move> := [];
    var fought := Fight(none, 0, 1, None, judge);
    LockReleased(Run(none, false), Run(fought, false), start);
    moves := Then(fought, 0, 1, Continue(None), judge);
  }

  lemma FirstRoundWritten(start: Record, judge: Judge) returns (moves: seq<Move>)
    requires start == Start().world.rt && Decides(judge)
    ensures PlainFrom(moves, 0, judge)
    ensures
      var s := Run(moves, false);
      && Late(start, s) && OthersIdle(s)
      && s.world.rt.phase == Resolved && s.world.rt.round == 1 && s.world.rt.combatRound == None
      && s.world.rt.p1.roster == start.p1.roster.(gold := 10) && s.world.rt.p2.roster == start.p2.roster.(gold := 10)
      && s.world.history == [None]
  {
    var marked := FirstRound(start, judge);
    var flipped := FlipRound(marked, 0, 2, Fought(1, start.p1, start.p2, None), judge);
    moves := Write(flipped, 0, 2, judge);
  }

  lemma AdvancesAlone(s: State, me: int)
    requires s.world.rt.phase == Resolved && JobOf(s, me) == Idle && forall k :: !JobOf(s, k).Settle?
    ensures
      var a := Next(s, me, AdvanceResolved(s.world.rt.round), false);
      var b := Next(a, me, Continue(None), false);
      var c := Next(b, me, Continue(None), false);
      && JobOf(a, me).AdvanceFlip? && JobOf(b, me) == ClearRound
      && !Overtakes(a, me, Continue(None)) && !Overtakes(b, me, Continue(None))
      && c.world.rt == s.world.rt.(phase := ShopPlace, round := s.world.rt.round + 1, combatRound := None)
      && c.world.history == s.world.history && OnlyMoved(s, c, me) && JobOf(c, me) == Idle
  {
    var a := Next(s, me, AdvanceResolved(s.world.rt.round), false);
    forall u | u in a.jobs ensures !a.jobs[u].Settle? {
      assert u != me ==> a.jobs[u] == JobOf(s, u);
    }
  }

  /** Round 2 with worker 1 late and everybody else at rest. */
  ghost predicate InRound2(start: Record, s: State) {
    Late(start, s) && OthersIdle(s) && Ready(s.world.rt) && s.world.rt.round == 2 && s.world.history == [None]
  }

  lemma SecondRound(start: Record, judge: Judge) returns (moves: seq<Move>)
    requires start == Start().world.rt && Decides(judge)
    ensures PlainFrom(moves, 0, judge)
    ensures
      var s := Run(moves, false);
      && InRound2(start, s)
      && s.world.rt.p1.roster == start.p1.roster.(gold := 10) && s.world.rt.p2.roster == start.p2.roster.(gold := 10)
  {
    var written := FirstRoundWritten(start, judge);
    AdvancesAlone(Run(written, false), 3);
    moves := Then(written, 0, 3, AdvanceResolved(1), judge);
    moves := Then(moves, 0, 3, Continue(None), judge);
    moves := Then(moves, 0, 3, Continue(None), judge);
  }

  /** In the shop phase of round 2 player 1 buys a unit and places it. */
  lemma SecondShop(start: Record, shop: Economy.Shop, judge: Judge) returns (moves: seq<Move>)
    requires start == Start().world.rt && Decides(judge) && Stocked(shop)
    ensures PlainFrom(moves, 0, judge)
    ensures
      var s := Run(moves, false);
      InRound2(start, s) && HoldsOne(s.world.rt.p1.roster) && Vacant(s.world.rt.p2.roster)
  {
    var second := SecondRound(start, judge);
    var q: Economy.Player;
    moves, q := FieldOne(second, 0, 4, P1, shop, judge);
    TradedRound2(start, Run(second, false), Run(moves, false), q);
  }

  lemma TradedRound2(start: Record, s: State, c: State, q: Economy.Player)
    requires InRound2(start, s) && Traded(s, c, 4, P1, q)
    ensures InRound2(start, c) && c.world.rt.p1.roster == q && c.world.rt.p2 == s.world.rt.p2
  {
    forall k | k != 1 ensures JobOf(c, k) == Idle {
      assert k != 4 ==> JobOf(c, k) == JobOf(s, k);
    }
    assert JobOf(c, 1) == JobOf(s, 1);
  }

  /**
   * A run without a race, with battles as the engine judges them, in which the preview of the
   * tied first round is read so late that it tells the result of the second, for which player 1
   * has bought a unit: player 2 is told of a defeat in round 1 that did not happen.
   */
  lemma LatePreviewMisleads(shop: Economy.Shop, judge: Judge) returns (moves: seq<Move>)
    requires Decides(judge) && Stocked(shop)
    ensures RaceFree(moves) && AllJudged(moves, judge)
    ensures
      var s := Run(moves, false);
      && s.world.history == [None] && JobOf(s, 1).ReadPreview? && JobOf(s, 1).round == 1
      && s.world.result.Some? && s.world.result.value.round == 2
      && var told := PayloadOf(JobOf(s, 1).seen, 1, s.world.result.value.winner);
        told.p2.wiped && !told.p2.tie && told != PayloadOf(JobOf(s, 1).seen, 1, None)
  {
    var armed := SecondShop(Start().world.rt, shop, judge);
    moves := Fight(armed, 0, 4, Some(P1), judge);
    PlainIsJudged(moves, judge);
    assert JobOf(Run(moves, false), 1) == JobOf(Run(armed, false), 1);
    forall k ensures !OvertakesAt(moves, k) {
    }
  }
}
