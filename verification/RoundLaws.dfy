/**
 * What the round protocol promises over whole runs: with the flip to resolved and its write as
 * one step over all of them, and as two steps over all in which no advance overtakes a write.
 */
module RoundLaws {
  import opened GameTypes
  import opened MatchPhase
  import opened MatchRules
  import opened RoundProtocol
  import opened RoundSafety
  import opened RoundRace
  import EconomyLaws

  // ---- hit points, gold and length ----

  /** The score is that of the settled results, and a live match pays 5 gold for each round begun. */
  ghost predicate Lawful(w: World) {
    && ScoreOf(w.rt) == Play(w.history) == ClosedScore(w.history)
    && (Live(w) ==>
      && |w.history| == (if w.rt.phase == Resolved then w.rt.round else w.rt.round - 1)
      && EconomyLaws.Wealth(w.rt.p1.roster) == 5 * (|w.history| + 1)
      && EconomyLaws.Wealth(w.rt.p2.roster) == 5 * (|w.history| + 1)
      && w.rt.p1.roster.gold >= 0 && w.rt.p2.roster.gold >= 0)
  }

  lemma InvIsLawful(s: State)
    requires Inv(s)
    ensures Lawful(s.world)
  {
    PlayIsClosed(s.world.history);
  }

  /** The state is lawful, or one worker is about to make it so. */
  ghost predicate LawfulSoon(s: State) {
    if exists u :: u in s.jobs && Writing(s.jobs[u]) then
      exists u :: OnlyWriter(s, u) && s.jobs[u].Settle? && Lawful(Completed(s.world, s.jobs[u]))
    else Lawful(s.world)
  }

  lemma SplitIsLawful(s: State)
    requires SplitInv(s)
    ensures LawfulSoon(s)
  {
    if AtRest(s) {
      NobodyWrites(s);
      InvIsLawful(s);
    } else {
      var u :| Settling(s, u);
      OneWrites(s, u);
      InvIsLawful(Behind(s, u));
    }
  }

  /**
   * Hit points, wipe counters and wealth are as the settled results make them whenever no
   * write is pending, and otherwise they are so once the one pending write is done.
   */
  lemma ScoreIsHistory(moves: seq<Move>, joint: bool)
    requires Undisturbed(moves, joint)
    ensures LawfulSoon(Run(moves, joint))
  {
    RunSound(moves, joint);
    SplitIsLawful(Run(moves, joint));
  }

  lemma InvEndsBy21(s: State)
    requires Inv(s)
    ensures |s.world.history| <= 21 && s.world.rt.round <= 21
  {
    var h := s.world.history;
    EndsWithin21(h);
    if h != [] {
      EndsWithin21(h[..|h| - 1]);
    }
  }

  /** No match settles a 22nd round, or reaches one. */
  lemma MatchEndsBy21(moves: seq<Move>, joint: bool)
    requires Undisturbed(moves, joint)
    ensures Run(moves, joint).world.rt.round <= 21 && |Run(moves, joint).world.history| <= 21
  {
    RunSound(moves, joint);
    var s := Run(moves, joint);
    if AtRest(s) {
      InvEndsBy21(s);
    } else {
      var u :| Settling(s, u);
      InvEndsBy21(Behind(s, u));
    }
  }

  // ---- no ABA ----

  /** In the battle phase no write is pending. */
  lemma BattleAtRest(s: State)
    requires SplitInv(s) && s.world.rt.phase == Battle
    ensures AtRest(s)
  {
  }

  /** The job holds what is stored, and the result of the battle that the stored rosters fought. */
  ghost predicate HoldsStored(s: State, t: Job)
    requires t.ResolveFlip?
  {
    var w := s.world;
    && ScoreOf(t.seen) == ScoreOf(w.rt) && t.seen.p1 == w.rt.p1 && t.seen.p2 == w.rt.p2
    && t.round in w.marked && w.result == Some(t.fought) && t.fought.round == w.rt.round
    && t.fought.p1 == w.rt.p1 && t.fought.p2 == w.rt.p2
  }

  lemma ReadyToResolve(s: State, me: int)
    requires SplitInv(s) && me in s.jobs && s.jobs[me].ResolveFlip? && Flips(s.world, Battle, s.jobs[me].round)
    ensures HoldsStored(s, s.jobs[me])
  {
    BattleAtRest(s);
    assert JobInv(s.world, s.jobs[me]);
    assert s.world.history[..s.world.rt.round - 1] == s.world.history;
  }

  /**
   * No ABA: a worker whose flip from battle to resolved succeeds has computed with exactly
   * the score and rosters that are stored at the flip, and with the cached result of the
   * battle that these very rosters fought in this round.
   */
  lemma ResolvesWhatIsStored(moves: seq<Move>, joint: bool, me: int)
    requires Undisturbed(moves, joint)
    requires me in Run(moves, joint).jobs && Run(moves, joint).jobs[me].ResolveFlip?
    requires Flips(Run(moves, joint).world, Battle, Run(moves, joint).jobs[me].round)
    ensures HoldsStored(Run(moves, joint), Run(moves, joint).jobs[me])
  {
    RunSound(moves, joint);
    ReadyToResolve(Run(moves, joint), me);
  }

  // ---- the results so far, with the one that is yet to be written ----

  ghost predicate Results(s: State, h: seq<Winner>) {
    (AtRest(s) && h == s.world.history) || exists u :: Settling(s, u) && h == Behind(s, u).world.history
  }

  lemma OthersKeepHistory(w: World, me: int, t: Job, a: Action)
    requires !t.Settle?
    ensures Step(w, me, t, a, false).world.history == w.history
  {
  }

  lemma JointHistory(w: World, me: int, t: Job, a: Action)
    ensures w.history <= Step(w, me, t, a, true).world.history
  {
  }

  lemma RestGrows(s: State, me: int, a: Action, joint: bool) returns (h: seq<Winner>)
    requires AtRest(s)
    ensures Results(Next(s, me, a, joint), h) && s.world.history <= h
  {
    var t := JobOf(s, me);
    NextKeeps(s, me, a);
    JointHistory(s.world, me, t, a);
    h := Next(s, me, a, true).world.history;
    if joint {
      assert AtRest(Next(s, me, a, true));
    } else if a.Continue? && t.ResolveFlip? && Flips(s.world, Battle, t.round) {
      FlipLeavesWrite(s, me, a.winner);
      FlipIsBehind(s, me, a.winner);
    } else {
      assert JobInv(s.world, t);
      assert Next(s, me, a, false) == Next(s, me, a, true);
    }
  }

  /** Until it is done, the write that worker u has to do stays what it is. */
  lemma WriteWaits(s: State, u: int, me: int, a: Action)
    requires Settling(s, u) && !(a.Continue? && me == u)
    ensures
      var next := Next(s, me, a, false);
      && u in next.jobs && next.jobs[u] == s.jobs[u]
      && Behind(next, u).world.history == Behind(s, u).world.history
  {
    OneWrites(s, u);
    if me != u {
      assert !Writing(JobOf(s, me));
      OthersKeepHistory(s.world, me, JobOf(s, me), a);
    }
  }

  lemma SettlingGrows(s: State, u: int, me: int, a: Action)
    requires Settling(s, u) && !Overtakes(s, me, a)
    ensures Results(Next(s, me, a, false), Behind(s, u).world.history)
  {
    if a.Continue? && me == u {
      assert Next(s, me, a, false) == Behind(s, u);
    } else {
      SettlingStays(s, u, me, a);
      WriteWaits(s, u, me, a);
    }
  }

  lemma StepGrows(s: State, me: int, a: Action, joint: bool, before: seq<Winner>) returns (h: seq<Winner>)
    requires SplitInv(s) && Results(s, before)
    requires if joint then AtRest(s) else !Overtakes(s, me, a)
    ensures Results(Next(s, me, a, joint), h) && before <= h
  {
    if AtRest(s) && before == s.world.history {
      h := RestGrows(s, me, a, joint);
    } else {
      var u :| Settling(s, u) && before == Behind(s, u).world.history;
      NotJoint(s, u, joint);
      SettlingGrows(s, u, me, a);
      h := before;
    }
  }

  /** The results continue a list. */
  ghost predicate ContinuedBy(s: State, before: seq<Winner>, h: seq<Winner>) {
    Results(s, h) && before <= h
  }

  ghost predicate GrownFrom(s: State, before: seq<Winner>) {
    exists h :: ContinuedBy(s, before, h)
  }

  lemma RunStep(moves: seq<Move>, joint: bool, j: nat)
    requires 0 < j <= |moves|
    ensures Run(moves[..j], joint) == Next(Run(moves[..j - 1], joint), moves[j - 1].me, moves[j - 1].action, joint)
  {
    assert moves[..j][..j - 1] == moves[..j - 1];
  }

  lemma OneMoveGrows(moves: seq<Move>, joint: bool, j: nat, before: seq<Winner>)
    requires 0 < j <= |moves| && Undisturbed(moves, joint) && GrownFrom(Run(moves[..j - 1], joint), before)
    ensures GrownFrom(Run(moves[..j], joint), before)
  {
    UndisturbedPrefix(moves, joint, j - 1);
    RunSound(moves[..j - 1], joint);
    assert !joint ==> !OvertakesAt(moves, j - 1);
    var mid :| ContinuedBy(Run(moves[..j - 1], joint), before, mid);
    var h := StepGrows(Run(moves[..j - 1], joint), moves[j - 1].me, moves[j - 1].action, joint, mid);
    RunStep(moves, joint, j);
    assert ContinuedBy(Run(moves[..j], joint), before, h);
  }

  /** Results are never taken back. */
  lemma {:induction false} ResultsGrow(moves: seq<Move>, joint: bool, i: nat, j: nat, before: seq<Winner>)
    requires Undisturbed(moves, joint) && i <= j <= |moves| && Results(Run(moves[..i], joint), before)
    ensures GrownFrom(Run(moves[..j], joint), before)
    decreases j
  {
    if i == j {
      assert ContinuedBy(Run(moves[..i], joint), before, before);
    } else {
      ResultsGrow(moves, joint, i, j - 1, before);
      OneMoveGrows(moves, joint, j, before);
    }
  }

  lemma NotJoint(s: State, u: int, joint: bool)
    requires Settling(s, u) && (joint ==> AtRest(s))
    ensures !joint
  {
    if joint {
      OneWrites(s, u);
      NobodyWrites(s);
    }
  }

  lemma FlipIsBehind(s: State, me: int, winner: Winner)
    requires me in s.jobs && s.jobs[me].ResolveFlip? && Flips(s.world, Battle, s.jobs[me].round)
    ensures
      var next := Next(s, me, Continue(winner), false);
      me in next.jobs && next.jobs[me].Settle? && Behind(next, me) == Next(s, me, Continue(winner), true)
  {
    var next := Next(s, me, Continue(winner), false);
    assert next.jobs[me := Idle] == s.jobs[me := Idle];
  }

  lemma SomeResults(s: State) returns (h: seq<Winner>)
    requires SplitInv(s)
    ensures Results(s, h)
  {
    if AtRest(s) {
      h := s.world.history;
    } else {
      var u :| Settling(s, u);
      h := Behind(s, u).world.history;
    }
  }
}
