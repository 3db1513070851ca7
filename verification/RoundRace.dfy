/**
 * The round protocol as it is, with the flip to resolved and the write that follows it as two
 * commands. What RoundSafety proves survives every interleaving in which no advance to the
 * next round overtakes a write that is still to come.
 */
module RoundRace {
  import opened GameTypes
  import opened MatchPhase
  import opened MatchRules
  import opened RoundProtocol
  import opened RoundSafety

  /** An advance succeeds while some worker has still to write the round's resolution. */
  ghost predicate Overtakes(s: State, me: int, a: Action) {
    && a.Continue? && JobOf(s, me).AdvanceFlip? && Flips(s.world, Resolved, JobOf(s, me).round)
    && exists u :: u in s.jobs && s.jobs[u].Settle?
  }

  /** The k-th move of a run overtakes a write. */
  ghost predicate OvertakesAt(moves: seq<Move>, k: int) {
    0 <= k < |moves| && Overtakes(Run(moves[..k], false), moves[k].me, moves[k].action)
  }

  ghost predicate RaceFree(moves: seq<Move>) {
    forall k :: !OvertakesAt(moves, k)
  }

  lemma OvertakesEarlier(moves: seq<Move>, i: nat, k: int)
    requires i <= |moves| && k < i
    ensures OvertakesAt(moves[..i], k) <==> OvertakesAt(moves, k)
  {
    if 0 <= k {
      assert moves[..i][..k] == moves[..k];
    }
  }

  lemma RaceFreePrefix(moves: seq<Move>, i: nat)
    requires i <= |moves| && RaceFree(moves)
    ensures RaceFree(moves[..i])
  {
    forall k ensures !OvertakesAt(moves[..i], k) {
      if k < i {
        OvertakesEarlier(moves, i, k);
      }
    }
  }

  /** The world once the pending write of a job is done. */
  function Completed(w: World, t: Job): World
    requires t.Settle?
  {
    SettledWorld(w, t.seen, t.fought)
  }

  /** Worker u has flipped the round to resolved, and all is well once it has written. */
  ghost predicate Settling(s: State, u: int) {
    && u in s.jobs && s.jobs[u].Settle?
    && (s.world.rt.phase == Resolved || s.world.rt.phase == Finished)
    && Inv(State(Completed(s.world, s.jobs[u]), s.jobs[u := Idle]))
  }

  ghost predicate AtRest(s: State) {
    match s case State(_, _) => Inv(s)
  }

  ghost predicate SplitInv(s: State) {
    AtRest(s) || exists u :: Settling(s, u)
  }

  // ---- the write commutes with what the others do meanwhile ----

  /** Equal but for the list of flips, and for a combat mark that x may lack. */
  predicate Alike(x: World, y: World) {
    && x == y.(flips := x.flips, rt := y.rt.(combatRound := x.rt.combatRound))
    && (x.rt.combatRound == None || x.rt.combatRound == y.rt.combatRound)
  }

  lemma AlikeWorld(x: World, y: World)
    requires Alike(x, y) && WorldInv(y)
    ensures WorldInv(x)
  {
  }

  lemma AlikeJob(x: World, y: World, t: Job)
    requires Alike(x, y) && JobInv(y, t)
    ensures JobInv(x, t)
  {
  }

  lemma AlikeState(x: World, y: World, jobs: map<int, Job>)
    requires Alike(x, y) && Inv(State(y, jobs))
    ensures Inv(State(x, jobs))
  {
    AlikeWorld(x, y);
    forall me <- jobs ensures JobInv(x, jobs[me]) {
      AlikeJob(x, y, jobs[me]);
    }
  }

  predicate Over(w: World) {
    w.rt.phase == Resolved || w.rt.phase == Finished
  }

  /** The effects of a command before and after the pending write. */
  ghost predicate Commuted(w: World, p: Job, me: int, t: Job, winner: Winner)
    requires p.Settle?
  {
    var e := Proceed(w, me, t, winner, false);
    var f := Proceed(Completed(w, p), me, t, winner, true);
    e.job == f.job && Alike(Completed(e.world, p), f.world) && Over(e.world)
  }

  /** The commands of a combat before its mark. */
  predicate InCombat(t: Job) {
    t.TakeLock? || t.CheckCombat? || t.ClearResult? || t.RecheckCombat? || t.WriteResult? || t.ReleaseLock?
  }

  lemma CombatCommutes(w: World, p: Job, me: int, t: Job, winner: Winner)
    requires p.Settle? && Over(w) && InCombat(t)
    ensures Commuted(w, p, me, t, winner)
  {
  }

  lemma MarkCommutes(w: World, p: Job, me: int, t: Job, winner: Winner)
    requires p.Settle? && Over(w) && t.MarkCombat? && JobInv(Completed(w, p), t)
    ensures Commuted(w, p, me, t, winner)
  {
  }

  lemma FlipCommutes(w: World, p: Job, me: int, t: Job, winner: Winner)
    requires p.Settle? && Over(w) && (t.StartFlip? || t.ResolveFlip? || t.CommitRoster?)
    ensures Commuted(w, p, me, t, winner)
  {
  }

  lemma AdvanceCommutes(w: World, p: Job, me: int, t: Job, winner: Winner)
    requires p.Settle? && Over(w) && t.AdvanceFlip? && !Flips(w, Resolved, t.round)
    ensures Commuted(w, p, me, t, winner)
  {
  }

  lemma ForfeitCommutes(w: World, p: Job, me: int, t: Job, winner: Winner)
    requires p.Settle? && Over(w) && t.ForfeitFlip? && t.seen.phase != Finished
    ensures Commuted(w, p, me, t, winner)
  {
  }

  lemma Commutes(w: World, p: Job, me: int, t: Job, winner: Winner)
    requires p.Settle? && Over(w) && !t.Settle? && JobInv(Completed(w, p), t)
    requires !(t.AdvanceFlip? && Flips(w, Resolved, t.round))
    ensures Commuted(w, p, me, t, winner)
  {
    if InCombat(t) {
      CombatCommutes(w, p, me, t, winner);
    } else {
      match t
      case MarkCombat(_, _, _) => MarkCommutes(w, p, me, t, winner);
      case AdvanceFlip(_) => AdvanceCommutes(w, p, me, t, winner);
      case ForfeitFlip(_) => ForfeitCommutes(w, p, me, t, winner);
      case StartFlip(_, _) => FlipCommutes(w, p, me, t, winner);
      case ResolveFlip(_, _, _) => FlipCommutes(w, p, me, t, winner);
      case CommitRoster(_, _, _) => FlipCommutes(w, p, me, t, winner);
      case _ =>
    }
  }

  /** Whatever a worker reads while a write is pending, it starts nothing that depends on it. */
  lemma ReadsNothing(w: World, v: World, a: Action)
    requires Over(w)
    ensures JobInv(v, Begin(w, a)) && !Launched(Begin(w, a)) && !Begin(w, a).Settle?
  {
  }

  lemma SwapJob(s: State, me: int, t: Job)
    requires Inv(s) && JobInv(s.world, t) && !Launched(t)
    ensures Inv(State(s.world, s.jobs[me := t]))
  {
  }

  /** The state once worker u has written. */
  function Behind(s: State, u: int): State
    requires u in s.jobs && s.jobs[u].Settle?
  {
    State(Completed(s.world, s.jobs[u]), s.jobs[u := Idle])
  }

  lemma BehindJob(s: State, u: int, me: int, world: World, job: Job)
    requires u in s.jobs && s.jobs[u].Settle? && me != u
    ensures
      var next := State(world, s.jobs[me := job]);
      u in next.jobs && next.jobs[u] == s.jobs[u]
      && Behind(next, u) == State(Completed(world, s.jobs[u]), Behind(s, u).jobs[me := job])
  {
    assert s.jobs[me := job][u := Idle] == s.jobs[u := Idle][me := job];
  }

  lemma SettlingProceeds(s: State, u: int, me: int, winner: Winner)
    requires Settling(s, u) && me != u && !Overtakes(s, me, Continue(winner))
    ensures Settling(Next(s, me, Continue(winner), false), u)
  {
    var p, t, v := s.jobs[u], JobOf(s, me), Behind(s, u);
    var e := Proceed(s.world, me, t, winner, false);
    assert JobOf(v, me) == t && JobInv(v.world, t);
    Commutes(s.world, p, me, t, winner);
    NextKeeps(v, me, Continue(winner));
    BehindJob(s, u, me, e.world, e.job);
    AlikeState(Completed(e.world, p), Proceed(v.world, me, t, winner, true).world, v.jobs[me := e.job]);
  }

  lemma SettlingUnlocks(s: State, u: int, me: int)
    requires Settling(s, u)
    ensures Settling(Next(s, me, LockExpires, false), u)
  {
    var v := Behind(s, u);
    NextKeeps(v, me, LockExpires);
    var w := s.world.(lock := None);
    assert Completed(w, s.jobs[u]) == v.world.(lock := None);
    if me == u {
      assert s.jobs[u := s.jobs[u]] == s.jobs && v.jobs[u := Idle] == v.jobs;
    } else {
      BehindJob(s, u, me, w, JobOf(s, me));
    }
  }

  lemma SettlingReads(s: State, u: int, me: int, a: Action)
    requires Settling(s, u) && !a.Continue? && !a.LockExpires?
    ensures Settling(Next(s, me, a, false), u)
  {
    var t := JobOf(s, me);
    if t == Idle {
      ReadsNothing(s.world, Behind(s, u).world, a);
      SwapJob(Behind(s, u), me, Begin(s.world, a));
      BehindJob(s, u, me, s.world, Begin(s.world, a));
    } else {
      assert s.jobs[me := t] == s.jobs;
    }
  }

  /** Whatever the others do, bar overtaking it, the write stays to be done and all is well after it. */
  lemma SettlingStays(s: State, u: int, me: int, a: Action)
    requires Settling(s, u) && !Overtakes(s, me, a) && !(a.Continue? && me == u)
    ensures Settling(Next(s, me, a, false), u)
  {
    match a
    case Continue(winner) => SettlingProceeds(s, u, me, winner);
    case LockExpires => SettlingUnlocks(s, u, me);
    case _ => SettlingReads(s, u, me, a);
  }

  lemma SettlingKeeps(s: State, u: int, me: int, a: Action)
    requires Settling(s, u) && !Overtakes(s, me, a)
    ensures SplitInv(Next(s, me, a, false))
  {
    if a.Continue? && me == u {
      assert Next(s, me, a, false) == Behind(s, u);
    } else {
      SettlingStays(s, u, me, a);
    }
  }

  // ---- at rest ----

  /** A flip to resolved that succeeds leaves the write to be done; all else is as in one step. */
  lemma AtRestKeeps(s: State, me: int, a: Action)
    requires AtRest(s)
    ensures SplitInv(Next(s, me, a, false))
  {
    var t := JobOf(s, me);
    NextKeeps(s, me, a);
    if a.Continue? && t.ResolveFlip? && Flips(s.world, Battle, t.round) {
      FlipLeavesWrite(s, me, a.winner);
    } else {
      assert JobInv(s.world, t);
      assert Next(s, me, a, false) == Next(s, me, a, true);
    }
  }

  lemma FlipLeavesWrite(s: State, me: int, winner: Winner)
    requires me in s.jobs && s.jobs[me].ResolveFlip? && Flips(s.world, Battle, s.jobs[me].round)
    requires Inv(Next(s, me, Continue(winner), true))
    ensures Settling(Next(s, me, Continue(winner), false), me)
  {
    var t, next := s.jobs[me], Next(s, me, Continue(winner), false);
    assert next.jobs[me := Idle] == s.jobs[me := Idle];
    assert Behind(next, me) == Next(s, me, Continue(winner), true);
  }

  lemma {:induction false} RaceFreeKeeps(moves: seq<Move>)
    requires RaceFree(moves)
    ensures SplitInv(Run(moves, false))
    decreases |moves|
  {
    if moves == [] {
      StartInv();
    } else {
      var n := |moves| - 1;
      RaceFreePrefix(moves, n);
      assert !OvertakesAt(moves, n);
      RaceFreeKeeps(moves[..n]);
      var s := Run(moves[..n], false);
      if AtRest(s) {
        AtRestKeeps(s, moves[n].me, moves[n].action);
      } else {
        var u :| Settling(s, u);
        SettlingKeeps(s, u, moves[n].me, moves[n].action);
      }
    }
  }

  // ---- who writes ----

  predicate Writing(t: Job) { t.Settle? }

  /** Worker u alone has a resolution to write. */
  ghost predicate OnlyWriter(s: State, u: int) {
    u in s.jobs && forall i <- s.jobs :: Writing(s.jobs[i]) <==> i == u
  }

  lemma NobodyWrites(s: State)
    requires Inv(s)
    ensures forall i <- s.jobs :: !Writing(s.jobs[i])
  {
    forall i <- s.jobs ensures !Writing(s.jobs[i]) {
      assert JobInv(s.world, s.jobs[i]);
    }
  }

  lemma OneWrites(s: State, u: int)
    requires Settling(s, u)
    ensures OnlyWriter(s, u)
  {
    NobodyWrites(Behind(s, u));
    forall i <- s.jobs ensures Writing(s.jobs[i]) <==> i == u {
      assert i != u ==> Behind(s, u).jobs[i] == s.jobs[i];
    }
  }

  /** One step for flip and write, or two of them that no advance comes between. */
  ghost predicate Undisturbed(moves: seq<Move>, joint: bool) {
    joint || RaceFree(moves)
  }

  lemma RunSound(moves: seq<Move>, joint: bool)
    requires Undisturbed(moves, joint)
    ensures SplitInv(Run(moves, joint))
    ensures joint ==> AtRest(Run(moves, joint))
  {
    if joint {
      RunKeeps(moves);
    } else {
      RaceFreeKeeps(moves);
    }
  }

  lemma UndisturbedPrefix(moves: seq<Move>, joint: bool, i: nat)
    requires Undisturbed(moves, joint) && i <= |moves|
    ensures Undisturbed(moves[..i], joint)
  {
    if !joint {
      RaceFreePrefix(moves, i);
    }
  }
}
