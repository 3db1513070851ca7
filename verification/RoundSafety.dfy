/**
 * What every step of the round protocol keeps: hit points, gold, and which battle a
 * resolution settles. Here the flip to resolved and the write that follows it are one step;
 * module RoundRace takes them apart.
 */
module RoundSafety {
  import opened GameTypes
  import opened MatchPhase
  import opened MatchRules
  import opened RoundProtocol
  import Economy
  import EconomyLaws

  // ---- the record ----

  ghost predicate FairHalf(h: Half, rounds: nat) {
    EconomyLaws.Sound(h.roster) && EconomyLaws.Wealth(h.roster) == EconomyLaws.ROUND_GOLD * rounds
  }

  predicate Live(w: World) { w.rt.phase != Finished }

  /** The record has come as far as the battle of a round. */
  predicate Reached(rt: Record, round: nat) {
    rt.phase == Finished || Height(Battle, round) <= Height(rt.phase, rt.round)
  }

  predicate SameHalves(a: Record, p1: Half, p2: Half) {
    a.p1 == p1 && a.p2 == p2
  }

  /** The score is that of the settled results; a live match pays 5 gold for each round begun. */
  ghost predicate Accounted(w: World) {
    && ScoreOf(w.rt) == Play(w.history)
    && (w.history == [] || VerdictOf(Play(w.history[..|w.history| - 1])) == Ongoing)
    && 1 <= w.rt.round <= 21
    && (Live(w) ==>
      && VerdictOf(Play(w.history)) == Ongoing
      && |w.history| == (if w.rt.phase == Resolved then w.rt.round else w.rt.round - 1)
      && FairHalf(w.rt.p1, |w.history| + 1) && FairHalf(w.rt.p2, |w.history| + 1))
  }

  /** A combat is marked only for rounds that were fought, and its result waits for the resolution. */
  ghost predicate Cached(w: World) {
    && (forall k <- w.marked :: Reached(w.rt, k))
    && (w.rt.combatRound.Some? ==> w.rt.combatRound.value in w.marked)
    && (w.rt.phase == Battle && w.rt.round in w.marked ==>
      && w.result.Some? && w.result.value.round == w.rt.round
      && SameHalves(w.rt, w.result.value.p1, w.result.value.p2))
  }

  ghost predicate WorldInv(w: World) {
    Accounted(w) && Cached(w)
  }

  // ---- the jobs ----

  /** A record read in the shop or battle phase of a round has the score that the round began with. */
  ghost predicate Snap(w: World, seen: Record, round: nat) {
    && (seen.phase == ShopPlace || seen.phase == Battle) && seen.round == round
    && 1 <= round <= |w.history| + 1 && ScoreOf(seen) == Play(w.history[..round - 1])
  }

  /** Between the launch of a combat and its mark. */
  predicate Launched(t: Job) {
    t.TakeLock? || t.CheckCombat? || t.ClearResult? || t.RecheckCombat? || t.WriteResult? || t.MarkCombat?
  }

  /** As long as the match lives, it is still in the battle that this job was launched for. */
  ghost predicate Open(w: World, round: nat) {
    && round !in w.marked && Reached(w.rt, round)
    && (Live(w) ==> w.rt.phase == Battle && w.rt.round == round)
  }

  ghost predicate Resolving(w: World, round: nat, seen: Record) {
    && Snap(w, seen, round) && round in w.marked
    && (w.rt.phase == Battle && w.rt.round == round ==> SameHalves(w.rt, seen.p1, seen.p2))
  }

  ghost predicate JobInv(w: World, t: Job) {
    match t
    case StartFlip(round, seen) => Snap(w, seen, round)
    case TakeLock(round, seen) => Snap(w, seen, round) && Open(w, round)
    case CheckCombat(round, seen) => Snap(w, seen, round) && Open(w, round)
    case ClearResult(round, seen, base) =>
      Snap(w, seen, round) && Open(w, round) && (Live(w) ==> SameHalves(w.rt, base.p1, base.p2))
    case RecheckCombat(round, seen, fought) =>
      Snap(w, seen, round) && Open(w, round) && fought.round == round && (Live(w) ==> SameHalves(w.rt, fought.p1, fought.p2))
    case WriteResult(round, seen, fought) =>
      Snap(w, seen, round) && Open(w, round) && fought.round == round && (Live(w) ==> SameHalves(w.rt, fought.p1, fought.p2))
    case MarkCombat(round, seen, fought) =>
      && Snap(w, seen, round) && Open(w, round) && fought.round == round
      && (Live(w) ==> SameHalves(w.rt, fought.p1, fought.p2) && w.result == Some(fought))
    case ReleaseLock(round, seen, ran) => Snap(w, seen, round) && (ran ==> round in w.marked)
    case ReadPreview(round, seen) => Snap(w, seen, round) && round in w.marked
    case ReadResult(round, seen) => Resolving(w, round, seen)
    case ResolveFlip(round, seen, fought) =>
      Resolving(w, round, seen) && (w.rt.phase == Battle && w.rt.round == round ==> w.result == Some(fought))
    case Settle(_, _, _) => false
    case ForfeitFlip(seen) => seen.phase != Finished
    case CommitRoster(side, seen, next) =>
      && Snap(w, seen, seen.round) && EconomyLaws.Sound(next)
      && EconomyLaws.Wealth(next) == EconomyLaws.ROUND_GOLD * seen.round
    case _ => true
  }

  ghost predicate Apart(t: Job, u: Job) {
    Launched(t) && Launched(u) ==> t.round != u.round
  }

  ghost predicate Inv(s: State) {
    && WorldInv(s.world)
    && (forall me <- s.jobs :: JobInv(s.world, s.jobs[me]))
    && (forall i, j | i in s.jobs && j in s.jobs && i != j :: Apart(s.jobs[i], s.jobs[j]))
  }

  /** What a step from w to e leaves of the jobs of the others. */
  ghost predicate Spares(w: World, t: Job, e: Effect, u: Job) {
    JobInv(w, u) && Apart(t, u) ==> JobInv(e.world, u) && Apart(e.job, u)
  }

  ghost predicate Keeps(w: World, t: Job, e: Effect) {
    WorldInv(e.world) && JobInv(e.world, e.job) && forall u: Job :: Spares(w, t, e, u)
  }

  lemma ReadKeeps(w: World, a: Action)
    requires WorldInv(w)
    ensures JobInv(w, Begin(w, a)) && !Launched(Begin(w, a))
  {
    assert w.history[..|w.history|] == w.history;
    match a
    case RosterAction(side, move, shop, offers) =>
      var roster := (if side.P1? then w.rt.p1 else w.rt.p2).roster;
      if w.rt.phase == ShopPlace && EconomyLaws.FreshId(roster, move) {
        var h := Economy.Hand(roster, shop);
        var deal := (count: nat) => offers;
        EconomyLaws.ActionKeepsSound(h, move, deal);
        EconomyLaws.ActionKeepsWealth(h, move, deal);
      }
    case _ =>
  }

  lemma StartWorld(w: World, me: int, t: Job, winner: Winner)
    requires WorldInv(w) && JobInv(w, t) && t.StartFlip?
    ensures
      var e := Proceed(w, me, t, winner, true);
      WorldInv(e.world) && JobInv(e.world, e.job)
  {
  }

  lemma StartSpares(w: World, me: int, t: Job, winner: Winner, u: Job)
    requires WorldInv(w) && JobInv(w, t) && t.StartFlip?
    ensures Spares(w, t, Proceed(w, me, t, winner, true), u)
  {
  }

  lemma StartKeeps(w: World, me: int, t: Job, winner: Winner)
    requires WorldInv(w) && JobInv(w, t) && t.StartFlip?
    ensures Keeps(w, t, Proceed(w, me, t, winner, true))
  {
    StartWorld(w, me, t, winner);
    forall u: Job ensures Spares(w, t, Proceed(w, me, t, winner, true), u) {
      StartSpares(w, me, t, winner, u);
    }
  }

  /** The combat lock carries no fact: its loss or expiry breaks nothing. */
  lemma LockIrrelevant(w: World, lock: Option<int>, u: Job)
    ensures JobInv(w.(lock := lock), u) <==> JobInv(w, u)
  {
  }

  lemma LockKeeps(w: World, me: int, t: Job, winner: Winner)
    requires WorldInv(w) && JobInv(w, t) && (t.TakeLock? || t.ReleaseLock?)
    ensures Keeps(w, t, Proceed(w, me, t, winner, true))
  {
    var e := Proceed(w, me, t, winner, true);
    LockIrrelevant(w, e.world.lock, e.job);
    forall u: Job ensures Spares(w, t, e, u) {
      LockIrrelevant(w, e.world.lock, u);
    }
  }

  lemma CheckWorld(w: World, me: int, t: Job, winner: Winner)
    requires WorldInv(w) && JobInv(w, t) && (t.CheckCombat? || t.RecheckCombat?)
    ensures
      var e := Proceed(w, me, t, winner, true);
      WorldInv(e.world) && JobInv(e.world, e.job)
  {
  }

  lemma CheckSpares(w: World, me: int, t: Job, winner: Winner, u: Job)
    requires WorldInv(w) && JobInv(w, t) && (t.CheckCombat? || t.RecheckCombat?)
    ensures Spares(w, t, Proceed(w, me, t, winner, true), u)
  {
  }

  lemma CheckKeeps(w: World, me: int, t: Job, winner: Winner)
    requires WorldInv(w) && JobInv(w, t) && (t.CheckCombat? || t.RecheckCombat?)
    ensures Keeps(w, t, Proceed(w, me, t, winner, true))
  {
    CheckWorld(w, me, t, winner);
    forall u: Job ensures Spares(w, t, Proceed(w, me, t, winner, true), u) {
      CheckSpares(w, me, t, winner, u);
    }
  }

  lemma ClearWorld(w: World, me: int, t: Job, winner: Winner)
    requires WorldInv(w) && JobInv(w, t) && t.ClearResult?
    ensures
      var e := Proceed(w, me, t, winner, true);
      WorldInv(e.world) && JobInv(e.world, e.job)
  {
  }

  lemma ClearSpares(w: World, me: int, t: Job, winner: Winner, u: Job)
    requires WorldInv(w) && JobInv(w, t) && t.ClearResult?
    ensures Spares(w, t, Proceed(w, me, t, winner, true), u)
  {
  }

  lemma ClearKeeps(w: World, me: int, t: Job, winner: Winner)
    requires WorldInv(w) && JobInv(w, t) && t.ClearResult?
    ensures Keeps(w, t, Proceed(w, me, t, winner, true))
  {
    ClearWorld(w, me, t, winner);
    forall u: Job ensures Spares(w, t, Proceed(w, me, t, winner, true), u) {
      ClearSpares(w, me, t, winner, u);
    }
  }

  lemma WriteWorld(w: World, me: int, t: Job, winner: Winner)
    requires WorldInv(w) && JobInv(w, t) && t.WriteResult?
    ensures
      var e := Proceed(w, me, t, winner, true);
      WorldInv(e.world) && JobInv(e.world, e.job)
  {
  }

  lemma WriteSpares(w: World, me: int, t: Job, winner: Winner, u: Job)
    requires WorldInv(w) && JobInv(w, t) && t.WriteResult?
    ensures Spares(w, t, Proceed(w, me, t, winner, true), u)
  {
  }

  lemma WriteKeeps(w: World, me: int, t: Job, winner: Winner)
    requires WorldInv(w) && JobInv(w, t) && t.WriteResult?
    ensures Keeps(w, t, Proceed(w, me, t, winner, true))
  {
    WriteWorld(w, me, t, winner);
    forall u: Job ensures Spares(w, t, Proceed(w, me, t, winner, true), u) {
      WriteSpares(w, me, t, winner, u);
    }
  }

  lemma MarkWorld(w: World, me: int, t: Job, winner: Winner)
    requires WorldInv(w) && JobInv(w, t) && t.MarkCombat?
    ensures
      var e := Proceed(w, me, t, winner, true);
      WorldInv(e.world) && JobInv(e.world, e.job)
  {
  }

  lemma MarkSpares(w: World, me: int, t: Job, winner: Winner, u: Job)
    requires WorldInv(w) && JobInv(w, t) && t.MarkCombat?
    ensures Spares(w, t, Proceed(w, me, t, winner, true), u)
  {
  }

  lemma MarkKeeps(w: World, me: int, t: Job, winner: Winner)
    requires WorldInv(w) && JobInv(w, t) && t.MarkCombat?
    ensures Keeps(w, t, Proceed(w, me, t, winner, true))
  {
    MarkWorld(w, me, t, winner);
    forall u: Job ensures Spares(w, t, Proceed(w, me, t, winner, true), u) {
      MarkSpares(w, me, t, winner, u);
    }
  }

  lemma PlaySnoc(rounds: seq<Winner>, winner: Winner)
    requires VerdictOf(Play(rounds)) == Ongoing
    ensures Play(rounds + [winner]) == ResolveRound(Play(rounds), winner)
  {
    assert (rounds + [winner])[..|rounds|] == rounds;
  }

  lemma PaidFair(h: Half, hp: int, rounds: nat)
    requires FairHalf(h, rounds)
    ensures FairHalf(Paid(WithHp(h, hp)), rounds + 1)
  {
    EconomyLaws.GoldSound(h.roster, h.roster.gold + EconomyLaws.ROUND_GOLD);
  }

  /** The world after the one step that settles the running battle with a result. */
  function Resolution(w: World, seen: Record, fought: Fought): World {
    SettledWorld(Flipped(w, w.rt.(phase := Resolved)), seen, fought)
  }

  lemma ResolutionAccounts(w: World, seen: Record, fought: Fought)
    requires WorldInv(w) && w.rt.phase == Battle && Resolving(w, w.rt.round, seen)
    ensures WorldInv(Resolution(w, seen, fought))
  {
    assert w.history[..w.rt.round - 1] == w.history;
    PlaySnoc(w.history, fought.winner);
    assert (w.history + [fought.winner])[..|w.history|] == w.history;
    var after := ResolveRound(ScoreOf(seen), fought.winner);
    PaidFair(seen.p1, after.hp1, |w.history| + 1);
    PaidFair(seen.p2, after.hp2, |w.history| + 1);
  }

  lemma ResolutionSpares(w: World, seen: Record, fought: Fought, u: Job)
    requires WorldInv(w) && w.rt.phase == Battle && Resolving(w, w.rt.round, seen)
    requires JobInv(w, u)
    ensures JobInv(Resolution(w, seen, fought), u)
  {
    var e := Resolution(w, seen, fought);
    assert forall k | 0 <= k <= |w.history| :: e.history[..k] == w.history[..k];
  }

  lemma ResolveKeeps(w: World, me: int, t: Job, winner: Winner)
    requires WorldInv(w) && JobInv(w, t) && t.ResolveFlip?
    ensures Keeps(w, t, Proceed(w, me, t, winner, true))
  {
    if Flips(w, Battle, t.round) {
      ResolutionAccounts(w, t.seen, t.fought);
      forall u: Job ensures Spares(w, t, Proceed(w, me, t, winner, true), u) {
        if JobInv(w, u) {
          ResolutionSpares(w, t.seen, t.fought, u);
        }
      }
    }
  }

  lemma AdvanceWorld(w: World, me: int, t: Job, winner: Winner)
    requires WorldInv(w) && JobInv(w, t) && t.AdvanceFlip?
    ensures
      var e := Proceed(w, me, t, winner, true);
      WorldInv(e.world) && JobInv(e.world, e.job)
  {
    EndsWithin21(w.history);
  }

  lemma AdvanceSpares(w: World, me: int, t: Job, winner: Winner, u: Job)
    requires WorldInv(w) && JobInv(w, t) && t.AdvanceFlip?
    ensures Spares(w, t, Proceed(w, me, t, winner, true), u)
  {
  }

  lemma AdvanceKeeps(w: World, me: int, t: Job, winner: Winner)
    requires WorldInv(w) && JobInv(w, t) && t.AdvanceFlip?
    ensures Keeps(w, t, Proceed(w, me, t, winner, true))
  {
    AdvanceWorld(w, me, t, winner);
    forall u: Job ensures Spares(w, t, Proceed(w, me, t, winner, true), u) {
      AdvanceSpares(w, me, t, winner, u);
    }
  }

  lemma ClearRoundWorld(w: World, me: int, t: Job, winner: Winner)
    requires WorldInv(w) && JobInv(w, t) && t.ClearRound?
    ensures
      var e := Proceed(w, me, t, winner, true);
      WorldInv(e.world) && JobInv(e.world, e.job)
  {
  }

  lemma ClearRoundSpares(w: World, me: int, t: Job, winner: Winner, u: Job)
    requires WorldInv(w) && JobInv(w, t) && t.ClearRound?
    ensures Spares(w, t, Proceed(w, me, t, winner, true), u)
  {
  }

  lemma ClearRoundKeeps(w: World, me: int, t: Job, winner: Winner)
    requires WorldInv(w) && JobInv(w, t) && t.ClearRound?
    ensures Keeps(w, t, Proceed(w, me, t, winner, true))
  {
    ClearRoundWorld(w, me, t, winner);
    forall u: Job ensures Spares(w, t, Proceed(w, me, t, winner, true), u) {
      ClearRoundSpares(w, me, t, winner, u);
    }
  }

  lemma ForfeitWorld(w: World, me: int, t: Job, winner: Winner)
    requires WorldInv(w) && JobInv(w, t) && t.ForfeitFlip?
    ensures
      var e := Proceed(w, me, t, winner, true);
      WorldInv(e.world) && JobInv(e.world, e.job)
  {
  }

  lemma ForfeitSpares(w: World, me: int, t: Job, winner: Winner, u: Job)
    requires WorldInv(w) && JobInv(w, t) && t.ForfeitFlip?
    ensures Spares(w, t, Proceed(w, me, t, winner, true), u)
  {
  }

  lemma ForfeitKeeps(w: World, me: int, t: Job, winner: Winner)
    requires WorldInv(w) && JobInv(w, t) && t.ForfeitFlip?
    ensures Keeps(w, t, Proceed(w, me, t, winner, true))
  {
    ForfeitWorld(w, me, t, winner);
    forall u: Job ensures Spares(w, t, Proceed(w, me, t, winner, true), u) {
      ForfeitSpares(w, me, t, winner, u);
    }
  }

  lemma CommitWorld(w: World, me: int, t: Job, winner: Winner)
    requires WorldInv(w) && JobInv(w, t) && t.CommitRoster?
    ensures
      var e := Proceed(w, me, t, winner, true);
      WorldInv(e.world) && JobInv(e.world, e.job)
  {
    assert w.history[..|w.history|] == w.history;
  }

  lemma CommitSpares(w: World, me: int, t: Job, winner: Winner, u: Job)
    requires WorldInv(w) && JobInv(w, t) && t.CommitRoster?
    ensures Spares(w, t, Proceed(w, me, t, winner, true), u)
  {
  }

  lemma CommitKeeps(w: World, me: int, t: Job, winner: Winner)
    requires WorldInv(w) && JobInv(w, t) && t.CommitRoster?
    ensures Keeps(w, t, Proceed(w, me, t, winner, true))
  {
    CommitWorld(w, me, t, winner);
    forall u: Job ensures Spares(w, t, Proceed(w, me, t, winner, true), u) {
      CommitSpares(w, me, t, winner, u);
    }
  }

  lemma ReadResultKeeps(w: World, me: int, t: Job, winner: Winner)
    requires WorldInv(w) && JobInv(w, t) && (t.Idle? || t.ReadPreview? || t.ReadResult?)
    ensures Keeps(w, t, Proceed(w, me, t, winner, true))
  {
  }

  lemma ProceedKeeps(w: World, me: int, t: Job, winner: Winner)
    requires WorldInv(w) && JobInv(w, t)
    ensures Keeps(w, t, Proceed(w, me, t, winner, true))
  {
    match t
    case StartFlip(_, _) => StartKeeps(w, me, t, winner);
    case TakeLock(_, _) => LockKeeps(w, me, t, winner);
    case ReleaseLock(_, _, _) => LockKeeps(w, me, t, winner);
    case CheckCombat(_, _) => CheckKeeps(w, me, t, winner);
    case RecheckCombat(_, _, _) => CheckKeeps(w, me, t, winner);
    case ClearResult(_, _, _) => ClearKeeps(w, me, t, winner);
    case WriteResult(_, _, _) => WriteKeeps(w, me, t, winner);
    case MarkCombat(_, _, _) => MarkKeeps(w, me, t, winner);
    case ResolveFlip(_, _, _) => ResolveKeeps(w, me, t, winner);
    case AdvanceFlip(_) => AdvanceKeeps(w, me, t, winner);
    case ClearRound => ClearRoundKeeps(w, me, t, winner);
    case ForfeitFlip(_) => ForfeitKeeps(w, me, t, winner);
    case CommitRoster(_, _, _) => CommitKeeps(w, me, t, winner);
    case Settle(_, _, _) =>
    case _ => ReadResultKeeps(w, me, t, winner);
  }

  lemma StepKeeps(w: World, me: int, t: Job, a: Action)
    requires WorldInv(w) && JobInv(w, t)
    ensures Keeps(w, t, Step(w, me, t, a, true))
  {
    match a
    case Continue(winner) => ProceedKeeps(w, me, t, winner);
    case LockExpires => UnlockKeeps(w, t);
    case _ => ReadKeeps(w, a);
  }

  lemma UnlockKeeps(w: World, t: Job)
    requires WorldInv(w) && JobInv(w, t)
    ensures Keeps(w, t, Effect(w.(lock := None), t))
  {
    LockIrrelevant(w, None, t);
    forall u: Job ensures Spares(w, t, Effect(w.(lock := None), t), u) {
      LockIrrelevant(w, None, u);
    }
  }

  lemma NextKeeps(s: State, me: int, a: Action)
    requires Inv(s)
    ensures Inv(Next(s, me, a, true))
  {
    var t := JobOf(s, me);
    var e := Step(s.world, me, t, a, true);
    StepKeeps(s.world, me, t, a);
    forall i | i in s.jobs && i != me ensures JobInv(e.world, s.jobs[i]) && Apart(e.job, s.jobs[i]) {
      assert Apart(t, s.jobs[i]);
      assert Spares(s.world, t, e, s.jobs[i]);
    }
  }

  lemma {:induction false} EmptyTotal(n: nat)
    ensures EconomyLaws.Total(EmptySlots(n)) == 0
  {
    if n > 0 {
      EmptyTotal(n - 1);
    }
  }

  lemma EmptyWealth(s: Economy.Player, n: nat, m: nat)
    requires s.board == EmptySlots(n) && s.bench == EmptySlots(m)
    ensures EconomyLaws.Wealth(s) == s.gold
  {
    EmptyTotal(n);
    EmptyTotal(m);
  }

  lemma EmptySound(s: Economy.Player, n: nat, m: nat)
    requires s.board == EmptySlots(n) && s.bench == EmptySlots(m) && n == 9 && m == 8 && s.gold >= 0
    ensures EconomyLaws.Sound(s)
  {
    assert forall q | s.Has(q) :: s.At(q).None?;
  }

  lemma StartFair()
    ensures FairHalf(Start().world.rt.p1, 1) && FairHalf(Start().world.rt.p2, 1)
  {
    var p := Start().world.rt.p1.roster;
    EmptyWealth(p, 9, 8);
    EmptySound(p, 9, 8);
  }

  lemma StartInv()
    ensures Inv(Start())
  {
    StartFair();
  }

  lemma {:induction false} RunKeeps(moves: seq<Move>)
    ensures Inv(Run(moves, true))
    decreases |moves|
  {
    if moves == [] {
      StartInv();
    } else {
      var n := |moves| - 1;
      RunKeeps(moves[..n]);
      NextKeeps(Run(moves[..n], true), moves[n].me, moves[n].action);
    }
  }
}
