/**
 * Damage between rounds and the length of a match: `damageFor` and `resolveRound` of
 * backend/src/runtime/match.runtime.adapter.ts.
 */
module MatchRules {
  import opened GameTypes

  const START_HP := 100
  const TIE_DAMAGE := 5

  /** The outcome of one battle; None is a tie. */
  type Winner = Option<Side>

  datatype Score = Score(hp1: int, hp2: int, wipes1: int, wipes2: int)

  datatype Damages = Damages(p1: int, p2: int, wipes1: int, wipes2: int)

  /** A tie hurts both; otherwise the loser pays five times the next wipe index, up to 5. */
  function DamageFor(winner: Winner, wipes1: int, wipes2: int): Damages {
    match winner
    case None => Damages(TIE_DAMAGE, TIE_DAMAGE, wipes1, wipes2)
    case Some(P1) => var next := Min(5, wipes2 + 1); Damages(0, next * 5, wipes1, next)
    case Some(P2) => var next := Min(5, wipes1 + 1); Damages(next * 5, 0, next, wipes2)
  }

  datatype Verdict = Ongoing | Drawn | Won(side: Side)

  function VerdictOf(s: Score): Verdict {
    if s.hp1 <= 0 && s.hp2 <= 0 then Drawn
    else if s.hp1 <= 0 then Won(P2)
    else if s.hp2 <= 0 then Won(P1)
    else Ongoing
  }

  function ResolveRound(s: Score, winner: Winner): Score {
    var d := DamageFor(winner, s.wipes1, s.wipes2);
    Score(Max(0, s.hp1 - d.p1), Max(0, s.hp2 - d.p2), d.wipes1, d.wipes2)
  }

  const START := Score(START_HP, START_HP, 0, 0)

  /** The score after a list of rounds; a match that is decided takes no more of them. */
  function Play(rounds: seq<Winner>): Score {
    if rounds == [] then START else
    var before := Play(rounds[..|rounds| - 1]);
    if VerdictOf(before) == Ongoing then ResolveRound(before, rounds[|rounds| - 1]) else before
  }

  // ---- the score in closed form ----

  function Count(rounds: seq<Winner>, w: Winner): nat {
    if rounds == [] then 0
    else Count(rounds[..|rounds| - 1], w) + if rounds[|rounds| - 1] == w then 1 else 0
  }

  /** 5 * min(1, 5) + ... + 5 * min(n, 5). */
  function WipeDamage(n: nat): nat {
    if n == 0 then 0 else WipeDamage(n - 1) + 5 * Min(n, 5)
  }

  /** What a side has left after its lost rounds and the ties, in whatever order they came. */
  function HpLeft(rounds: seq<Winner>, side: Side): int {
    100 - WipeDamage(Count(rounds, Some(side.Other()))) - 5 * Count(rounds, None)
  }

  function ClosedScore(rounds: seq<Winner>): Score {
    Score(Max(0, HpLeft(rounds, P1)), Max(0, HpLeft(rounds, P2)),
      Min(5, Count(rounds, Some(P2))), Min(5, Count(rounds, Some(P1))))
  }

  /** As long as no earlier round was decisive, the score is the closed form. */
  lemma {:induction false} PlayIsClosed(rounds: seq<Winner>)
    requires rounds == [] || VerdictOf(Play(rounds[..|rounds| - 1])) == Ongoing
    ensures Play(rounds) == ClosedScore(rounds)
    decreases |rounds|
  {
    if rounds != [] {
      var before := rounds[..|rounds| - 1];
      if before != [] {
        OngoingBefore(before);
      }
      PlayIsClosed(before);
    }
  }

  /** A match that is still going on was going on all the time. */
  lemma {:induction false} OngoingBefore(rounds: seq<Winner>)
    requires rounds != [] && VerdictOf(Play(rounds)) == Ongoing
    ensures VerdictOf(Play(rounds[..|rounds| - 1])) == Ongoing
  {
  }

  /** It is going on exactly as long as the closed form leaves both sides hit points. */
  lemma {:induction false} OngoingIff(rounds: seq<Winner>)
    ensures VerdictOf(Play(rounds)) == Ongoing <==> HpLeft(rounds, P1) > 0 && HpLeft(rounds, P2) > 0
    decreases |rounds|
  {
    if rounds != [] {
      var before := rounds[..|rounds| - 1];
      OngoingIff(before);
      if VerdictOf(Play(before)) == Ongoing {
        PlayIsClosed(rounds);
      }
    }
  }

  lemma {:induction false} CountIsMultiplicity(rounds: seq<Winner>, w: Winner)
    ensures Count(rounds, w) == multiset(rounds)[w]
    decreases |rounds|
  {
    if rounds != [] {
      CountIsMultiplicity(rounds[..|rounds| - 1], w);
      assert rounds == rounds[..|rounds| - 1] + [rounds[|rounds| - 1]];
    }
  }

  /** Two ongoing matches with the same results in any order have the same score. */
  lemma OrderOfRoundsIrrelevant(x: seq<Winner>, y: seq<Winner>)
    requires multiset(x) == multiset(y)
    ensures VerdictOf(Play(x)) == Ongoing <==> VerdictOf(Play(y)) == Ongoing
    ensures VerdictOf(Play(x)) == Ongoing ==> Play(x) == Play(y)
  {
    forall w ensures Count(x, w) == Count(y, w) {
      CountIsMultiplicity(x, w);
      CountIsMultiplicity(y, w);
    }
    OngoingIff(x);
    OngoingIff(y);
    if VerdictOf(Play(x)) == Ongoing {
      if x != [] { OngoingBefore(x); }
      if y != [] { OngoingBefore(y); }
      PlayIsClosed(x);
      PlayIsClosed(y);
    }
  }

  // ---- how long a match lasts ----

  lemma {:induction false} CountsAddUp(rounds: seq<Winner>)
    ensures Count(rounds, None) + Count(rounds, Some(P1)) + Count(rounds, Some(P2)) == |rounds|
    decreases |rounds|
  {
    if rounds != [] {
      CountsAddUp(rounds[..|rounds| - 1]);
      var last := rounds[|rounds| - 1];
      match last {
        case None =>
        case Some(P1) =>
        case Some(P2) =>
      }
    }
  }

  /** A wipe costs ten on average, but for five that the first one spares. */
  lemma {:induction false} WipeCost(n: nat)
    ensures WipeDamage(n) >= 10 * n - 5
    decreases n
  {
    if n > 0 {
      WipeCost(n - 1);
    }
  }

  /** No match is still going on after 21 rounds ... */
  lemma EndsWithin21(rounds: seq<Winner>)
    ensures VerdictOf(Play(rounds)) == Ongoing ==> |rounds| <= 20
  {
    OngoingIff(rounds);
    CountsAddUp(rounds);
    WipeCost(Count(rounds, Some(P1)));
    WipeCost(Count(rounds, Some(P2)));
  }

  function Repeat(w: Winner, n: nat): seq<Winner> {
    if n == 0 then [] else Repeat(w, n - 1) + [w]
  }

  lemma {:induction false} CountRepeat(x: seq<Winner>, w: Winner, n: nat, v: Winner)
    ensures Count(x + Repeat(w, n), v) == Count(x, v) + if v == w then n else 0
    decreases n
  {
    var y := x + Repeat(w, n);
    if n == 0 {
      assert y == x;
    } else {
      CountRepeat(x, w, n - 1, v);
      assert y[..|y| - 1] == x + Repeat(w, n - 1);
    }
  }

  lemma {:induction false} RepeatSize(w: Winner, n: nat)
    ensures |Repeat(w, n)| == n
  {
    if n > 0 {
      RepeatSize(w, n - 1);
    }
  }

  /** ... and 21 is attained: two wins each and 16 ties leave both sides alive after round 20. */
  lemma TwentyRoundsOngoing() returns (rounds: seq<Winner>)
    ensures |rounds| == 20 && VerdictOf(Play(rounds)) == Ongoing
    ensures forall w: Winner :: VerdictOf(Play(rounds + [w])) != Ongoing
  {
    var x := [Some(P1), Some(P2), Some(P1), Some(P2)];
    rounds := x + Repeat(None, 16);
    RepeatSize(None, 16);
    CountIsMultiplicity(x, None);
    CountIsMultiplicity(x, Some(P1));
    CountIsMultiplicity(x, Some(P2));
    assert multiset(x) == multiset{Some(P1), Some(P2), Some(P1), Some(P2)};
    CountRepeat(x, None, 16, None);
    CountRepeat(x, None, 16, Some(P1));
    CountRepeat(x, None, 16, Some(P2));
    assert WipeDamage(1) == 5 && WipeDamage(2) == 15;
    OngoingIff(rounds);
    forall w: Winner ensures VerdictOf(Play(rounds + [w])) != Ongoing {
      EndsWithin21(rounds + [w]);
    }
  }

  // ---- who wins ----

  /** A draw can only come from a tied round, and then exactly if the tie takes the last of both. */
  lemma DrawIff(rounds: seq<Winner>, w: Winner)
    requires VerdictOf(Play(rounds)) == Ongoing
    ensures VerdictOf(Play(rounds + [w])) == Drawn <==>
      w == None && HpLeft(rounds, P1) <= 5 && HpLeft(rounds, P2) <= 5
  {
    assert (rounds + [w])[..|rounds|] == rounds;
    if rounds != [] {
      OngoingBefore(rounds);
    }
    PlayIsClosed(rounds);
    OngoingIff(rounds);
  }

  /** The winner of a match has hit points left, and the other side has none. */
  lemma WonIff(rounds: seq<Winner>, side: Side)
    requires rounds == [] || VerdictOf(Play(rounds[..|rounds| - 1])) == Ongoing
    ensures VerdictOf(Play(rounds)) == Won(side) <==> HpLeft(rounds, side) > 0 && HpLeft(rounds, side.Other()) <= 0
  {
    PlayIsClosed(rounds);
  }
}
