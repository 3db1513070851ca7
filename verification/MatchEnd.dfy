/**
 * The terminal transition of a match: `finalize` and `eloDelta` of
 * backend/src/match/match.service.ts and `updateRating` of backend/src/user/user.service.ts.
 * The row lock makes each transaction one atomic step; a call may fail after its transaction.
 * Module MatchEndSteps interleaves the steps of any number of calls.
 */
module MatchEnd {
  import opened GameTypes

  type UserId = int

  datatype Status = InProgress | Over | Forfeited

  datatype Reason = HpZero | Forfeit | Disconnect

  datatype Change = Change(before: int, after: int, delta: int)

  datatype EndMessage = EndMessage(winner: Option<UserId>, reason: Reason, rating: Option<(Change, Change)>)

  /** The match row with its players, the ratings, and what the match has sent out so far. */
  datatype Db = Db(
    p1: UserId, p2: UserId, status: Status, winner: Option<UserId>,
    ratings: map<UserId, int>, cleanups: nat, published: seq<EndMessage>)

  // ---- ratings ----

  const ELO_K_FACTOR := 32

  /** Math.round: halves go up. */
  function Round(x: real): int { (x + 0.5).Floor }

  /** `expected` stands for 1 / (1 + 10^((opponent - own) / 400)), which lies between 0 and 1. */
  function EloDelta(score: int, expected: real): int {
    Round(ELO_K_FACTOR as real * (score as real - expected))
  }

  /** GREATEST(0, rating + delta). */
  function Clamped(rating: int, delta: int): int {
    Max(0, rating + delta)
  }

  /** The delta is within half a point of 32 * (score - expected), a half going up. */
  lemma EloDeltaIs(score: int, expected: real)
    ensures 2.0 * EloDelta(score, expected) as real - 1.0
      <= 64.0 * (score as real - expected) < 2.0 * EloDelta(score, expected) as real + 1.0
  {
    assert EloDelta(score, expected) == (32.0 * (score as real - expected) + 0.5).Floor;
  }

  /** A win is worth 0 to 32 points and a defeat costs as many. */
  lemma EloDeltaSign(expected: real)
    requires 0.0 < expected < 1.0
    ensures 0 <= EloDelta(1, expected) <= 32 && -32 <= EloDelta(0, expected) <= 0
  {
    EloDeltaIs(1, expected);
    EloDeltaIs(0, expected);
  }

  // ---- finalize as a function ----

  datatype Error = InvalidWinner | PlayerNotFound

  /** Where a call fails once its transaction is committed: nowhere, in the queue or in the pub/sub. */
  datatype Failure = NoFailure | QueueFails | PublishFails

  datatype Call = Call(winner: Option<UserId>, reason: Reason, expected: real, failure: Failure)

  datatype Reply = Finalized | AlreadyOver | Refused(error: Error) | Failed

  datatype Outcome = Outcome(db: Db, reply: Reply)

  function StatusFor(reason: Reason): Status {
    if reason == HpZero then Over else Forfeited
  }

  function ScheduleCleanup(db: Db): Db {
    db.(cleanups := db.cleanups + 1)
  }

  function DeltaFor(db: Db, c: Call): int {
    EloDelta(if c.winner == Some(db.p1) then 1 else 0, c.expected)
  }

  /** The two rating changes of a decided match. */
  function Changes(db: Db, c: Call): (Change, Change)
    requires db.p1 in db.ratings && db.p2 in db.ratings
  {
    var d := DeltaFor(db, c);
    var r1, r2 := db.ratings[db.p1], db.ratings[db.p2];
    (Change(r1, Clamped(r1, d), Clamped(r1, d) - r1), Change(r2, Clamped(r2, -d), Clamped(r2, -d) - r2))
  }

  function Rated(db: Db, c: Call): map<UserId, int>
    requires db.p1 in db.ratings && db.p2 in db.ratings
  {
    if c.winner.None? then db.ratings
    else
      var both := Changes(db, c);
      db.ratings[db.p1 := both.0.after][db.p2 := both.1.after]
  }

  /** The row of a match that this call ends. */
  function Ended(db: Db, c: Call): Db
    requires db.p1 in db.ratings && db.p2 in db.ratings
  {
    db.(status := StatusFor(c.reason), winner := c.winner, ratings := Rated(db, c))
  }

  function MessageOf(db: Db, c: Call): EndMessage
    requires db.p1 in db.ratings && db.p2 in db.ratings
  {
    EndMessage(c.winner, c.reason, if c.winner.None? then None else Some(Changes(db, c)))
  }

  predicate Known(db: Db) {
    db.p1 in db.ratings && db.p2 in db.ratings
  }

  /** What a call has to do after its transaction: nothing, repair the job, or also tell the end. */
  datatype Decision = Rejected(error: Error) | Repairs | Tells(message: EndMessage)

  datatype Transacted = Transacted(db: Db, next: Decision)

  /** A draw needs no players; a decided match rates both, or is refused as a whole. */
  function Transact(db: Db, c: Call): Transacted {
    if db.status != InProgress then Transacted(db, Repairs)
    else if c.winner.Some? && c.winner != Some(db.p1) && c.winner != Some(db.p2) then
      Transacted(db, Rejected(InvalidWinner))
    else if c.winner.None? then
      Transacted(db.(status := StatusFor(c.reason), winner := None), Tells(EndMessage(None, c.reason, None)))
    else if !Known(db) then Transacted(db, Rejected(PlayerNotFound))
    else Transacted(Ended(db, c), Tells(MessageOf(db, c)))
  }

  /** A whole call that nothing comes between. */
  function FinalizeCall(db: Db, c: Call): Outcome {
    var t := Transact(db, c);
    if t.next.Rejected? then Outcome(t.db, Refused(t.next.error))
    else if c.failure == QueueFails then Outcome(t.db, Failed)
    else
      var queued := ScheduleCleanup(t.db);
      if t.next.Repairs? then Outcome(queued, AlreadyOver)
      else if c.failure == PublishFails then Outcome(queued, Failed)
      else Outcome(queued.(published := queued.published + [t.next.message]), Finalized)
  }

  // ---- finalize step by step ----

  class MatchStore {
    const p1: UserId
    const p2: UserId
    var status: Status
    var winner: Option<UserId>
    var ratings: map<UserId, int>
    var cleanups: nat
    var published: seq<EndMessage>

    constructor (db: Db)
      ensures View() == db
    {
      p1, p2, status, winner := db.p1, db.p2, db.status, db.winner;
      ratings, cleanups, published := db.ratings, db.cleanups, db.published;
    }

    function View(): Db
      reads this
    {
      Db(p1, p2, status, winner, ratings, cleanups, published)
    }

    method UpdateRating(id: UserId, delta: int)
      requires id in ratings
      modifies this`ratings
      ensures ratings == old(ratings)[id := Clamped(old(ratings)[id], delta)]
    {
      ratings := ratings[id := Max(0, ratings[id] + delta)];
    }

    /** The rating half of the transaction: both players, by opposite deltas. */
    method RatePlayers(c: Call) returns (rating: (Change, Change))
      requires p1 != p2 && p1 in ratings && p2 in ratings && c.winner.Some?
      modifies this`ratings
      ensures ratings == Rated(old(View()), c) && rating == Changes(old(View()), c)
    {
      var r1, r2 := ratings[p1], ratings[p2];
      var p1Delta := EloDelta(if c.winner == Some(p1) then 1 else 0, c.expected);
      var p1After := Max(0, r1 + p1Delta);
      var p2After := Max(0, r2 - p1Delta);
      rating := (Change(r1, p1After, p1After - r1), Change(r2, p2After, p2After - r2));
      UpdateRating(p1, p1Delta);
      UpdateRating(p2, -p1Delta);
    }

    method Finalize(c: Call) returns (reply: Reply)
      requires p1 != p2
      modifies this
      ensures Outcome(View(), reply) == FinalizeCall(old(View()), c)
    {
      if status != InProgress {
        if c.failure == QueueFails {
          return Failed;
        }
        cleanups := cleanups + 1;
        return AlreadyOver;
      }
      if c.winner.Some? && c.winner != Some(p1) && c.winner != Some(p2) {
        return Refused(InvalidWinner);
      }
      var rating := None;
      if c.winner.Some? {
        if p1 !in ratings || p2 !in ratings {
          return Refused(PlayerNotFound);
        }
        var both := RatePlayers(c);
        rating := Some(both);
      }
      status := if c.reason == HpZero then Over else Forfeited;
      winner := c.winner;
      if c.failure == QueueFails {
        return Failed;
      }
      cleanups := cleanups + 1;
      if c.failure == PublishFails {
        return Failed;
      }
      published := published + [EndMessage(c.winner, c.reason, rating)];
      reply := Finalized;
    }
  }

  // ---- what a call does to the ratings ----

  /** The call ends the match: it finds it in progress and is not refused. */
  predicate Ends(db: Db, c: Call) {
    db.status == InProgress && !Transact(db, c).next.Rejected?
  }

  ghost predicate Sound(db: Db) {
    db.p1 != db.p2 && forall u <- db.ratings :: db.ratings[u] >= 0
  }

  function Loser(db: Db, c: Call): UserId {
    if c.winner == Some(db.p1) then db.p2 else db.p1
  }

  /** How many points the winner takes. */
  function Stake(db: Db, c: Call): int {
    if c.winner == Some(db.p1) then DeltaFor(db, c) else -DeltaFor(db, c)
  }

  /**
   * The winner never drops and the loser never rises; nobody else is touched. The sum of the
   * two ratings is preserved exactly if the loser can pay, and grows by the rest otherwise.
   */
  lemma RatingsMove(db: Db, c: Call)
    requires Sound(db) && Known(db) && 0.0 < c.expected < 1.0 && c.winner.Some? && Ends(db, c)
    ensures
      var r, w, l := FinalizeCall(db, c).db.ratings, c.winner.value, Loser(db, c);
      && r.Keys == db.ratings.Keys && w in r && l in r
      && r[w] == db.ratings[w] + Stake(db, c) && 0 <= Stake(db, c) <= 32
      && 0 <= r[l] <= db.ratings[l]
      && (forall u <- r :: u != w && u != l ==> r[u] == db.ratings[u])
      && (r[w] + r[l] == db.ratings[w] + db.ratings[l] <==> Stake(db, c) <= db.ratings[l])
      && r[w] + r[l] == db.ratings[w] + db.ratings[l] + Max(0, Stake(db, c) - db.ratings[l])
  {
    EloDeltaSign(c.expected);
  }

  /** The message that is published tells the ratings as they were and as they are stored. */
  lemma MessageTellsStored(db: Db, c: Call)
    requires Sound(db) && Known(db) && c.winner.Some? && FinalizeCall(db, c).reply == Finalized
    ensures
      var now := FinalizeCall(db, c).db;
      && |now.published| == |db.published| + 1
      && var m := now.published[|db.published|];
        && m.winner == now.winner && m.rating.Some?
        && m.rating.value.0 == Change(db.ratings[db.p1], now.ratings[db.p1], now.ratings[db.p1] - db.ratings[db.p1])
        && m.rating.value.1 == Change(db.ratings[db.p2], now.ratings[db.p2], now.ratings[db.p2] - db.ratings[db.p2])
  {
  }

  // ---- the exact end of a match ----

  /**
   * The winner's gain is 32 * (1 - chance), rounded to the nearest point, with c.expected the
   * chance of player 1; a half is rounded in favour of player 1.
   */
  predicate IsGain(db: Db, c: Call, gain: int) {
    if c.winner == Some(db.p1) then
      2.0 * gain as real - 1.0 <= 64.0 * (1.0 - c.expected) < 2.0 * gain as real + 1.0
    else
      2.0 * gain as real - 1.0 < 64.0 * c.expected <= 2.0 * gain as real + 1.0
  }

  lemma StakeIsGain(db: Db, c: Call)
    ensures IsGain(db, c, Stake(db, c))
  {
    EloDeltaIs(if c.winner == Some(db.p1) then 1 else 0, c.expected);
  }

  /** The ratings after a match that was worth this gain: nobody drops below zero. */
  ghost predicate Moved(before: map<UserId, int>, after: map<UserId, int>, winner: UserId, loser: UserId, gain: int) {
    && winner in before && loser in before && after.Keys == before.Keys
    && after[winner] == before[winner] + gain
    && after[loser] == (if before[loser] > gain then before[loser] - gain else 0)
    && forall u <- before | u != winner && u != loser :: after[u] == before[u]
  }

  /** The row is closed as the call says, with a hit point defeat as the only regular end. */
  predicate Closed(now: Db, c: Call) {
    now.winner == c.winner && (now.status == match c.reason case HpZero => Over case _ => Forfeited)
  }

  /** A rating as it was, as it is now, and the difference. */
  predicate Told(x: Change, before: map<UserId, int>, after: map<UserId, int>, u: UserId) {
    u in before && u in after && x.before == before[u] && x.after == after[u] && x.delta == after[u] - before[u]
  }

  /** What is sent out, unless the queue or the pub/sub fails first. */
  ghost predicate Announced(db: Db, now: Db, c: Call) {
    match c.failure
    case QueueFails => now.cleanups == db.cleanups && now.published == db.published
    case PublishFails => now.cleanups == db.cleanups + 1 && now.published == db.published
    case NoFailure =>
      && now.cleanups == db.cleanups + 1 && |now.published| == |db.published| + 1
      && db.published <= now.published
      && var m := now.published[|db.published|];
        && m.winner == c.winner && m.reason == c.reason && (m.rating.Some? <==> c.winner.Some?)
        && (m.rating.Some? ==>
          && Told(m.rating.value.0, db.ratings, now.ratings, db.p1)
          && Told(m.rating.value.1, db.ratings, now.ratings, db.p2))
  }

  /**
   * A call ends the match exactly if it is in progress and the call names nobody, or one of
   * two known players; then row, ratings, job and message are these, whatever fails.
   */
  lemma MatchEnds(db: Db, c: Call) returns (gain: int)
    requires Sound(db) && 0.0 < c.expected < 1.0
    ensures IsGain(db, c, gain)
    ensures Ends(db, c) <==>
      db.status == InProgress && (c.winner.None? || ((c.winner == Some(db.p1) || c.winner == Some(db.p2)) && Known(db)))
    ensures
      var e := FinalizeCall(db, c);
      Ends(db, c) ==>
        && Closed(e.db, c) && Announced(db, e.db, c)
        && (e.reply == if c.failure == NoFailure then Finalized else Failed)
        && e.db.p1 == db.p1 && e.db.p2 == db.p2
        && (if c.winner.None? then e.db.ratings == db.ratings
            else
              var loser := if c.winner == Some(db.p1) then db.p2 else db.p1;
              Moved(db.ratings, e.db.ratings, c.winner.value, loser, gain))
  {
    gain := Stake(db, c);
    StakeIsGain(db, c);
    EloDeltaSign(c.expected);
  }

  /** Any other call leaves row, ratings and messages alone; on a closed match it repairs the job. */
  lemma OthersEndNothing(db: Db, c: Call)
    requires !Ends(db, c)
    ensures
      var e := FinalizeCall(db, c);
      && e.db == db.(cleanups := e.db.cleanups)
      && (if db.status == InProgress then
            && e.db.cleanups == db.cleanups
            && e.reply == Refused(
                 if c.winner.Some? && c.winner.value != db.p1 && c.winner.value != db.p2 then InvalidWinner
                 else PlayerNotFound)
          else if c.failure == QueueFails then e.db.cleanups == db.cleanups && e.reply == Failed
          else e.db.cleanups == db.cleanups + 1 && e.reply == AlreadyOver)
  {
  }
}
