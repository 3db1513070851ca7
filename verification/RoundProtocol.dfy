/**
 * The round protocol: any number of workers that drive one shared Redis record through
 * backend/src/runtime/match.runtime.adapter.ts and combat.coordinator.ts. Each Redis command
 * is one atomic step; what a worker has read stays in its job until it acts on it. Timers,
 * acknowledgements and retries may start any handler at any time, any number of times.
 */
module RoundProtocol {
  import opened GameTypes
  import opened MatchPhase
  import opened MatchRules
  import Economy
  import EconomyLaws

  /** One player's stored state: hit points and, with the gold, the roster. */
  datatype Half = Half(hp: int, roster: Economy.Player)

  datatype Record = Record(
    phase: Phase, round: nat, p1: Half, p2: Half, wipes1: int, wipes2: int, combatRound: Option<nat>)

  /** The cached result of a battle, with the round and the two states that fought it. */
  datatype Fought = Fought(round: nat, p1: Half, p2: Half, winner: Winner)

  datatype Flip = Flip(phase: Phase, round: nat)

  /**
   * The shared keys: runtime hash, cached result and combat lock; and, as bookkeeping only,
   * the rounds marked with a combat, the results settled, and the phases left so far.
   */
  datatype World = World(
    rt: Record, result: Option<Fought>, lock: Option<int>,
    marked: set<nat>, history: seq<Winner>, flips: seq<Flip>)

  /** Where a worker stands between two Redis commands, with what it has read. */
  datatype Job =
    | Idle
    // tryStartCombat and runCombat
    | StartFlip(round: nat, seen: Record)
    | TakeLock(round: nat, seen: Record)
    | CheckCombat(round: nat, seen: Record)
    | ClearResult(round: nat, seen: Record, base: Record)
    | RecheckCombat(round: nat, seen: Record, fought: Fought)
    | WriteResult(round: nat, seen: Record, fought: Fought)
    | MarkCombat(round: nat, seen: Record, fought: Fought)
    | ReleaseLock(round: nat, seen: Record, ran: bool)
    | ReadPreview(round: nat, seen: Record)
    // applyDamageAndAdvance
    | ReadResult(round: nat, seen: Record)
    | ResolveFlip(round: nat, seen: Record, fought: Fought)
    | Settle(round: nat, seen: Record, fought: Fought)
    // advanceResolvedRound
    | AdvanceFlip(round: nat)
    | ClearRound
    // surrender and handleDisconnect
    | ForfeitFlip(seen: Record)
    // a roster action between its read and its commit
    | CommitRoster(side: Side, seen: Record, next: Economy.Player)

  datatype Action =
    | TryStartCombat(round: nat)
    | ApplyDamage(round: nat)
    | AdvanceResolved(round: nat)
    | Forfeit
    | RosterAction(side: Side, move: EconomyLaws.Move, shop: Economy.Shop, offers: seq<Option<Economy.Offer>>)
    /** The next Redis command of a job; the winner is what a battle yields if one is run. */
    | Continue(winner: Winner)
    | LockExpires

  // ---- resolving a round ----

  function ScoreOf(r: Record): Score {
    Score(r.p1.hp, r.p2.hp, r.wipes1, r.wipes2)
  }

  function WithHp(h: Half, hp: int): Half { h.(hp := hp) }

  function Paid(h: Half): Half {
    h.(roster := h.roster.(gold := h.roster.gold + EconomyLaws.ROUND_GOLD))
  }

  /** The follow-up write of a resolution that was computed from the record seen. */
  function Settled(now: Record, seen: Record, winner: Winner): Record {
    var after := ResolveRound(ScoreOf(seen), winner);
    var q1, q2 := WithHp(seen.p1, after.hp1), WithHp(seen.p2, after.hp2);
    if VerdictOf(after) != Ongoing then
      now.(phase := Finished, p1 := q1, p2 := q2, wipes1 := after.wipes1, wipes2 := after.wipes2)
    else
      now.(p1 := Paid(q1), p2 := Paid(q2), wipes1 := after.wipes1, wipes2 := after.wipes2, combatRound := None)
  }

  datatype SidePayload = SidePayload(wiped: bool, tie: bool, hpBefore: int, hpAfter: int, damage: int)

  datatype Payload = Payload(round: nat, p1: SidePayload, p2: SidePayload, winner: Winner)

  /** The damage message, as it is both previewed and published with the resolution. */
  function PayloadOf(seen: Record, round: nat, winner: Winner): Payload {
    var after := ResolveRound(ScoreOf(seen), winner);
    var d := DamageFor(winner, seen.wipes1, seen.wipes2);
    Payload(round,
      SidePayload(winner == Some(P2), winner == None, seen.p1.hp, after.hp1, d.p1),
      SidePayload(winner == Some(P1), winner == None, seen.p2.hp, after.hp2, d.p2),
      winner)
  }

  // ---- the steps ----

  datatype Effect = Effect(world: World, job: Job)

  /** phase_flip with an expected round. */
  predicate Flips(w: World, phase: Phase, round: nat) {
    w.rt.phase == phase && w.rt.round == round
  }

  function Flipped(w: World, rt: Record): World {
    w.(rt := rt, flips := w.flips + [Flip(w.rt.phase, w.rt.round)])
  }

  /** What starts a handler: its first read of the record. */
  ghost function Begin(w: World, a: Action): Job
  {
    match a
    case TryStartCombat(round) =>
      if w.rt.phase == ShopPlace && w.rt.round == round then StartFlip(round, w.rt) else Idle
    case ApplyDamage(round) =>
      if w.rt.phase == Battle && w.rt.round == round && w.rt.combatRound == Some(round) then ReadResult(round, w.rt) else Idle
    case AdvanceResolved(round) =>
      if w.rt.phase == Resolved && w.rt.round == round then AdvanceFlip(round) else Idle
    case Forfeit =>
      if w.rt.phase == Finished then Idle else ForfeitFlip(w.rt)
    case RosterAction(side, move, shop, offers) =>
      var roster := (if side.P1? then w.rt.p1 else w.rt.p2).roster;
      if w.rt.phase != ShopPlace || !EconomyLaws.FreshId(roster, move) then Idle
      else (match EconomyLaws.Apply(Economy.Hand(roster, shop), move, (count: nat) => offers)
        case Ok(h) => CommitRoster(side, w.rt, h.player)
        case Err(_) => Idle)
    case _ => Idle
  }

  /**
   * The next command of a job. With `joint`, the flip to resolved and the write that follows
   * it are one step; without it they are two, as in the code.
   */
  function Proceed(w: World, me: int, t: Job, winner: Winner, joint: bool): Effect {
    match t
    case Idle => Effect(w, Idle)
    case StartFlip(round, seen) =>
      if Flips(w, ShopPlace, round) then Effect(Flipped(w, w.rt.(phase := Battle)), TakeLock(round, seen))
      else Effect(w, Idle)
    case TakeLock(round, seen) =>
      if w.lock == None then Effect(w.(lock := Some(me)), CheckCombat(round, seen)) else Effect(w, Idle)
    case CheckCombat(round, seen) =>
      if w.rt.phase != Battle || w.rt.round != round || w.rt.combatRound == Some(round)
      then Effect(w, ReleaseLock(round, seen, false))
      else Effect(w, ClearResult(round, seen, w.rt))
    case ClearResult(round, seen, base) =>
      Effect(w.(result := None), RecheckCombat(round, seen, Fought(round, base.p1, base.p2, winner)))
    case RecheckCombat(round, seen, fought) =>
      if w.rt.phase != Battle || w.rt.round != round then Effect(w, ReleaseLock(round, seen, false))
      else Effect(w, WriteResult(round, seen, fought))
    case WriteResult(round, seen, fought) =>
      Effect(w.(result := Some(fought)), MarkCombat(round, seen, fought))
    case MarkCombat(round, seen, fought) =>
      Effect(w.(rt := w.rt.(combatRound := Some(round)), marked := w.marked + {round}), ReleaseLock(round, seen, true))
    case ReleaseLock(round, seen, ran) =>
      Effect(if w.lock == Some(me) then w.(lock := None) else w, if ran then ReadPreview(round, seen) else Idle)
    case ReadPreview(_, _) => Effect(w, Idle)
    case ReadResult(round, seen) =>
      (match w.result
       case None => Effect(w, Idle)
       case Some(fought) => Effect(w, ResolveFlip(round, seen, fought)))
    case ResolveFlip(round, seen, fought) =>
      if !Flips(w, Battle, round) then Effect(w, Idle)
      else
        var flipped := Flipped(w, w.rt.(phase := Resolved));
        if joint then Effect(SettledWorld(flipped, seen, fought), Idle)
        else Effect(flipped, Settle(round, seen, fought))
    case Settle(_, seen, fought) => Effect(SettledWorld(w, seen, fought), Idle)
    case AdvanceFlip(round) =>
      if Flips(w, Resolved, round) then Effect(Flipped(w, w.rt.(phase := ShopPlace, round := round + 1)), ClearRound)
      else Effect(w, Idle)
    case ClearRound => Effect(w.(rt := w.rt.(combatRound := None)), Idle)
    case ForfeitFlip(seen) =>
      if Flips(w, seen.phase, seen.round) then Effect(Flipped(w, w.rt.(phase := Finished)), Idle) else Effect(w, Idle)
    case CommitRoster(side, seen, next) =>
      if !Flips(w, ShopPlace, seen.round) then Effect(w, Idle)
      else Effect(w.(rt := Committed(w.rt, side, seen, next)), Idle)
  }

  function SettledWorld(w: World, seen: Record, fought: Fought): World {
    w.(rt := Settled(w.rt, seen, fought.winner), history := w.history + [fought.winner])
  }

  /** action_log writes the whole player state that the action computed from its read. */
  function Committed(rt: Record, side: Side, seen: Record, next: Economy.Player): Record {
    if side.P1? then rt.(p1 := Half(seen.p1.hp, next)) else rt.(p2 := Half(seen.p2.hp, next))
  }

  ghost function Step(w: World, me: int, t: Job, a: Action, joint: bool): Effect {
    match a
    case Continue(winner) => Proceed(w, me, t, winner, joint)
    case LockExpires => Effect(w.(lock := None), t)
    case _ => Effect(w, if t == Idle then Begin(w, a) else t)
  }

  // ---- runs ----

  datatype State = State(world: World, jobs: map<int, Job>)

  function JobOf(s: State, me: int): Job {
    if me in s.jobs then s.jobs[me] else Idle
  }

  ghost function Next(s: State, me: int, a: Action, joint: bool): State {
    var e := Step(s.world, me, JobOf(s, me), a, joint);
    State(e.world, s.jobs[me := e.job])
  }

  datatype Move = Move(me: int, action: Action)

  ghost function Run(moves: seq<Move>, joint: bool): State {
    if moves == [] then Start()
    else
      var last := moves[|moves| - 1];
      Next(Run(moves[..|moves| - 1], joint), last.me, last.action, joint)
  }

  function EmptySlots(n: nat): (r: Economy.Slots)
    ensures |r| == n && forall i | 0 <= i < n :: r[i] == None
  {
    if n == 0 then [] else [None] + EmptySlots(n - 1)
  }

  function Start(): State {
    var half := Half(START_HP, Economy.Player(5, EmptySlots(9), EmptySlots(8)));
    State(World(Record(ShopPlace, 1, half, half, 0, 0, None), None, None, {}, [], []), map[])
  }

  // ---- the record only climbs ----

  /** shop_place < battle < resolved < next shop_place, and finished above them all. */
  predicate Climbs(a: Record, b: Record) {
    b.phase == Finished || (a.phase != Finished && Height(a.phase, a.round) <= Height(b.phase, b.round))
  }

  /** The phases left are all below the present one, each above the one left before it. */
  ghost predicate Ladder(w: World) {
    && (forall i, j | 0 <= i < j < |w.flips| ::
      Height(w.flips[i].phase, w.flips[i].round) < Height(w.flips[j].phase, w.flips[j].round))
    && (w.rt.phase != Finished ==> forall i | 0 <= i < |w.flips| ::
      Height(w.flips[i].phase, w.flips[i].round) < Height(w.rt.phase, w.rt.round))
  }

  ghost predicate Sane(t: Job) {
    t.ForfeitFlip? ==> t.seen.phase != Finished
  }

  lemma FlippedLadder(w: World, rt: Record)
    requires Ladder(w) && w.rt.phase != Finished
    requires rt.phase == Finished || Height(w.rt.phase, w.rt.round) < Height(rt.phase, rt.round)
    ensures Ladder(Flipped(w, rt)) && Climbs(w.rt, rt)
  {
  }

  /** Only the four flips and the settling write touch the phase. */
  predicate MovesPhase(t: Job) {
    t.StartFlip? || t.ResolveFlip? || t.AdvanceFlip? || t.ForfeitFlip? || t.Settle?
  }

  lemma OthersStay(w: World, me: int, t: Job, winner: Winner, joint: bool)
    requires !MovesPhase(t)
    ensures
      var e := Proceed(w, me, t, winner, joint);
      e.world.flips == w.flips && e.world.rt.phase == w.rt.phase && e.world.rt.round == w.rt.round && Sane(e.job)
  {
  }

  lemma ProceedClimbs(w: World, me: int, t: Job, winner: Winner, joint: bool)
    requires Ladder(w) && Sane(t)
    ensures
      var e := Proceed(w, me, t, winner, joint);
      Ladder(e.world) && Climbs(w.rt, e.world.rt) && Sane(e.job)
  {
    if !MovesPhase(t) {
      OthersStay(w, me, t, winner, joint);
    } else {
      match t
      case StartFlip(round, _) => if Flips(w, ShopPlace, round) { FlippedLadder(w, w.rt.(phase := Battle)); }
      case ResolveFlip(round, _, _) => if Flips(w, Battle, round) { FlippedLadder(w, w.rt.(phase := Resolved)); }
      case AdvanceFlip(round) =>
        if Flips(w, Resolved, round) { FlippedLadder(w, w.rt.(phase := ShopPlace, round := round + 1)); }
      case ForfeitFlip(seen) =>
        if Flips(w, seen.phase, seen.round) { FlippedLadder(w, w.rt.(phase := Finished)); }
      case Settle(_, _, _) =>
    }
  }

  lemma StepClimbs(w: World, me: int, t: Job, a: Action, joint: bool)
    requires Ladder(w) && Sane(t)
    ensures
      var e := Step(w, me, t, a, joint);
      Ladder(e.world) && Climbs(w.rt, e.world.rt) && Sane(e.job)
  {
    if a.Continue? {
      ProceedClimbs(w, me, t, a.winner, joint);
    } else if !a.LockExpires? {
      BeginSane(w, a);
    }
  }

  lemma BeginSane(w: World, a: Action)
    ensures Sane(Begin(w, a))
  {
  }

  lemma {:induction false} RunLadder(moves: seq<Move>, joint: bool)
    ensures Ladder(Run(moves, joint).world) && forall me <- Run(moves, joint).jobs :: Sane(Run(moves, joint).jobs[me])
    decreases |moves|
  {
    if moves != [] {
      var n := |moves| - 1;
      RunLadder(moves[..n], joint);
      var s := Run(moves[..n], joint);
      StepClimbs(s.world, moves[n].me, JobOf(s, moves[n].me), moves[n].action, joint);
    }
  }

  /** Whatever the workers do, in whatever order: the record never falls back. */
  lemma {:induction false} RunClimbs(moves: seq<Move>, joint: bool, i: nat)
    requires i <= |moves|
    ensures Climbs(Run(moves[..i], joint).world.rt, Run(moves, joint).world.rt)
    decreases |moves|
  {
    var n := |moves| - 1;
    if i == |moves| {
      assert moves[..i] == moves;
    } else {
      RunLadder(moves[..n], joint);
      var s := Run(moves[..n], joint);
      StepClimbs(s.world, moves[n].me, JobOf(s, moves[n].me), moves[n].action, joint);
      RunClimbs(moves[..n], joint, i);
      assert moves[..n][..i] == moves[..i];
    }
  }

  /**
   * Each phase of each round is left at most once: a combat is launched once per round and
   * its damage resolved once, even when the lease of the combat lock runs out.
   */
  lemma LeftAtMostOnce(moves: seq<Move>, joint: bool)
    ensures
      var flips := Run(moves, joint).world.flips;
      forall i, j | 0 <= i < j < |flips| :: flips[i] != flips[j]
  {
    RunLadder(moves, joint);
  }
}
