/**
 * The roster actions of one player as concurrent workers run them: `withAction` and
 * `persistAction` of backend/src/shop/shop.service.ts, `place` and `withPlayerActionLock` of
 * backend/src/runtime/match.runtime.adapter.ts, and backend/src/redis/scripts/action_log.lua.
 * Each Redis command is one atomic step.
 */
module ActionLog {
  import opened GameTypes
  import opened Economy
  import opened MatchPhase

  /** What an action computes: from roster and shop, or (place) from the roster alone. */
  datatype Op = ShopOp(change: Hand -> Result<Hand>) | RosterOp(move: Player -> Result<Player>)

  function Do(op: Op, h: Hand): Result<Hand> {
    match op
    case ShopOp(change) => change(h)
    case RosterOp(move) => (match move(h.player) case Ok(p) => Ok(h.(player := p)) case Err(e) => Err(e))
  }

  datatype Request = Request(id: int, round: nat, op: Op)

  /**
   * The keys of one player. As bookkeeping: the hand when somebody else last wrote it, the
   * actions accepted since then, and every commit ever made with the phase and round it found.
   */
  datatype Store = Store(
    phase: Phase, round: nat, hand: Hand, shopRound: nat, used: set<int>, lock: Option<int>,
    base: Hand, accepted: seq<Op>, commits: seq<Commit>)

  datatype Commit = Commit(id: int, asked: nat, phase: Phase, round: nat)

  datatype Worker =
    | Idle
    | Locking(req: Request)
    | Checking(req: Request)
    | Reading(req: Request)
    | ReadingShop(req: Request, player: Player)
    | Committing(req: Request, seen: Hand, next: Hand)
    | Releasing

  datatype Event =
    | Ask(req: Request)
    | Continue
    /** A worker gives up waiting for the lock, or dies where it stands. */
    | Stops
    | LeaseEnds
    /** The settling write of a round rewrites the player, however late it comes. */
    | Settles(player: Player)
    /** The round protocol moves on, and may rewrite the player state. */
    | Moves(phase: Phase, round: nat, player: Player)
    /** The shop of a new round is rolled. */
    | Rolls(shop: Shop)

  datatype Now = Now(store: Store, worker: Worker)

  /** Computes the action on what has been read; a refused one goes straight to the release. */
  function Compute(req: Request, seen: Hand): Worker {
    match Do(req.op, seen)
    case Ok(next) => Committing(req, seen, next)
    case Err(_) => Releasing
  }

  /** action_log: duplicate first, then the round, then the phase; otherwise log and write. */
  function ActionLogScript(s: Store, req: Request, next: Hand): (r: (int, Store)) {
    if req.id in s.used then (0, s)
    else if s.round != req.round then (-2, s)
    else if s.phase != ShopPlace then (-1, s)
    else (1, s.(
      used := s.used + {req.id},
      hand := if req.op.ShopOp? then next else s.hand.(player := next.player),
      accepted := s.accepted + [req.op],
      commits := s.commits + [Commit(req.id, req.round, s.phase, s.round)]))
  }

  /** Compare-and-delete. */
  function Release(s: Store, me: int): Store {
    if s.lock == Some(me) then s.(lock := None) else s
  }

  function Proceed(s: Store, me: int, w: Worker): Now {
    match w
    case Idle => Now(s, Idle)
    case Locking(req) => if s.lock == None then Now(s.(lock := Some(me)), Checking(req)) else Now(s, w)
    case Checking(req) => if req.id in s.used then Now(s, Releasing) else Now(s, Reading(req))
    case Reading(req) =>
      if s.round != req.round || s.phase != ShopPlace then Now(s, Releasing)
      else if req.op.ShopOp? then Now(s, ReadingShop(req, s.hand.player))
      else Now(s, Compute(req, s.hand))
    case ReadingShop(req, player) =>
      if s.shopRound != req.round then Now(s, Releasing)
      else Now(s, Compute(req, Hand(player, s.hand.shop)))
    case Committing(req, _, next) => Now(ActionLogScript(s, req, next).1, Releasing)
    case Releasing => Now(Release(s, me), Idle)
  }

  predicate Critical(w: Worker) {
    w.Checking? || w.Reading? || w.ReadingShop? || w.Committing?
  }

  datatype State = State(store: Store, workers: map<int, Worker>)

  function WorkerOf(st: State, me: int): Worker {
    if me in st.workers then st.workers[me] else Idle
  }

  /** Whether somebody holds the lock who has not committed yet. */
  ghost predicate InUse(st: State) {
    st.store.lock.Some? && Critical(WorkerOf(st, st.store.lock.value))
  }

  ghost function Next(st: State, me: int, e: Event): State {
    var s, w := st.store, WorkerOf(st, me);
    match e
    case Ask(req) =>
      if w != Idle || (req.op.ShopOp? && req.id in s.used) then st
      else st.(workers := st.workers[me := Locking(req)])
    case Continue =>
      var now := Proceed(s, me, w);
      State(now.store, st.workers[me := now.worker])
    case Stops => st.(workers := st.workers[me := Idle])
    case LeaseEnds => st.(store := s.(lock := None))
    case Settles(player) => st.(store := Rebased(s.(hand := s.hand.(player := player))))
    case Moves(phase, round, player) =>
      if !Later(s, phase, round) then st
      else st.(store := Rebased(s.(phase := phase, round := round, hand := s.hand.(player := player))))
    case Rolls(shop) =>
      if s.shopRound == s.round then st
      else st.(store := Rebased(s.(shopRound := s.round, hand := s.hand.(shop := shop))))
  }

  /** The phases only climb, and a finished match stays finished. */
  predicate Later(s: Store, phase: Phase, round: nat) {
    && s.phase != Finished
    && if phase == Finished then round == s.round else Height(s.phase, s.round) < Height(phase, round)
  }

  function Rebased(s: Store): Store {
    s.(base := s.hand, accepted := [])
  }

  datatype Turn = Turn(me: int, event: Event)

  ghost function Run(st: State, turns: seq<Turn>): State {
    if turns == [] then st
    else
      var last := turns[|turns| - 1];
      Next(Run(st, turns[..|turns| - 1]), last.me, last.event)
  }

  // ---- a serial run of the accepted actions ----

  function Fold(h: Hand, ops: seq<Op>): Hand {
    if ops == [] then h
    else
      var before := Fold(h, ops[..|ops| - 1]);
      match Do(ops[|ops| - 1], before) case Ok(next) => next case Err(_) => before
  }

  /** Each of the actions succeeds on what the ones before it leave. */
  ghost predicate Succeeds(h: Hand, ops: seq<Op>) {
    forall k | 0 <= k < |ops| :: Do(ops[k], Fold(h, ops[..k])).Ok?
  }

  /** Nothing has happened yet, but for an arbitrary hand and an arbitrary log of used ids. */
  ghost predicate Initial(st: State) {
    && st.workers == map[] && st.store.lock == None
    && st.store.base == st.store.hand && st.store.accepted == [] && st.store.commits == []
  }

  // ---- with or without the lease: each id once, in its own round ----

  ghost predicate LogSound(s: Store) {
    && (forall i | 0 <= i < |s.commits| ::
      && s.commits[i].id in s.used && s.commits[i].phase == ShopPlace && s.commits[i].round == s.commits[i].asked)
    && (forall i, j | 0 <= i < j < |s.commits| :: s.commits[i].id != s.commits[j].id)
  }

  lemma NextLogSound(st: State, me: int, e: Event)
    requires LogSound(st.store)
    ensures LogSound(Next(st, me, e).store) && st.store.used <= Next(st, me, e).store.used
  {
  }

  /** Every id is committed at most once, in the shop phase of the very round it was asked for. */
  lemma {:induction false} CommitsOnceInItsRound(st: State, turns: seq<Turn>)
    requires Initial(st)
    ensures LogSound(Run(st, turns).store)
    decreases |turns|
  {
    if turns != [] {
      var n := |turns| - 1;
      CommitsOnceInItsRound(st, turns[..n]);
      NextLogSound(Run(st, turns[..n]), turns[n].me, turns[n].event);
    }
  }

  /** The action that a worker is busy with. */
  function IdOf(w: Worker): Option<int> {
    match w
    case Locking(req) => Some(req.id)
    case Checking(req) => Some(req.id)
    case Reading(req) => Some(req.id)
    case ReadingShop(req, _) => Some(req.id)
    case Committing(req, _, _) => Some(req.id)
    case _ => None
  }

  lemma UsedGrows(st: State, me: int, e: Event)
    ensures st.store.used <= Next(st, me, e).store.used
  {
  }

  lemma {:induction false} UsedStays(st: State, turns: seq<Turn>, i: nat)
    requires i <= |turns|
    ensures Run(st, turns[..i]).store.used <= Run(st, turns).store.used
    decreases |turns|
  {
    if i == |turns| {
      assert turns[..i] == turns;
    } else {
      var n := |turns| - 1;
      UsedStays(st, turns[..n], i);
      assert turns[..n][..i] == turns[..i];
      UsedGrows(Run(st, turns[..n]), turns[n].me, turns[n].event);
    }
  }

  /**
   * Once an id has been used, no later command of a worker that runs or retries an action with
   * that id changes anything but the lock: hand, shop, phase and log stay as they are.
   */
  lemma RetryChangesNothing(st: State, turns: seq<Turn>, i: nat, k: nat, id: int)
    requires i <= k < |turns| && id in Run(st, turns[..i]).store.used
    requires turns[k].event == Continue
    requires IdOf(WorkerOf(Run(st, turns[..k]), turns[k].me)) == Some(id)
    ensures
      var s, t := Run(st, turns[..k]).store, Run(st, turns[..k + 1]).store;
      t == s.(lock := t.lock)
  {
    UsedStays(st, turns[..k], i);
    assert turns[..k][..i] == turns[..i] && turns[..k + 1][..k] == turns[..k];
  }

  /** Lease or no lease: nothing that one worker does takes the lock from another. */
  lemma OthersLockStays(st: State, me: int, other: int, e: Event)
    requires st.store.lock == Some(other) && me != other && !e.LeaseEnds?
    ensures Next(st, me, e).store.lock == Some(other)
  {
  }

  // ---- a serial order: exactly which commits break it ----

  /** The hand is the result of the accepted actions, one after the other. */
  ghost predicate InOrder(s: Store) {
    s.hand == Fold(s.base, s.accepted) && Succeeds(s.base, s.accepted)
  }

  lemma FoldSnoc(h: Hand, ops: seq<Op>, op: Op)
    ensures Fold(h, ops + [op]) == match Do(op, Fold(h, ops)) case Ok(next) => next case Err(_) => Fold(h, ops)
  {
    assert (ops + [op])[..|ops|] == ops;
  }

  lemma SucceedsSnoc(h: Hand, ops: seq<Op>, op: Op)
    ensures Succeeds(h, ops + [op]) <==> Succeeds(h, ops) && Do(op, Fold(h, ops)).Ok?
  {
    assert (ops + [op])[..|ops|] == ops && (ops + [op])[|ops|] == op;
    forall k | 0 <= k < |ops| ensures (ops + [op])[..k] == ops[..k] && (ops + [op])[k] == ops[k] {
    }
    if Succeeds(h, ops + [op]) {
      forall k | 0 <= k < |ops| ensures Do(ops[k], Fold(h, ops[..k])).Ok? {
        assert Do((ops + [op])[k], Fold(h, (ops + [op])[..k])).Ok?;
      }
      assert Do((ops + [op])[|ops|], Fold(h, (ops + [op])[..|ops|])).Ok?;
    }
  }

  /** The worker is about to commit, and is accepted. */
  predicate Accepted(s: Store, w: Worker) {
    w.Committing? && ActionLogScript(s, w.req, w.next).0 == 1
  }

  /** An accepted commit stores something else than the action makes of what is stored. */
  ghost predicate Spoils(st: State, me: int, e: Event) {
    var s, w := st.store, WorkerOf(st, me);
    && e.Continue? && Accepted(s, w)
    && Do(w.req.op, s.hand) != Ok(ActionLogScript(s, w.req, w.next).1.hand)
  }

  ghost predicate SpoilsAt(st: State, turns: seq<Turn>, k: int) {
    0 <= k < |turns| && Spoils(Run(st, turns[..k]), turns[k].me, turns[k].event)
  }

  lemma CommitInOrderIff(st: State, me: int, e: Event)
    requires InOrder(st.store) && e.Continue? && Accepted(st.store, WorkerOf(st, me))
    ensures InOrder(Next(st, me, e).store) <==> !Spoils(st, me, e)
  {
    var op := WorkerOf(st, me).req.op;
    FoldSnoc(st.store.base, st.store.accepted, op);
    SucceedsSnoc(st.store.base, st.store.accepted, op);
  }

  lemma RebasedInOrder(s: Store)
    ensures InOrder(Rebased(s))
  {
  }

  lemma OthersInOrder(st: State, me: int, e: Event)
    requires InOrder(st.store) && !(e.Continue? && Accepted(st.store, WorkerOf(st, me)))
    ensures InOrder(Next(st, me, e).store)
  {
    var s := st.store;
    match e
    case Moves(phase, round, player) =>
      RebasedInOrder(s.(phase := phase, round := round, hand := s.hand.(player := player)));
    case Rolls(shop) => RebasedInOrder(s.(shopRound := s.round, hand := s.hand.(shop := shop)));
    case Settles(player) => RebasedInOrder(s.(hand := s.hand.(player := player)));
    case _ =>
      assert Next(st, me, e).store == s.(lock := Next(st, me, e).store.lock);
  }

  lemma NextInOrderIff(st: State, me: int, e: Event)
    requires InOrder(st.store)
    ensures InOrder(Next(st, me, e).store) <==> !Spoils(st, me, e)
  {
    if e.Continue? && Accepted(st.store, WorkerOf(st, me)) {
      CommitInOrderIff(st, me, e);
    } else {
      OthersInOrder(st, me, e);
    }
  }

  /** At each point of the run the hand is that of the accepted actions in commit order. */
  ghost predicate InOrderThroughout(st: State, turns: seq<Turn>) {
    forall i | 0 <= i <= |turns| :: InOrder(Run(st, turns[..i]).store)
  }

  lemma EarlierSpoils(st: State, turns: seq<Turn>, n: nat, k: int)
    requires n <= |turns| && k < n
    ensures SpoilsAt(st, turns[..n], k) <==> SpoilsAt(st, turns, k)
  {
    if 0 <= k {
      assert turns[..n][..k] == turns[..k];
    }
  }

  lemma {:induction false} UnspoiledInOrder(st: State, turns: seq<Turn>)
    requires Initial(st) && forall k :: !SpoilsAt(st, turns, k)
    ensures InOrder(Run(st, turns).store)
    decreases |turns|
  {
    if turns != [] {
      var n := |turns| - 1;
      forall k ensures !SpoilsAt(st, turns[..n], k) {
        if k < n {
          EarlierSpoils(st, turns, n, k);
        }
      }
      UnspoiledInOrder(st, turns[..n]);
      assert !SpoilsAt(st, turns, n);
      NextInOrderIff(Run(st, turns[..n]), turns[n].me, turns[n].event);
    }
  }

  lemma {:induction false} FirstSpoils(st: State, turns: seq<Turn>) returns (k: nat)
    requires exists i :: SpoilsAt(st, turns, i)
    ensures SpoilsAt(st, turns, k) && forall i :: !SpoilsAt(st, turns[..k], i)
    decreases |turns|
  {
    k :| SpoilsAt(st, turns, k);
    if exists i :: SpoilsAt(st, turns[..k], i) {
      var j := FirstSpoils(st, turns[..k]);
      EarlierSpoils(st, turns, k, j);
      assert turns[..k][..j] == turns[..j];
      k := j;
    }
  }

  /**
   * Whatever leases end, and whenever the round protocol writes: at each point of a run roster
   * and shop are the accepted actions in commit order, each of which succeeds, if and only if
   * no accepted commit stores something else than its action makes of what is stored by then.
   */
  lemma SerialIff(st: State, turns: seq<Turn>)
    requires Initial(st)
    ensures InOrderThroughout(st, turns) <==> forall k :: !SpoilsAt(st, turns, k)
  {
    if forall k :: !SpoilsAt(st, turns, k) {
      forall i | 0 <= i <= |turns| ensures InOrder(Run(st, turns[..i]).store) {
        forall k ensures !SpoilsAt(st, turns[..i], k) {
          if k < i {
            EarlierSpoils(st, turns, i, k);
          }
        }
        UnspoiledInOrder(st, turns[..i]);
      }
    } else {
      var k := FirstSpoils(st, turns);
      UnspoiledInOrder(st, turns[..k]);
      NextInOrderIff(Run(st, turns[..k]), turns[k].me, turns[k].event);
      assert turns[..k + 1][..k] == turns[..k];
      assert !InOrder(Run(st, turns[..k + 1]).store);
    }
  }

  // ---- only what comes between a read and its commit can spoil it ----

  /** A commit holds what its action made of what was read. */
  ghost predicate Computed(w: Worker) {
    w.Committing? ==> Do(w.req.op, w.seen) == Ok(w.next)
  }

  lemma {:induction false} AllComputed(st: State, turns: seq<Turn>)
    requires Initial(st)
    ensures forall me <- Run(st, turns).workers :: Computed(Run(st, turns).workers[me])
    decreases |turns|
  {
    if turns != [] {
      AllComputed(st, turns[..|turns| - 1]);
    }
  }

  /** A worker that has read what is stored. */
  predicate ReadsStored(s: Store, w: Worker) {
    w.Committing? ==> w.seen.player == s.hand.player && (w.req.op.ShopOp? ==> w.seen == s.hand)
  }

  /** A commit that spoils has read something else: another write has come since. */
  lemma SpoilsIsStale(st: State, turns: seq<Turn>, k: nat)
    requires Initial(st) && SpoilsAt(st, turns, k)
    ensures !ReadsStored(Run(st, turns[..k]).store, WorkerOf(Run(st, turns[..k]), turns[k].me))
  {
    AllComputed(st, turns[..k]);
    var s := Run(st, turns[..k]);
    assert Computed(WorkerOf(s, turns[k].me));
  }

  // ---- with the lease: nothing comes between ----

  /** A lease ends, or a settling write lands, while the lock's holder is in its critical section. */
  ghost predicate Intrudes(st: State, e: Event) {
    (e.LeaseEnds? || e.Settles?) && InUse(st)
  }

  ghost predicate IntrudesAt(st: State, turns: seq<Turn>, k: int) {
    0 <= k < |turns| && Intrudes(Run(st, turns[..k]), turns[k].event)
  }

  /** Leases outlive critical sections, and no settling write lands in one. */
  ghost predicate Guarded(st: State, turns: seq<Turn>) {
    forall k :: !IntrudesAt(st, turns, k)
  }

  lemma GuardedPrefix(st: State, turns: seq<Turn>, n: nat)
    requires n <= |turns| && Guarded(st, turns)
    ensures Guarded(st, turns[..n])
  {
    forall k ensures !IntrudesAt(st, turns[..n], k) {
      if 0 <= k < n {
        assert !IntrudesAt(st, turns, k);
        assert turns[..n][..k] == turns[..k];
      }
    }
  }

  /** What a worker has read is still what is stored, unless the round has moved on for good. */
  ghost predicate UpToDate(s: Store, me: int, w: Worker) {
    && (Critical(w) ==> s.lock == Some(me))
    && match w
      case ReadingShop(req, player) =>
        req.op.ShopOp? && Height(ShopPlace, req.round) <= Height(s.phase, s.round)
        && (s.phase == ShopPlace && s.round == req.round ==> player == s.hand.player)
      case Committing(req, seen, next) =>
        && Do(req.op, seen) == Ok(next) && Height(ShopPlace, req.round) <= Height(s.phase, s.round)
        && (s.phase == ShopPlace && s.round == req.round ==>
          seen.player == s.hand.player && (req.op.ShopOp? ==> seen == s.hand && s.shopRound == s.round))
      case _ => true
  }

  ghost predicate Serial(st: State) {
    InOrder(st.store) && forall me <- st.workers :: UpToDate(st.store, me, st.workers[me])
  }

  /** A commit of what is up to date spoils nothing. */
  lemma UpToDateFits(st: State, me: int, e: Event)
    requires UpToDate(st.store, me, WorkerOf(st, me))
    ensures !Spoils(st, me, e)
  {
  }

  lemma OthersUpToDate(s: Store, me: int, req: Request, next: Hand, i: int, w: Worker)
    requires s.lock == Some(me) && i != me && UpToDate(s, i, w)
    ensures UpToDate(ActionLogScript(s, req, next).1, i, w)
  {
  }

  lemma CommitSerial(st: State, me: int)
    requires Serial(st) && me in st.workers && st.workers[me].Committing?
    ensures Serial(Next(st, me, Continue))
  {
    var w := st.workers[me];
    UpToDateFits(st, me, Continue);
    NextInOrderIff(st, me, Continue);
    forall i | i in st.workers && i != me
      ensures UpToDate(ActionLogScript(st.store, w.req, w.next).1, i, st.workers[i])
    {
      OthersUpToDate(st.store, me, w.req, w.next, i, st.workers[i]);
    }
  }

  lemma NextUpToDate(st: State, me: int, e: Event)
    requires Serial(st) && !Intrudes(st, e) && !(e.Continue? && WorkerOf(st, me).Committing?)
    ensures forall i <- Next(st, me, e).workers :: UpToDate(Next(st, me, e).store, i, Next(st, me, e).workers[i])
  {
  }

  lemma NextSerial(st: State, me: int, e: Event)
    requires Serial(st) && !Intrudes(st, e)
    ensures Serial(Next(st, me, e))
  {
    if e.Continue? && WorkerOf(st, me).Committing? {
      CommitSerial(st, me);
    } else {
      NextUpToDate(st, me, e);
      NextInOrderIff(st, me, e);
    }
  }

  lemma {:induction false} RunSerial(st: State, turns: seq<Turn>)
    requires Initial(st) && Guarded(st, turns)
    ensures Serial(Run(st, turns))
    decreases |turns|
  {
    if turns != [] {
      var n := |turns| - 1;
      GuardedPrefix(st, turns, n);
      RunSerial(st, turns[..n]);
      assert !IntrudesAt(st, turns, n);
      NextSerial(Run(st, turns[..n]), turns[n].me, turns[n].event);
    }
  }

  /** Under the lease roster and shop are always the accepted actions, one after the other. */
  lemma ActionsAreSerial(st: State, turns: seq<Turn>)
    requires Initial(st) && Guarded(st, turns)
    ensures InOrderThroughout(st, turns) && Serial(Run(st, turns))
  {
    RunSerial(st, turns);
    forall i | 0 <= i <= |turns| ensures InOrder(Run(st, turns[..i]).store) {
      GuardedPrefix(st, turns, i);
      RunSerial(st, turns[..i]);
    }
  }

  // ---- without the lease: a lost update ----

  function SellAt(slot: nat): Op {
    ShopOp((h: Hand) => Sell(h, Spot(OnBench, slot)))
  }

  lemma RunSnoc(st: State, turns: seq<Turn>, me: int, e: Event)
    ensures Run(st, turns + [Turn(me, e)]) == Next(Run(st, turns), me, e)
  {
    assert (turns + [Turn(me, e)])[..|turns|] == turns;
  }

  /** A worker that gets the lock at once reads up to its commit. */
  lemma ReachesCommit(st: State, turns: seq<Turn>, me: int, req: Request) returns (r: seq<Turn>)
    requires
      var s := Run(st, turns);
      && WorkerOf(s, me) == Idle && s.store.lock == None && req.id !in s.store.used && req.op.ShopOp?
      && s.store.phase == ShopPlace && s.store.round == req.round == s.store.shopRound
      && Do(req.op, s.store.hand).Ok?
    ensures
      var s := Run(st, turns);
      Run(st, r) == State(s.store.(lock := Some(me)),
        s.workers[me := Committing(req, s.store.hand, Do(req.op, s.store.hand).value)])
  {
    var s := Run(st, turns);
    RunSnoc(st, turns, me, Ask(req));
    r := turns + [Turn(me, Ask(req))];
    RunSnoc(st, r, me, Continue);
    r := r + [Turn(me, Continue)];
    RunSnoc(st, r, me, Continue);
    r := r + [Turn(me, Continue)];
    RunSnoc(st, r, me, Continue);
    r := r + [Turn(me, Continue)];
    RunSnoc(st, r, me, Continue);
    r := r + [Turn(me, Continue)];
    assert Run(st, r).workers == s.workers[me := Committing(req, s.store.hand, Do(req.op, s.store.hand).value)];
  }

  /**
   * When the lease of worker 1 ends between its read and its commit, worker 2 sells another
   * unit meanwhile: both sales are accepted, but only the gold of the first one is there, and
   * the unit that worker 2 sold is back.
   */
  lemma LateCommitLosesASale(st: State, u: RosterUnit, v: RosterUnit) returns (turns: seq<Turn>)
    requires Initial(st) && st.store.phase == ShopPlace && st.store.shopRound == st.store.round
    requires st.store.used == {} && |st.store.hand.player.bench| == 8
    requires st.store.hand.player.bench[0] == Some(u) && st.store.hand.player.bench[1] == Some(v)
    ensures
      var s := Run(st, turns).store;
      && s.accepted == [SellAt(1), SellAt(0)]
      && s.hand.player.gold == st.store.hand.player.gold + InvestedGold(u)
      && |s.hand.player.bench| == 8 && s.hand.player.bench[0] == None && s.hand.player.bench[1] == Some(v)
      && Fold(s.base, s.accepted).player.gold == st.store.hand.player.gold + InvestedGold(u) + InvestedGold(v)
  {
    var h, round := st.store.hand, st.store.round;
    turns := ReachesCommit(st, [], 1, Request(1, round, SellAt(0)));
    RunSnoc(st, turns, 1, LeaseEnds);
    turns := turns + [Turn(1, LeaseEnds)];
    turns := ReachesCommit(st, turns, 2, Request(2, round, SellAt(1)));
    RunSnoc(st, turns, 2, Continue);
    turns := turns + [Turn(2, Continue)];
    RunSnoc(st, turns, 1, Continue);
    turns := turns + [Turn(1, Continue)];
    TwoSales(h, u, v);
  }

  lemma TwoSales(h: Hand, u: RosterUnit, v: RosterUnit)
    requires |h.player.bench| == 8 && h.player.bench[0] == Some(u) && h.player.bench[1] == Some(v)
    ensures Fold(h, [SellAt(1), SellAt(0)]).player.gold == h.player.gold + InvestedGold(u) + InvestedGold(v)
  {
    FoldSnoc(h, [], SellAt(1));
    FoldSnoc(h, [SellAt(1)], SellAt(0));
    assert [] + [SellAt(1)] == [SellAt(1)] && [SellAt(1)] + [SellAt(0)] == [SellAt(1), SellAt(0)];
  }
}
