/** What becomes of a roster action that nobody interferes with, from its request to the release of the lock. */
module ActionProgress {
  import opened GameTypes
  import opened Economy
  import opened MatchPhase
  import opened ActionLog

  /** The next n commands of a worker, with nobody else at work. */
  ghost function Drive(st: State, me: int, n: nat): State
    decreases n, st
  {
    if n == 0 then st else Next(Drive(st, me, n - 1), me, Continue)
  }

  ghost function Driven(now: Now, me: int, n: nat): Now
    decreases n, now
  {
    if n == 0 then now
    else
      var before := Driven(now, me, n - 1);
      Proceed(before.store, me, before.worker)
  }

  ghost function With(st: State, me: int, now: Now): State {
    State(now.store, st.workers[me := now.worker])
  }

  lemma WithStep(st: State, me: int, now: Now)
    ensures Next(With(st, me, now), me, Continue) == With(st, me, Proceed(now.store, me, now.worker))
  {
    assert WorkerOf(With(st, me, now), me) == now.worker;
    var w := Proceed(now.store, me, now.worker).worker;
    assert st.workers[me := now.worker][me := w] == st.workers[me := w];
  }

  lemma {:induction false} DriveIs(st: State, me: int, now: Now, n: nat)
    ensures Drive(With(st, me, now), me, n) == With(st, me, Driven(now, me, n))
    decreases n
  {
    if n > 0 {
      DriveIs(st, me, now, n - 1);
      WithStep(st, me, Driven(now, me, n - 1));
    }
  }

  /** The operation turns the one hand into the other; a roster operation leaves the shop alone. */
  ghost predicate Yields(op: Op, h: Hand, next: Hand) {
    match op
    case ShopOp(change) => change(h) == Ok(next)
    case RosterOp(move) => move(h.player) == Ok(next.player) && next.shop == h.shop
  }

  /** A fresh id, in the shop phase of its round and, where the shop is involved, with that round's shop. */
  predicate Admitted(s: Store, req: Request) {
    && req.id !in s.used && s.phase == ShopPlace && s.round == req.round
    && (req.op.ShopOp? ==> s.shopRound == req.round)
  }

  /** The store after the request has been committed. */
  ghost predicate Commits(s: Store, t: Store, req: Request) {
    && Yields(req.op, s.hand, t.hand) && t.used == s.used + {req.id} && t.lock == None
    && t.phase == s.phase && t.round == s.round && t.shopRound == s.shopRound && t.accepted == s.accepted + [req.op]
  }

  /** From the lock to the point where the action is computed, or to the release. */
  lemma AdmittedDriven(s: Store, me: int, req: Request)
    requires s.lock == None
    ensures
      var held := s.(lock := Some(me));
      Driven(Now(s, Locking(req)), me, 3) ==
        if req.id in s.used then Now(s, Idle)
        else if s.round != req.round || s.phase != ShopPlace then Now(held, Releasing)
        else if req.op.ShopOp? then Now(held, ReadingShop(req, s.hand.player))
        else Now(held, Compute(req, s.hand))
  {
    var now := Now(s, Locking(req));
    assert Driven(now, me, 0) == now;
    var held := s.(lock := Some(me));
    assert Driven(now, me, 1) == Now(held, Checking(req));
    var two := Driven(now, me, 2);
    assert two == Now(held, if req.id in s.used then Releasing else Reading(req));
  }

  /** From the computation on the stored hand to the end. */
  lemma ComputedDriven(s: Store, now: Now, me: int, req: Request, n: nat)
    requires s.lock == None && req.id !in s.used && s.phase == ShopPlace && s.round == req.round
    requires Driven(now, me, n) == Now(s.(lock := Some(me)), Compute(req, s.hand))
    ensures
      var e := Driven(now, me, n + 2);
      && e.worker == Idle
      && (Do(req.op, s.hand).Ok? ==> Commits(s, e.store, req)) && (Do(req.op, s.hand).Err? ==> e.store == s)
  {
    var one := Driven(now, me, n + 1);
    assert one == Proceed(s.(lock := Some(me)), me, Compute(req, s.hand));
  }

  lemma YieldsIff(op: Op, h: Hand, next: Hand)
    ensures Yields(op, h, next) <==> Do(op, h) == Ok(next)
  {
  }

  lemma IdleDriven(now: Now, me: int, n: nat, k: nat)
    requires Driven(now, me, n).worker == Idle
    ensures Driven(now, me, n + k) == Driven(now, me, n)
    decreases k
  {
    if k > 0 {
      IdleDriven(now, me, n, k - 1);
    }
  }

  lemma RefusedDriven(now: Now, s: Store, me: int, n: nat)
    requires s.lock == None && Driven(now, me, n) == Now(s.(lock := Some(me)), Releasing)
    ensures Driven(now, me, n + 1) == Now(s, Idle)
  {
  }

  /** A request, driven to its end: six commands at most. */
  lemma RequestDriven(s: Store, me: int, req: Request)
    requires s.lock == None
    ensures
      var e := Driven(Now(s, Locking(req)), me, 6);
      && e.worker == Idle
      && (if Admitted(s, req) && Do(req.op, s.hand).Ok? then Commits(s, e.store, req) else e.store == s)
  {
    var now := Now(s, Locking(req));
    AdmittedDriven(s, me, req);
    if req.id in s.used {
      IdleDriven(now, me, 3, 3);
    } else if s.round != req.round || s.phase != ShopPlace {
      RefusedDriven(now, s, me, 3);
      IdleDriven(now, me, 4, 2);
    } else if req.op.RosterOp? {
      ComputedDriven(s, now, me, req, 3);
      IdleDriven(now, me, 5, 1);
    } else if s.shopRound != req.round {
      assert Driven(now, me, 4) == Now(s.(lock := Some(me)), Releasing);
      RefusedDriven(now, s, me, 4);
      IdleDriven(now, me, 5, 1);
    } else {
      assert Driven(now, me, 4) == Now(s.(lock := Some(me)), Compute(req, s.hand));
      ComputedDriven(s, now, me, req, 4);
    }
  }

  /**
   * A request of a free worker that finds the lock free and nobody in its way: it is committed,
   * to the hand that its operation makes of the stored one, exactly if its id is fresh, the
   * round, phase and shop are its own, and the operation succeeds; otherwise nothing is stored.
   * Either way the lock is free again.
   */
  lemma RequestRuns(st: State, me: int, req: Request)
    requires WorkerOf(st, me) == Idle && st.store.lock == None
    ensures
      var s, e := st.store, Drive(Next(st, me, Ask(req)), me, 6);
      && WorkerOf(e, me) == Idle
      && (forall other | other != me :: WorkerOf(e, other) == WorkerOf(st, other))
      && (Admitted(s, req) && (exists next :: Yields(req.op, s.hand, next)) ==> Commits(s, e.store, req))
      && (!Admitted(s, req) || !(exists next :: Yields(req.op, s.hand, next)) ==> e.store == s)
  {
    var s := st.store;
    forall next ensures Yields(req.op, s.hand, next) <==> Do(req.op, s.hand) == Ok(next) {
      YieldsIff(req.op, s.hand, next);
    }
    if Do(req.op, s.hand).Ok? {
      assert Yields(req.op, s.hand, Do(req.op, s.hand).value);
    }
    if req.op.ShopOp? && req.id in s.used {
      NothingAsked(st, me, 6);
    } else {
      RequestDriven(s, me, req);
      assert Next(st, me, Ask(req)) == With(st, me, Now(s, Locking(req)));
      DriveIs(st, me, Now(s, Locking(req)), 6);
    }
  }

  lemma {:induction false} NothingAsked(st: State, me: int, n: nat)
    requires WorkerOf(st, me) == Idle
    ensures
      var e := Drive(st, me, n);
      e.store == st.store && forall k :: WorkerOf(e, k) == WorkerOf(st, k)
    decreases n
  {
    if n > 0 {
      NothingAsked(st, me, n - 1);
    }
  }

  // ---- a lock left behind ----

  lemma {:induction false} WaitsForLock(st: State, me: int, req: Request, n: nat)
    requires st.store.lock.Some? && WorkerOf(st, me) == Locking(req)
    ensures
      var e := Drive(st, me, n);
      e.store == st.store && WorkerOf(e, me) == Locking(req) && forall k | k != me :: WorkerOf(e, k) == WorkerOf(st, k)
    decreases n
  {
    if n > 0 {
      WaitsForLock(st, me, req, n - 1);
    }
  }

  /**
   * A worker that dies with the lock leaves it behind: another one waits as long as it keeps trying,
   * until the lease ends, and then goes through as if nothing had happened.
   */
  lemma AbandonedLock(st: State, me: int, other: int, req: Request, n: nat)
    requires st.store.lock == Some(me) && me != other && WorkerOf(st, other) == Locking(req)
    ensures
      var waiting := Drive(Next(st, me, Stops), other, n);
      var freed := Next(waiting, me, LeaseEnds);
      && waiting.store == st.store && WorkerOf(waiting, me) == Idle && WorkerOf(waiting, other) == Locking(req)
      && freed.store == st.store.(lock := None) && WorkerOf(freed, other) == Locking(req)
      && var s, e := freed.store, Drive(freed, other, 6);
        WorkerOf(e, other) == Idle
        && (if Admitted(s, req) && Do(req.op, s.hand).Ok? then Commits(s, e.store, req) else e.store == s)
  {
    WaitsForLock(Next(st, me, Stops), other, req, n);
    var freed := Next(Drive(Next(st, me, Stops), other, n), me, LeaseEnds);
    RequestDriven(freed.store, other, req);
    assert freed.workers[other := Locking(req)] == freed.workers;
    assert freed == With(freed, other, Now(freed.store, Locking(req)));
    DriveIs(freed, other, Now(freed.store, Locking(req)), 6);
  }
}
