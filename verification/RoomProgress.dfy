/** What becomes of a handoff attempt that nobody interferes with: made, failed, adopted or turned away. */
module RoomProgress {
  import opened GameTypes
  import opened RoomHandoff

  /** The next n commands of a worker, with nobody else at work. */
  ghost function Drive(st: State, me: int, n: nat): State
    decreases n, st
  {
    if n == 0 then st else Next(Drive(st, me, n - 1), me, Continue)
  }

  ghost function Driven(e: Effect, me: int, n: nat): Effect
    decreases n, e
  {
    if n == 0 then e
    else
      var before := Driven(e, me, n - 1);
      Proceed(before.store, me, before.job)
  }

  ghost function With(st: State, me: int, e: Effect): State {
    State(e.store, st.jobs[me := e.job])
  }

  lemma WithStep(st: State, me: int, e: Effect)
    ensures Next(With(st, me, e), me, Continue) == With(st, me, Proceed(e.store, me, e.job))
  {
    assert JobOf(With(st, me, e), me) == e.job;
    var job := Proceed(e.store, me, e.job).job;
    assert st.jobs[me := e.job][me := job] == st.jobs[me := job];
  }

  lemma {:induction false} DriveIs(st: State, me: int, e: Effect, n: nat)
    ensures Drive(With(st, me, e), me, n) == With(st, me, Driven(e, me, n))
    decreases n
  {
    if n > 0 {
      DriveIs(st, me, e, n - 1);
      WithStep(st, me, Driven(e, me, n - 1));
    }
  }

  /** A trigger of an idle worker, and the n commands after it. */
  ghost function Attempt(st: State, me: int, n: nat): State {
    Drive(Next(st, me, Trigger), me, n)
  }

  lemma AttemptIs(st: State, me: int, n: nat)
    requires JobOf(st, me) == Idle
    ensures Attempt(st, me, n) == With(st, me, Driven(Effect(st.store, Claiming(st.store.room)), me, n))
  {
    var e := Effect(st.store, Claiming(st.store.room));
    assert Next(st, me, Trigger) == With(st, me, e);
    DriveIs(st, me, e, n);
  }

  /** A full room that nobody is handing off, whose match is not recorded. */
  predicate Ready(s: Store) {
    && s.room.Some? && s.room.value.status == Full && s.room.value.guest.Some? && s.room.value.matchId.None?
    && s.claim == None
  }

  predicate PlaysIn(s: Store, user: int, m: int) {
    m in s.rows && (s.rows[m].p1 == user || s.rows[m].p2 == user)
  }

  ghost predicate Free(s: Store, user: int) {
    forall m :: !PlaysIn(s, user, m)
  }

  lemma FreeIff(s: Store, user: int)
    ensures Free(s, user) <==> ActiveOf(s, user).None?
    ensures ActiveOf(s, user).Some? ==> PlaysIn(s, user, ActiveOf(s, user).value)
  {
    if Free(s, user) && ActiveOf(s, user).Some? {
      assert PlaysIn(s, user, ActiveOf(s, user).value);
    }
  }

  /** Up to the creation of the row, with the claim in hand. */
  lemma ClaimDriven(s: Store, me: int)
    requires Ready(s) && Free(s, s.room.value.owner) && Free(s, s.room.value.guest.value)
    ensures
      var owner, guest := s.room.value.owner, s.room.value.guest.value;
      Driven(Effect(s, Claiming(s.room)), me, 3) == Effect(s.(claim := Some(me)), Creating(owner, guest))
  {
    var owner, guest := s.room.value.owner, s.room.value.guest.value;
    var e, held := Effect(s, Claiming(s.room)), s.(claim := Some(me));
    assert Driven(e, me, 0) == e;
    assert Driven(e, me, 1) == Effect(held, FindOwner(owner, guest));
    SameActive(s, me, owner);
    SameActive(s, me, guest);
    assert Driven(e, me, 2) == Effect(held, FindGuest(owner, guest));
  }

  /** The claim does not touch the rows. */
  lemma SameActive(s: Store, me: int, user: int)
    ensures Free(s.(claim := Some(me)), user) <==> Free(s, user)
    ensures ActiveOf(s.(claim := Some(me)), user).None? <==> Free(s, user)
  {
    var held := s.(claim := Some(me));
    FreeIff(held, user);
    assert forall m :: PlaysIn(held, user, m) <==> PlaysIn(s, user, m);
  }

  /** The store after a handoff: one more row, of these two players, recorded and told. */
  predicate HandedOff(s: Store, t: Store, owner: int, guest: int) {
    && t.rows == s.rows[s.nextId := Players(owner, guest)] && t.nextId == s.nextId + 1
    && t.room == Some(Room(Matched, owner, Some(guest), Some(s.nextId)))
    && t.claim == None && t.replies == s.replies + [s.nextId]
  }

  /** An attempt that nothing disturbs creates the match of the two players, records it and tells it. */
  lemma HandoffRuns(st: State, me: int)
    requires JobOf(st, me) == Idle && Ready(st.store)
    requires Free(st.store, st.store.room.value.owner) && Free(st.store, st.store.room.value.guest.value)
    ensures
      var s, e := st.store, Attempt(st, me, 6);
      HandedOff(s, e.store, s.room.value.owner, s.room.value.guest.value) && JobOf(e, me) == Idle
  {
    var s := st.store;
    var e := Effect(s, Claiming(s.room));
    AttemptIs(st, me, 6);
    ClaimDriven(s, me);
    var created := Driven(e, me, 4);
    assert created.job == Initializing(s.nextId);
    assert Driven(e, me, 5) == Effect(created.store, Recording(s.nextId));
  }

  /** If the row cannot be created, the claim is given back and nothing else has happened. */
  lemma FailedCreation(st: State, me: int)
    requires JobOf(st, me) == Idle && Ready(st.store)
    requires Free(st.store, st.store.room.value.owner) && Free(st.store, st.store.room.value.guest.value)
    ensures
      var e := Drive(Next(Attempt(st, me, 3), me, Fails), me, 1);
      e.store == st.store && JobOf(e, me) == Idle
  {
    AttemptIs(st, me, 3);
    ClaimDriven(st.store, me);
    GivesBack(st, me, Driven(Effect(st.store, Claiming(st.store.room)), me, 3));
  }

  lemma GivesBack(st: State, me: int, e: Effect)
    requires e.store.claim == Some(me) && (e.job.Creating? || e.job.Initializing?)
    ensures
      var f := Drive(Next(With(st, me, e), me, Fails), me, 1);
      f.store == e.store.(claim := None) && JobOf(f, me) == Idle
  {
    var failed := Next(With(st, me, e), me, Fails);
    assert JobOf(failed, me) == Aborting;
    assert Drive(failed, me, 0) == failed;
  }

  /** If the runtime cannot be initialized, the claim is given back too; the row stays behind. */
  lemma FailedInitialization(st: State, me: int)
    requires JobOf(st, me) == Idle && Ready(st.store)
    requires Free(st.store, st.store.room.value.owner) && Free(st.store, st.store.room.value.guest.value)
    ensures
      var s, e := st.store, Drive(Next(Attempt(st, me, 4), me, Fails), me, 1);
      && e.store == s.(
           rows := s.rows[s.nextId := Players(s.room.value.owner, s.room.value.guest.value)], nextId := s.nextId + 1)
      && JobOf(e, me) == Idle
  {
    AttemptIs(st, me, 4);
    ClaimDriven(st.store, me);
    GivesBack(st, me, Driven(Effect(st.store, Claiming(st.store.room)), me, 4));
  }

  /** A match that one of the two is in already is recorded instead of a new one. */
  lemma AdoptionRuns(st: State, me: int) returns (m: int)
    requires JobOf(st, me) == Idle && Ready(st.store)
    requires !Free(st.store, st.store.room.value.owner) || !Free(st.store, st.store.room.value.guest.value)
    ensures PlaysIn(st.store, st.store.room.value.owner, m) || PlaysIn(st.store, st.store.room.value.guest.value, m)
    ensures
      var s, e := st.store, Attempt(st, me, 4);
      && e.store == s.(room := Some(s.room.value.(matchId := Some(m), status := Matched)), replies := s.replies + [m])
      && JobOf(e, me) == Idle
  {
    var s := st.store;
    var owner, guest := s.room.value.owner, s.room.value.guest.value;
    var e, held := Effect(s, Claiming(s.room)), s.(claim := Some(me));
    AttemptIs(st, me, 4);
    assert Driven(e, me, 0) == e;
    assert Driven(e, me, 1) == Effect(held, FindOwner(owner, guest));
    SameActive(s, me, owner);
    SameActive(s, me, guest);
    if ActiveOf(held, owner).Some? {
      m := ActiveOf(held, owner).value;
      assert Driven(e, me, 2) == Effect(held, Recording(m));
      assert Driven(e, me, 3).job == Idle;
    } else {
      m := ActiveOf(held, guest).value;
      assert Driven(e, me, 2) == Effect(held, FindGuest(owner, guest));
      assert Driven(e, me, 3) == Effect(held, Recording(m));
    }
  }

  /** Without a claim nothing is made: a recorded match is told again, and any other attempt is turned away. */
  lemma LateAttempt(st: State, me: int)
    requires JobOf(st, me) == Idle && !Ready(st.store)
    requires st.store.room.Some? ==> (st.store.room.value.matchId.Some? <==> st.store.room.value.status == Matched)
    ensures
      var s, e := st.store, Attempt(st, me, 2);
      && JobOf(e, me) == Idle
      && e.store == if s.room.Some? && s.room.value.matchId.Some?
        then s.(replies := s.replies + [s.room.value.matchId.value]) else s
  {
    var s := st.store;
    var e := Effect(s, Claiming(s.room));
    AttemptIs(st, me, 2);
    assert Driven(e, me, 0) == e;
    assert Driven(e, me, 1) == Claim(s, me, s.room);
  }

  /**
   * A worker that crashes with the claim leaves it behind: every other attempt is turned away
   * until the claim lapses, and then the room is ready again.
   */
  lemma CrashedClaim(st: State, me: int, other: int)
    requires st.store.claim == Some(me) && me != other && JobOf(st, other) == Idle
    requires Ready(st.store.(claim := None))
    ensures
      var crashed := Next(st, me, Crashes);
      var tried := Attempt(crashed, other, 2);
      && JobOf(crashed, me) == Idle && crashed.store == st.store
      && tried.store == st.store && JobOf(tried, other) == Idle
      && Ready(Next(tried, me, ClaimLapses).store)
      && Next(tried, me, ClaimLapses).store == st.store.(claim := None)
  {
    LateAttempt(Next(st, me, Crashes), other);
  }
}
