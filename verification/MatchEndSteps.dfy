/**
 * Any number of `finalize` calls at once: the transaction, the cleanup job and the message of a
 * call are three steps, between which every other call may run and at each of which it may fail.
 */
module MatchEndSteps {
  import opened GameTypes
  import opened MatchEnd

  datatype Job =
    | Idle
    | Transacting(call: Call)
    | Enqueueing(tells: Option<EndMessage>)
    | Publishing(message: EndMessage)

  /** A handler calls finalize, the call goes one step on, or it throws or dies where it is. */
  datatype Event = Finalize(call: Call) | Continue | Fails

  datatype State = State(db: Db, jobs: map<int, Job>)

  datatype Effect = Effect(db: Db, job: Job)

  function JobOf(st: State, me: int): Job {
    if me in st.jobs then st.jobs[me] else Idle
  }

  function AfterTransaction(d: Decision): Job {
    match d
    case Rejected(_) => Idle
    case Repairs => Enqueueing(None)
    case Tells(m) => Enqueueing(Some(m))
  }

  function Proceed(db: Db, t: Job): Effect {
    match t
    case Idle => Effect(db, Idle)
    case Transacting(c) => Effect(Transact(db, c).db, AfterTransaction(Transact(db, c).next))
    case Enqueueing(tells) => Effect(ScheduleCleanup(db), if tells.Some? then Publishing(tells.value) else Idle)
    case Publishing(m) => Effect(db.(published := db.published + [m]), Idle)
  }

  function Next(st: State, me: int, e: Event): State {
    var t := JobOf(st, me);
    match e
    case Finalize(c) => if t == Idle then st.(jobs := st.jobs[me := Transacting(c)]) else st
    case Continue => var r := Proceed(st.db, t); State(r.db, st.jobs[me := r.job])
    case Fails => st.(jobs := st.jobs[me := Idle])
  }

  datatype Turn = Turn(me: int, event: Event)

  function Run(first: Db, turns: seq<Turn>): State {
    if turns == [] then State(first, map[])
    else
      var last := turns[|turns| - 1];
      Next(Run(first, turns[..|turns| - 1]), last.me, last.event)
  }

  /** A call that nothing comes between does what the value-level call does. */
  lemma CallIsItsSteps(st: State, me: int, c: Call)
    requires JobOf(st, me) == Transacting(c)
    ensures
      var a := Next(st, me, Continue);
      var b := Next(a, me, if c.failure == QueueFails then Fails else Continue);
      var d := Next(b, me, if c.failure == PublishFails then Fails else Continue);
      d.db == FinalizeCall(st.db, c).db && JobOf(d, me) == Idle
  {
  }

  // ---- one call ends the match ----

  /** The message that a worker is about to send out. */
  function Telling(t: Job): Option<EndMessage> {
    match t
    case Enqueueing(tells) => tells
    case Publishing(m) => Some(m)
    case _ => None
  }

  ghost predicate Untouched(first: Db, st: State) {
    st.db == first && forall i <- st.jobs :: st.jobs[i].Idle? || st.jobs[i].Transacting?
  }

  /** Row and ratings are as the call c left them. */
  predicate LeftBy(first: Db, c: Call, db: Db) {
    var end := Transact(first, c).db;
    db == end.(cleanups := db.cleanups, published := db.published)
  }

  /** At most one worker has a message to send, and only that of the call c. */
  ghost predicate OneTells(st: State, m: EndMessage) {
    && (forall i <- st.jobs :: Telling(st.jobs[i]).Some? ==> Telling(st.jobs[i]) == Some(m))
    && (forall i, j | i in st.jobs && j in st.jobs && Telling(st.jobs[i]).Some? && Telling(st.jobs[j]).Some? :: i == j)
  }

  /** The message is out and nobody has it still to send, or it is not out. */
  ghost predicate ToldOnce(first: Db, st: State, m: EndMessage) {
    || st.db.published == first.published
    || (st.db.published == first.published + [m] && forall i <- st.jobs :: Telling(st.jobs[i]).None?)
  }

  /** Nobody tells of the end before the cleanup is scheduled. */
  ghost predicate CleanedUp(first: Db, st: State) {
    && st.db.cleanups >= first.cleanups
    && (st.db.published != first.published || (exists i :: i in st.jobs && st.jobs[i].Publishing?) ==>
      st.db.cleanups > first.cleanups)
  }

  ghost predicate EndedBy(first: Db, c: Call, st: State) {
    && Ends(first, c) && LeftBy(first, c, st.db)
    && OneTells(st, Transact(first, c).next.message) && ToldOnce(first, st, Transact(first, c).next.message)
    && CleanedUp(first, st)
  }

  lemma EndedStays(first: Db, c: Call, st: State, me: int, e: Event)
    requires EndedBy(first, c, st)
    ensures EndedBy(first, c, Next(st, me, e))
  {
    match e
    case Continue => EndedProceeds(first, c, st, me);
    case _ => EndedIdles(first, c, st, me, e);
  }

  lemma EndedIdles(first: Db, c: Call, st: State, me: int, e: Event)
    requires EndedBy(first, c, st) && !e.Continue?
    ensures EndedBy(first, c, Next(st, me, e))
  {
  }

  lemma EndedProceeds(first: Db, c: Call, st: State, me: int)
    requires EndedBy(first, c, st)
    ensures EndedBy(first, c, Next(st, me, Continue))
  {
    var t := JobOf(st, me);
    assert me !in st.jobs ==> t == Idle;
  }

  lemma UntouchedNext(first: Db, st: State, me: int, e: Event)
    requires first.status == InProgress && Untouched(first, st)
    ensures
      var t := JobOf(st, me);
      if e.Continue? && t.Transacting? && Ends(first, t.call) then EndedBy(first, t.call, Next(st, me, e))
      else Untouched(first, Next(st, me, e))
  {
  }

  /** Turn k is the transaction of call c, on a match that no earlier turn has touched. */
  ghost predicate EndsAt(first: Db, turns: seq<Turn>, k: nat, c: Call) {
    && k < |turns| && turns[k].event == Continue
    && Untouched(first, Run(first, turns[..k])) && JobOf(Run(first, turns[..k]), turns[k].me) == Transacting(c)
    && Ends(first, c)
  }

  /**
   * However the steps of the calls interleave, and wherever they fail: either no turn has touched
   * the match, or the first transaction that was not refused has decided row and ratings for
   * good; its message goes out at most once, nobody else's ever does, and the cleanup is
   * scheduled before.
   */
  lemma {:induction false} EndsOnce(first: Db, turns: seq<Turn>) returns (k: nat, c: Call)
    requires first.status == InProgress
    ensures Run(first, turns).db.status == InProgress ==> Untouched(first, Run(first, turns))
    ensures Run(first, turns).db.status != InProgress ==>
      EndsAt(first, turns, k, c) && EndedBy(first, c, Run(first, turns))
    decreases |turns|
  {
    k, c := 0, Call(None, HpZero, 0.0, NoFailure);
    if turns != [] {
      var n := |turns| - 1;
      var st := Run(first, turns[..n]);
      k, c := EndsOnce(first, turns[..n]);
      if st.db.status == InProgress {
        UntouchedNext(first, st, turns[n].me, turns[n].event);
        if Run(first, turns).db.status != InProgress {
          k, c := n, JobOf(st, turns[n].me).call;
        }
      } else {
        EndedStays(first, c, st, turns[n].me, turns[n].event);
        assert turns[..n][..k] == turns[..k];
      }
    }
  }
}
