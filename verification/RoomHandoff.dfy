/**
 * The handoff of a full private room to a match: `startRoomMatch`, `createRoomMatch` and
 * `finishRoomMatch` of backend/src/room/room.service.ts over the scripts room_start_match,
 * room_match_abort and room_match_done of backend/src/redis/scripts. Each script, read and
 * row creation is one atomic step of one of any number of workers.
 */
module RoomHandoff {
  import opened GameTypes

  datatype RoomStatus = Waiting | Full | Matched

  datatype Room = Room(status: RoomStatus, owner: int, guest: Option<int>, matchId: Option<int>)

  datatype Players = Players(p1: int, p2: int)

  /** `rows` are the match rows in progress; `nextId` is above every id given so far. */
  datatype Store = Store(
    room: Option<Room>, claim: Option<int>, rows: map<int, Players>, nextId: int, replies: seq<int>)

  datatype Job =
    | Idle
    | Claiming(view: Option<Room>)
    | FindOwner(owner: int, guest: int)
    | FindGuest(owner: int, guest: int)
    | Creating(owner: int, guest: int)
    | Initializing(matchId: int)
    | Aborting
    | Recording(matchId: int)

  datatype Event =
    | Trigger
    | Continue
    /** The row cannot be created, or the runtime not initialized. */
    | Fails
    | Crashes
    | ClaimLapses
    | MatchEnds(matchId: int)

  datatype Effect = Effect(store: Store, job: Job)

  /** findActiveByUserId. */
  ghost function ActiveOf(s: Store, user: int): (r: Option<int>)
    ensures r.Some? ==> r.value in s.rows && (s.rows[r.value].p1 == user || s.rows[r.value].p2 == user)
    ensures r.None? ==> forall m <- s.rows :: s.rows[m].p1 != user && s.rows[m].p2 != user
  {
    if exists m :: m in s.rows && (s.rows[m].p1 == user || s.rows[m].p2 == user) then
      var m :| m in s.rows && (s.rows[m].p1 == user || s.rows[m].p2 == user);
      Some(m)
    else None
  }

  /** room_start_match, and what startRoomMatch makes of its answer. */
  function Claim(s: Store, me: int, view: Option<Room>): Effect {
    if s.room.Some? && s.room.value.status == Full && s.room.value.guest.Some? && s.claim == None then
      Effect(s.(claim := Some(me)), FindOwner(s.room.value.owner, s.room.value.guest.value))
    else if s.room.Some? && view.Some? && view.value.matchId.Some? then
      Effect(s, Recording(view.value.matchId.value))
    else Effect(s, Idle)
  }

  /** room_match_done: the first record wins, and every caller is told the recorded match. */
  function Record(s: Store, matchId: int): Store {
    if s.room.Some? && s.room.value.matchId.Some? then s.(replies := s.replies + [s.room.value.matchId.value])
    else
      var room := if s.room.Some? then s.room.value else Room(Matched, 0, None, None);
      s.(room := Some(room.(matchId := Some(matchId), status := Matched)), claim := None,
        replies := s.replies + [matchId])
  }

  /** room_match_abort: compare-and-delete. */
  function Abort(s: Store, me: int): Store {
    if s.claim == Some(me) then s.(claim := None) else s
  }

  ghost function Proceed(s: Store, me: int, t: Job): Effect {
    match t
    case Idle => Effect(s, Idle)
    case Claiming(view) => Claim(s, me, view)
    case FindOwner(owner, guest) =>
      (match ActiveOf(s, owner)
       case Some(m) => Effect(s, Recording(m))
       case None => Effect(s, FindGuest(owner, guest)))
    case FindGuest(owner, guest) =>
      (match ActiveOf(s, guest)
       case Some(m) => Effect(s, Recording(m))
       case None => Effect(s, Creating(owner, guest)))
    case Creating(owner, guest) =>
      Effect(s.(rows := s.rows[s.nextId := Players(owner, guest)], nextId := s.nextId + 1), Initializing(s.nextId))
    case Initializing(m) => Effect(s, Recording(m))
    case Aborting => Effect(Abort(s, me), Idle)
    case Recording(m) => Effect(Record(s, m), Idle)
  }

  function Fail(t: Job): Job {
    if t.Creating? || t.Initializing? then Aborting else t
  }

  datatype State = State(store: Store, jobs: map<int, Job>)

  function JobOf(st: State, me: int): Job {
    if me in st.jobs then st.jobs[me] else Idle
  }

  /** The job may still create a match. */
  predicate MayCreate(t: Job) {
    t.FindOwner? || t.FindGuest? || t.Creating?
  }

  ghost function Next(st: State, me: int, e: Event): State {
    var s, t := st.store, JobOf(st, me);
    match e
    case Trigger => if t != Idle then st else st.(jobs := st.jobs[me := Claiming(s.room)])
    case Continue => var r := Proceed(s, me, t); State(r.store, st.jobs[me := r.job])
    case Fails => st.(jobs := st.jobs[me := Fail(t)])
    case Crashes => st.(jobs := st.jobs[me := Idle])
    case ClaimLapses => st.(store := s.(claim := None))
    case MatchEnds(m) => st.(store := s.(rows := s.rows - {m}))
  }

  datatype Turn = Turn(me: int, event: Event)

  ghost function Run(st: State, turns: seq<Turn>): State {
    if turns == [] then st
    else
      var last := turns[|turns| - 1];
      Next(Run(st, turns[..|turns| - 1]), last.me, last.event)
  }

  /** A full room whose two players are in no match. */
  ghost predicate Initial(st: State, owner: int, guest: int) {
    && owner != guest && st.jobs == map[]
    && st.store == Store(Some(Room(Full, owner, Some(guest), None)), None, map[], 0, [])
  }

  /** The claim lapses while its holder may still create a match. */
  predicate TooEarly(st: State, e: Event) {
    e.ClaimLapses? && st.store.claim.Some? && MayCreate(JobOf(st, st.store.claim.value))
  }

  ghost predicate TooEarlyAt(st: State, turns: seq<Turn>, k: int) {
    0 <= k < |turns| && TooEarly(Run(st, turns[..k]), turns[k].event)
  }

  /** From the given turn on no claim lapses too early. */
  ghost predicate TimelyFrom(st: State, turns: seq<Turn>, i: nat) {
    forall k | i <= k :: !TooEarlyAt(st, turns, k)
  }

  ghost predicate Timely(st: State, turns: seq<Turn>) {
    TimelyFrom(st, turns, 0)
  }

  lemma EarlierTurn(st: State, turns: seq<Turn>, n: nat, k: int)
    requires n <= |turns| && k < n
    ensures TooEarlyAt(st, turns[..n], k) <==> TooEarlyAt(st, turns, k)
  {
    if 0 <= k {
      assert turns[..n][..k] == turns[..k];
    }
  }

  lemma TimelyPrefix(st: State, turns: seq<Turn>, n: nat)
    requires n <= |turns| && Timely(st, turns)
    ensures Timely(st, turns[..n])
  {
    forall k: nat ensures !TooEarlyAt(st, turns[..n], k) {
      if k < n {
        EarlierTurn(st, turns, n, k);
      }
    }
  }

  // ---- what every timely run keeps ----

  /** A worker that may create holds the claim, unless a match is recorded; and it has seen no rows. */
  ghost predicate JobInv(s: Store, owner: int, guest: int, me: int, t: Job)
    requires s.room.Some?
  {
    match t
    case Claiming(view) => view.Some? && view.value.matchId.Some? ==> s.room.value.matchId == view.value.matchId
    case FindOwner(o, g) => (s.claim == Some(me) || s.room.value.matchId.Some?) && o == owner && g == guest
    case FindGuest(o, g) =>
      (s.claim == Some(me) || s.room.value.matchId.Some?) && o == owner && g == guest && s.rows == map[]
    case Creating(o, g) =>
      (s.claim == Some(me) || s.room.value.matchId.Some?) && o == owner && g == guest && s.rows == map[]
    case _ => true
  }

  ghost predicate StoreInv(s: Store, owner: int, guest: int) {
    && s.room.Some? && s.room.value.owner == owner && s.room.value.guest == Some(guest)
    && (s.room.value.matchId.Some? <==> s.room.value.status == Matched)
    && (s.room.value.matchId.None? <==> s.room.value.status == Full)
    && |s.rows| <= 1 && (forall m <- s.rows :: s.rows[m] == Players(owner, guest))
    && (s.claim.Some? ==> s.room.value.matchId.None?)
    && (s.replies != [] ==> s.room.value.matchId.Some?)
    && forall i | 0 <= i < |s.replies| :: Some(s.replies[i]) == s.room.value.matchId
  }

  ghost predicate OneCreates(st: State) {
    forall i, j | i in st.jobs && j in st.jobs && MayCreate(st.jobs[i]) && MayCreate(st.jobs[j]) :: i == j
  }

  ghost predicate Inv(st: State, owner: int, guest: int) {
    && StoreInv(st.store, owner, guest) && OneCreates(st)
    && forall me <- st.jobs :: JobInv(st.store, owner, guest, me, st.jobs[me])
  }

  lemma FewerRows(rows: map<int, Players>, m: int)
    requires |rows| <= 1
    ensures |rows - {m}| <= 1
  {
    assert (rows - {m}).Keys == rows.Keys - {m};
  }

  lemma NoRows(s: Store, owner: int, guest: int)
    requires StoreInv(s, owner, guest) && ActiveOf(s, owner).None?
    ensures s.rows == map[]
  {
    assert forall m :: m in s.rows ==> s.rows[m] == Players(owner, guest);
    assert s.rows.Keys == {};
  }

  /** The store is changed only in ways that the jobs of the others allow. */
  lemma StepKeeps(st: State, owner: int, guest: int, me: int, s: Store, t: Job)
    requires Inv(st, owner, guest) && StoreInv(s, owner, guest) && JobInv(s, owner, guest, me, t)
    requires MayCreate(t) ==> forall i <- st.jobs :: MayCreate(st.jobs[i]) ==> i == me
    requires forall i <- st.jobs :: i != me ==> JobInv(s, owner, guest, i, st.jobs[i])
    ensures Inv(State(s, st.jobs[me := t]), owner, guest)
  {
  }

  lemma ClaimKeeps(st: State, owner: int, guest: int, me: int)
    requires Inv(st, owner, guest) && me in st.jobs && st.jobs[me].Claiming?
    ensures Inv(Next(st, me, Continue), owner, guest)
  {
    var r := Claim(st.store, me, st.jobs[me].view);
    assert JobInv(st.store, owner, guest, me, st.jobs[me]);
    forall i <- st.jobs | i != me
      ensures JobInv(r.store, owner, guest, i, st.jobs[i]) && (MayCreate(r.job) ==> !MayCreate(st.jobs[i]))
    {
      assert JobInv(st.store, owner, guest, i, st.jobs[i]);
    }
    StepKeeps(st, owner, guest, me, r.store, r.job);
  }

  lemma FindKeeps(st: State, owner: int, guest: int, me: int)
    requires Inv(st, owner, guest) && me in st.jobs && (st.jobs[me].FindOwner? || st.jobs[me].FindGuest?)
    ensures Inv(Next(st, me, Continue), owner, guest)
  {
    assert JobInv(st.store, owner, guest, me, st.jobs[me]);
    if st.jobs[me].FindOwner? && ActiveOf(st.store, owner).None? {
      NoRows(st.store, owner, guest);
    }
    var r := Proceed(st.store, me, st.jobs[me]);
    StepKeeps(st, owner, guest, me, r.store, r.job);
  }

  lemma CreateKeeps(st: State, owner: int, guest: int, me: int)
    requires Inv(st, owner, guest) && me in st.jobs && st.jobs[me].Creating?
    ensures Inv(Next(st, me, Continue), owner, guest)
  {
    var s := st.store;
    assert JobInv(s, owner, guest, me, st.jobs[me]);
    assert s.rows[s.nextId := Players(owner, guest)] == map[s.nextId := Players(owner, guest)];
    var r := Proceed(s, me, st.jobs[me]);
    forall i <- st.jobs | i != me ensures JobInv(r.store, owner, guest, i, st.jobs[i]) {
      assert JobInv(s, owner, guest, i, st.jobs[i]) && !MayCreate(st.jobs[i]);
    }
    StepKeeps(st, owner, guest, me, r.store, r.job);
  }

  lemma FinishKeeps(st: State, owner: int, guest: int, me: int)
    requires Inv(st, owner, guest) && me in st.jobs
    requires !st.jobs[me].Claiming? && !MayCreate(st.jobs[me])
    ensures Inv(Next(st, me, Continue), owner, guest)
  {
    var r := Proceed(st.store, me, st.jobs[me]);
    forall i <- st.jobs | i != me ensures JobInv(r.store, owner, guest, i, st.jobs[i]) {
      assert JobInv(st.store, owner, guest, i, st.jobs[i]);
    }
    StepKeeps(st, owner, guest, me, r.store, r.job);
  }

  lemma ContinueKeeps(st: State, owner: int, guest: int, me: int)
    requires Inv(st, owner, guest)
    ensures Inv(Next(st, me, Continue), owner, guest)
  {
    if me !in st.jobs {
      StepKeeps(st, owner, guest, me, st.store, Idle);
    } else {
      match st.jobs[me]
      case Claiming(_) => ClaimKeeps(st, owner, guest, me);
      case FindOwner(_, _) => FindKeeps(st, owner, guest, me);
      case FindGuest(_, _) => FindKeeps(st, owner, guest, me);
      case Creating(_, _) => CreateKeeps(st, owner, guest, me);
      case _ => FinishKeeps(st, owner, guest, me);
    }
  }

  lemma StopKeeps(st: State, owner: int, guest: int, me: int, e: Event)
    requires Inv(st, owner, guest) && (e.Trigger? || e.Fails? || e.Crashes?)
    ensures Inv(Next(st, me, e), owner, guest)
  {
    assert me in st.jobs ==> JobInv(st.store, owner, guest, me, st.jobs[me]);
    StepKeeps(st, owner, guest, me, st.store, Claiming(st.store.room));
    StepKeeps(st, owner, guest, me, st.store, Fail(JobOf(st, me)));
    StepKeeps(st, owner, guest, me, st.store, Idle);
  }

  lemma LapseKeeps(st: State, owner: int, guest: int, me: int)
    requires Inv(st, owner, guest) && !TooEarly(st, ClaimLapses)
    ensures Inv(Next(st, me, ClaimLapses), owner, guest)
  {
    forall i <- st.jobs
      ensures JobInv(Next(st, me, ClaimLapses).store, owner, guest, i, st.jobs[i])
    {
      assert JobInv(st.store, owner, guest, i, st.jobs[i]);
    }
  }

  lemma EndKeeps(st: State, owner: int, guest: int, me: int, m: int)
    requires Inv(st, owner, guest)
    ensures Inv(Next(st, me, MatchEnds(m)), owner, guest)
  {
    FewerRows(st.store.rows, m);
    forall i <- st.jobs
      ensures JobInv(Next(st, me, MatchEnds(m)).store, owner, guest, i, st.jobs[i])
    {
      assert JobInv(st.store, owner, guest, i, st.jobs[i]);
    }
  }

  lemma NextKeeps(st: State, owner: int, guest: int, me: int, e: Event)
    requires Inv(st, owner, guest) && !TooEarly(st, e)
    ensures Inv(Next(st, me, e), owner, guest)
  {
    match e
    case Continue => ContinueKeeps(st, owner, guest, me);
    case ClaimLapses => LapseKeeps(st, owner, guest, me);
    case MatchEnds(m) => EndKeeps(st, owner, guest, me, m);
    case _ => StopKeeps(st, owner, guest, me, e);
  }

  lemma {:induction false} RunKeeps(st: State, owner: int, guest: int, turns: seq<Turn>)
    requires Initial(st, owner, guest) && Timely(st, turns)
    ensures Inv(Run(st, turns), owner, guest)
    decreases |turns|
  {
    if turns != [] {
      var n := |turns| - 1;
      TimelyPrefix(st, turns, n);
      RunKeeps(st, owner, guest, turns[..n]);
      assert !TooEarlyAt(st, turns, n);
      NextKeeps(Run(st, turns[..n]), owner, guest, turns[n].me, turns[n].event);
    }
  }

  /** At most one match in progress, and everybody who is told a match is told the same one. */
  ghost predicate Single(s: Store) {
    |s.rows| <= 1 && forall i, j | 0 <= i < |s.replies| && 0 <= j < |s.replies| :: s.replies[i] == s.replies[j]
  }

  /**
   * Whatever starts, fails, crashes or ends, and in whatever order: as long as no claim lapses
   * under a holder that may still create, a room has at most one match row in progress, and
   * everybody who is told a match is told the same one.
   */
  lemma AtMostOneMatch(st: State, owner: int, guest: int, turns: seq<Turn>)
    requires Initial(st, owner, guest) && Timely(st, turns)
    ensures Single(Run(st, turns).store)
  {
    RunKeeps(st, owner, guest, turns);
  }

  /** A match that a crashed or failed attempt left behind is adopted by the next claim. */
  lemma OrphanIsAdopted(st: State, owner: int, guest: int, turns: seq<Turn>, me: int, m: int)
    requires Initial(st, owner, guest) && Timely(st, turns)
    requires me in Run(st, turns).jobs && Run(st, turns).jobs[me].FindOwner?
    requires m in Run(st, turns).store.rows
    ensures
      var s := Next(Run(st, turns), me, Continue);
      && JobOf(s, me) == Recording(m) && s.store.room.Some?
      && var before := s.store.room.value.matchId;
        Next(s, me, Continue).store.room.value.matchId == if before.None? then Some(m) else before
  {
    RunKeeps(st, owner, guest, turns);
    var s := Run(st, turns);
    assert JobInv(s.store, owner, guest, me, s.jobs[me]);
    OneRow(s.store.rows, m);
  }

  lemma OneRow(rows: map<int, Players>, m: int)
    requires |rows| <= 1 && m in rows
    ensures rows.Keys == {m}
  {
    var rest := rows.Keys - {m};
    assert |rest| == |rows.Keys| - 1;
    assert rows.Keys == {m} + rest;
  }

  lemma RecordStays(st: State, me: int, e: Event)
    requires st.store.room.Some? && st.store.room.value.matchId.Some?
    requires st.store.room.value.status == Matched
    ensures
      var now := Next(st, me, e).store;
      && now.room.Some? && now.room.value.matchId == st.store.room.value.matchId && now.room.value.status == Matched
  {
  }

  /** Once a match is recorded it stays so for good, claim or no claim. */
  lemma {:induction false} RecordedForGood(st: State, turns: seq<Turn>)
    requires st.store.room.Some? && st.store.room.value.matchId.Some? && st.store.room.value.status == Matched
    ensures
      var now := Run(st, turns).store.room;
      now.Some? && now.value.matchId == st.store.room.value.matchId && now.value.status == Matched
    decreases |turns|
  {
    if turns != [] {
      var n := |turns| - 1;
      RecordedForGood(st, turns[..n]);
      RecordStays(Run(st, turns[..n]), turns[n].me, turns[n].event);
    }
  }

  // ---- when a claim lapses too early ----

  lemma RunSnoc(st: State, turns: seq<Turn>, me: int, e: Event)
    ensures Run(st, turns + [Turn(me, e)]) == Next(Run(st, turns), me, e)
  {
    assert (turns + [Turn(me, e)])[..|turns|] == turns;
  }

  lemma Then(st: State, turns: seq<Turn>, i: nat, me: int, e: Event) returns (more: seq<Turn>)
    requires TimelyFrom(st, turns, i) && i <= |turns| && !e.ClaimLapses?
    ensures turns <= more && TimelyFrom(st, more, i) && Run(st, more) == Next(Run(st, turns), me, e)
  {
    more := turns + [Turn(me, e)];
    RunSnoc(st, turns, me, e);
    assert more[..|turns|] == turns;
    forall k | i <= k ensures !TooEarlyAt(st, more, k) {
      if k < |turns| {
        EarlierTurn(st, more, |turns|, k);
      }
    }
  }

  /** With no match in sight, a worker that may create goes on to the point of doing so. */
  lemma ToCreation(st: State, turns: seq<Turn>, i: nat, me: int, owner: int, guest: int) returns (more: seq<Turn>)
    requires TimelyFrom(st, turns, i) && i <= |turns| && Run(st, turns).store.rows == map[]
    requires
      var t := JobOf(Run(st, turns), me);
      t == FindOwner(owner, guest) || t == FindGuest(owner, guest) || t == Creating(owner, guest)
    ensures turns <= more && TimelyFrom(st, more, i)
    ensures
      var s, c := Run(st, turns), Run(st, more);
      c.store == s.store && JobOf(c, me) == Creating(owner, guest) && forall k | k != me :: JobOf(c, k) == JobOf(s, k)
  {
    more := turns;
    if JobOf(Run(st, more), me).FindOwner? {
      more := Then(st, more, i, me, Continue);
    }
    if JobOf(Run(st, more), me).FindGuest? {
      more := Then(st, more, i, me, Continue);
    }
  }

  /** An idle worker takes the free claim of a full room. */
  lemma TakesClaim(st: State, turns: seq<Turn>, i: nat, me: int, owner: int, guest: int) returns (more: seq<Turn>)
    requires TimelyFrom(st, turns, i) && i <= |turns| && JobOf(Run(st, turns), me) == Idle
    requires Run(st, turns).store.claim == None
    requires Run(st, turns).store.room == Some(Room(Full, owner, Some(guest), None))
    ensures turns <= more && TimelyFrom(st, more, i)
    ensures
      var s, c := Run(st, turns), Run(st, more);
      && c.store == s.store.(claim := Some(me)) && JobOf(c, me) == FindOwner(owner, guest)
      && forall k | k != me :: JobOf(c, k) == JobOf(s, k)
  {
    var asked := Then(st, turns, i, me, Trigger);
    more := Then(st, asked, i, me, Continue);
  }

  lemma {:induction false} FreshWorker(keys: set<int>) returns (y: int)
    ensures forall k :: k in keys ==> k < y
    decreases |keys|
  {
    y := 0;
    if exists k :: k in keys {
      var k :| k in keys;
      var x := FreshWorker(keys - {k});
      y := if x <= k then k + 1 else x;
      assert forall j :: j in keys ==> j == k || j in keys - {k};
    }
  }

  /** A match in progress ends, if there is one. */
  lemma AllEnd(st: State, turns: seq<Turn>, i: nat) returns (more: seq<Turn>)
    requires TimelyFrom(st, turns, i) && i <= |turns| && |Run(st, turns).store.rows| <= 1
    ensures turns <= more && TimelyFrom(st, more, i)
    ensures Run(st, more) == Run(st, turns).(store := Run(st, turns).store.(rows := map[]))
  {
    var rows := Run(st, turns).store.rows;
    if exists m :: m in rows {
      var m :| m in rows;
      more := Then(st, turns, i, 0, MatchEnds(m));
      OneRow(rows, m);
      assert rows - {m} == map[];
    } else {
      more := turns;
      assert rows == map[];
    }
  }

  lemma TwoRows(s: State, h: int, y: int, owner: int, guest: int)
    requires h != y && JobOf(s, h) == Creating(owner, guest) && JobOf(s, y) == Creating(owner, guest)
    requires s.store.rows == map[]
    ensures |Next(Next(s, h, Continue), y, Continue).store.rows| == 2
  {
    var n := s.store.nextId;
    assert Next(Next(s, h, Continue), y, Continue).store.rows
      == map[n := Players(owner, guest), n + 1 := Players(owner, guest)];
  }

  /**
   * Whenever a claim lapses too early, the run can go on, with no other claim lapsing too
   * early, to two matches in progress: the holder and the next claimant both create one.
   */
  lemma LapsedClaimMakesTwo(st: State, owner: int, guest: int, turns: seq<Turn>, me: int) returns (all: seq<Turn>)
    requires Initial(st, owner, guest) && Timely(st, turns) && TooEarly(Run(st, turns), ClaimLapses)
    ensures turns + [Turn(me, ClaimLapses)] <= all && TimelyFrom(st, all, |turns| + 1)
    ensures |Run(st, all).store.rows| == 2
  {
    RunKeeps(st, owner, guest, turns);
    var s, i := Run(st, turns), |turns| + 1;
    var h := s.store.claim.value;
    var y := FreshWorker(s.jobs.Keys);
    assert JobInv(s.store, owner, guest, h, s.jobs[h]);
    RunSnoc(st, turns, me, ClaimLapses);
    assert s.store.room == Some(Room(Full, owner, Some(guest), None));
    var lapsed := turns + [Turn(me, ClaimLapses)];
    var cleared := AllEnd(st, lapsed, i);
    var one := ToCreation(st, cleared, i, h, owner, guest);
    var claimed := TakesClaim(st, one, i, y, owner, guest);
    var two := ToCreation(st, claimed, i, y, owner, guest);
    TwoRows(Run(st, two), h, y, owner, guest);
    all := Then(st, two, i, h, Continue);
    all := Then(st, all, i, y, Continue);
  }

  // ---- the exact condition ----

  /** From the end of this run on, every run without a lapse that is too early keeps one match. */
  ghost predicate SingleFromHere(st: State, turns: seq<Turn>) {
    forall all | turns <= all && TimelyFrom(st, all, |turns|) :: Single(Run(st, all).store)
  }

  lemma TimelyExtends(st: State, turns: seq<Turn>, all: seq<Turn>)
    requires Timely(st, turns) && turns <= all && TimelyFrom(st, all, |turns|)
    ensures Timely(st, all)
  {
    assert all[..|turns|] == turns;
    forall k: nat ensures !TooEarlyAt(st, all, k) {
      if k < |turns| {
        EarlierTurn(st, all, |turns|, k);
      }
    }
  }

  lemma TimelyIsSingle(st: State, owner: int, guest: int, turns: seq<Turn>)
    requires Initial(st, owner, guest) && Timely(st, turns)
    ensures SingleFromHere(st, turns)
  {
    forall all | turns <= all && TimelyFrom(st, all, |turns|) ensures Single(Run(st, all).store) {
      TimelyExtends(st, turns, all);
      AtMostOneMatch(st, owner, guest, all);
    }
  }

  /** The turn at which a claim first lapses too early. */
  lemma {:induction false} FirstTooEarly(st: State, turns: seq<Turn>) returns (k: nat)
    requires !Timely(st, turns)
    ensures TooEarlyAt(st, turns, k) && Timely(st, turns[..k])
    decreases |turns|
  {
    k :| TooEarlyAt(st, turns, k);
    if !Timely(st, turns[..k]) {
      var j := FirstTooEarly(st, turns[..k]);
      EarlierTurn(st, turns, k, j);
      assert turns[..k][..j] == turns[..j];
      k := j;
    }
  }

  /**
   * The exact condition: no claim lapses under a holder that may still create if and only if,
   * at each point of the run, every continuation without such a lapse keeps one match.
   */
  lemma TimelyIff(st: State, owner: int, guest: int, turns: seq<Turn>)
    requires Initial(st, owner, guest)
    ensures Timely(st, turns) <==> forall i | 0 <= i <= |turns| :: SingleFromHere(st, turns[..i])
  {
    if Timely(st, turns) {
      forall i | 0 <= i <= |turns| ensures SingleFromHere(st, turns[..i]) {
        TimelyPrefix(st, turns, i);
        TimelyIsSingle(st, owner, guest, turns[..i]);
      }
    } else {
      var k := FirstTooEarly(st, turns);
      var one := turns[..k] + [turns[k]];
      assert one == turns[..k + 1];
      var all := LapsedClaimMakesTwo(st, owner, guest, turns[..k], turns[k].me);
      assert turns[k] == Turn(turns[k].me, ClaimLapses);
      assert !SingleFromHere(st, turns[..k + 1]);
    }
  }
}
