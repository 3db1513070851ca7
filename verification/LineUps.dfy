/**
 * Two calls of the engine compared by their arguments: with the two line-ups swapped, and with
 * the units of each listed in another order.
 */
module LineUps {
  import opened GameTypes
  import opened BattleSpec
  import opened BattleTrace
  import opened BattleReplay
  import opened BattleMirror
  import opened BattleOrder
  import opened BattleStart

  // ---- the board of a list of units ----

  /** Lists of the same units make up the same board. */
  lemma SameMembersSameBoard(b: Board, c: Board, us: seq<UnitInstance>, vs: seq<UnitInstance>)
    requires Holds(b, us) && Holds(c, vs) && forall u :: u in us <==> u in vs
    ensures b == c
  {
    Covers(b, c, us, vs);
    Covers(c, b, vs, us);
  }

  lemma Covers(b: Board, c: Board, us: seq<UnitInstance>, vs: seq<UnitInstance>)
    requires Holds(b, us) && Holds(c, vs) && forall u <- us :: u in vs
    ensures forall p <- b :: p in c && c[p] == b[p]
  {
    forall p <- b ensures p in c && c[p] == b[p] {
      var i :| 0 <= i < |us| && us[i].pos == p;
      assert us[i] in vs;
      var j :| 0 <= j < |vs| && vs[j] == us[i];
    }
  }

  lemma LineUpsHold(p1: seq<UnitInstance>, p2: seq<UnitInstance>)
    requires Sound(p1, p2)
    ensures Holds(BoardOf(p1 + p2), p1 + p2)
  {
    SoundSlots(p1, p2);
    BoardHolds(p1 + p2);
  }

  // ---- the 2-star tanks of a list of units ----

  predicate Tank2(u: UnitInstance) { u.unitId.Tank? && u.star == 2 }

  function Tank2s(us: seq<UnitInstance>): seq<UnitInstance> {
    if us == [] then [] else (if Tank2(us[0]) then [us[0]] else []) + Tank2s(us[1..])
  }

  ghost predicate Stand(b: Board, us: seq<UnitInstance>) {
    forall i | 0 <= i < |us| :: us[i].pos in b && b[us[i].pos] == CloneOf(us[i])
  }

  ghost predicate SquaresOn(squares: seq<Pos>, side: Side) {
    forall p <- squares :: p.side == side
  }

  lemma {:induction false} NoTanksThere(b: Board, squares: seq<Pos>, side: Side)
    requires SquaresOn(squares, side)
    ensures Tanks(b, squares, side.Other()) == []
    decreases |squares|
  {
    if squares != [] {
      NoTanksThere(b, squares[1..], side);
    }
  }

  lemma LayoutConcat(us: seq<UnitInstance>, vs: seq<UnitInstance>)
    ensures LayoutOf(us + vs) == LayoutOf(us) + LayoutOf(vs)
  {
  }

  lemma LayoutOn(us: seq<UnitInstance>, side: Side)
    requires AllOn(us, side)
    ensures SquaresOn(LayoutOf(us), side)
  {
    forall p <- LayoutOf(us) ensures p.side == side {
      var i :| 0 <= i < |us| && us[i].pos == p;
      assert us[i] in us;
    }
  }

  lemma {:induction false} ListedTanks(b: Board, us: seq<UnitInstance>, side: Side)
    requires Stand(b, us) && SquaresOn(LayoutOf(us), side)
    ensures Tanks(b, LayoutOf(us), side) == LayoutOf(Tank2s(us))
    decreases |us|
  {
    if us != [] {
      assert LayoutOf(us)[1..] == LayoutOf(us[1..]);
      ListedTanks(b, us[1..], side);
      assert us[0].pos in b && b[us[0].pos] == CloneOf(us[0]);
      assert LayoutOf(us)[0] in LayoutOf(us);
    }
  }

  lemma {:induction false} TanksConcat(b: Board, x: seq<Pos>, y: seq<Pos>, side: Side)
    ensures Tanks(b, x + y, side) == Tanks(b, x, side) + Tanks(b, y, side)
    decreases |x|
  {
    if x == [] {
      assert x + y == y;
    } else {
      assert (x + y)[1..] == x[1..] + y;
      TanksConcat(b, x[1..], y, side);
    }
  }

  /** Of a concatenation of two sides, each side's tanks are those of its part. */
  lemma PartTanks(b: Board, us: seq<UnitInstance>, vs: seq<UnitInstance>)
    requires Stand(b, us) && Stand(b, vs) && AllOn(us, P1) && AllOn(vs, P2)
    ensures Tanks(b, LayoutOf(us + vs), P1) == LayoutOf(Tank2s(us))
    ensures Tanks(b, LayoutOf(us + vs), P2) == LayoutOf(Tank2s(vs))
  {
    var x, y := LayoutOf(us), LayoutOf(vs);
    LayoutConcat(us, vs);
    LayoutOn(us, P1);
    LayoutOn(vs, P2);
    ListedTanks(b, us, P1);
    ListedTanks(b, vs, P2);
    NoTanksThere(b, x, P1);
    NoTanksThere(b, y, P2);
    TanksConcat(b, x, y, P1);
    TanksConcat(b, x, y, P2);
  }

  lemma StandParts(b: Board, us: seq<UnitInstance>, vs: seq<UnitInstance>)
    requires Holds(b, us + vs)
    ensures Stand(b, us) && Stand(b, vs)
  {
    forall i | 0 <= i < |us| ensures us[i].pos in b && b[us[i].pos] == CloneOf(us[i]) {
      assert (us + vs)[i] == us[i];
    }
    forall i | 0 <= i < |vs| ensures vs[i].pos in b && b[vs[i].pos] == CloneOf(vs[i]) {
      assert (us + vs)[|us| + i] == vs[i];
    }
  }

  // ---- the units of a side in another order ----

  lemma PermutedSound(p1: seq<UnitInstance>, p2: seq<UnitInstance>, q1: seq<UnitInstance>, q2: seq<UnitInstance>)
    requires Sound(p1, p2) && multiset(p1) == multiset(q1) && multiset(p2) == multiset(q2)
    ensures Sound(q1, q2) && BoardOf(q1 + q2) == BoardOf(p1 + p2)
  {
    SameMembers(p1, q1);
    SameMembers(p2, q2);
    SameMembers(p1 + p2, q1 + q2);
    PermutedDistinct(p1, q1);
    PermutedDistinct(p2, q2);
    PermutedDistinct(p1 + p2, q1 + q2);
    LineUpsHold(p1, p2);
    LineUpsHold(q1, q2);
    SameMembersSameBoard(BoardOf(q1 + q2), BoardOf(p1 + p2), q1 + q2, p1 + p2);
  }

  lemma SameMembers(us: seq<UnitInstance>, vs: seq<UnitInstance>)
    requires multiset(us) == multiset(vs)
    ensures forall u :: u in us <==> u in vs
  {
    forall u ensures u in us <==> u in vs {
      assert u in us <==> u in multiset(us);
      assert u in vs <==> u in multiset(vs);
    }
  }

  /** Two units at different places of a list stay apart when the list is reordered. */
  lemma PermutedDistinct(us: seq<UnitInstance>, vs: seq<UnitInstance>)
    requires multiset(us) == multiset(vs)
    ensures DistinctSlots(us) ==> DistinctSlots(vs)
    ensures DistinctIds(us) ==> DistinctIds(vs)
  {
    forall i, j | 0 <= i < j < |vs|
      ensures DistinctSlots(us) ==> vs[i].pos != vs[j].pos
      ensures DistinctIds(us) ==> vs[i].id != vs[j].id
    {
      var k, m := TwoPlaces(us, vs, i, j);
    }
  }

  function Dropped<T>(s: seq<T>, k: nat): seq<T>
    requires k < |s|
  {
    s[..k] + s[k + 1..]
  }

  lemma DroppedIs<T>(s: seq<T>, k: nat)
    requires k < |s|
    ensures multiset(Dropped(s, k)) == multiset(s) - multiset{s[k]}
  {
    assert s == s[..k] + ([s[k]] + s[k + 1..]);
  }

  /** The place of the first element of a list in a permutation of it. */
  lemma Matching<T>(x: seq<T>, y: seq<T>) returns (k: nat)
    requires x != [] && multiset(x) == multiset(y)
    ensures k < |y| && y[k] == x[0] && multiset(x[1..]) == multiset(Dropped(y, k))
  {
    assert x[0] in multiset(y);
    k :| 0 <= k < |y| && y[k] == x[0];
    DroppedIs(y, k);
    DroppedIs(x, 0);
    assert Dropped(x, 0) == x[1..];
  }

  lemma PlaceOf<T>(s: seq<T>, x: T) returns (k: nat)
    requires x in multiset(s)
    ensures k < |s| && s[k] == x
  {
    k :| 0 <= k < |s| && s[k] == x;
  }

  lemma DroppedAt<T>(s: seq<T>, k: nat, n: nat)
    requires k < |s| && n < |s| - 1
    ensures Dropped(s, k)[n] == s[if n < k then n else n + 1]
  {
  }

  lemma TwoPlaces<T>(us: seq<T>, vs: seq<T>, i: nat, j: nat) returns (k: nat, m: nat)
    requires multiset(us) == multiset(vs) && i < j < |vs|
    ensures k < |us| && m < |us| && k != m && us[k] == vs[i] && us[m] == vs[j]
  {
    k := PlaceOf(us, vs[i]);
    DroppedIs(us, k);
    DroppedIs(vs, i);
    DroppedAt(vs, i, j - 1);
    assert Dropped(vs, i)[j - 1] in multiset(Dropped(vs, i));
    var n := PlaceOf(Dropped(us, k), vs[j]);
    DroppedAt(us, k, n);
    m := if n < k then n else n + 1;
  }

  /** Entry by entry the same event, with the same snapshots in some order. */
  ghost predicate Relisted(log: seq<LogEntry>, other: seq<LogEntry>) {
    |other| == |log| && forall i | 0 <= i < |log| ::
      other[i].event == log[i].event && multiset(other[i].unitStates) == multiset(log[i].unitStates)
  }

  lemma {:induction false} ListingConcat(b: Board, x: seq<Pos>, y: seq<Pos>)
    ensures Listing(b, x + y) == Listing(b, x) + Listing(b, y)
    decreases |x|
  {
    if x == [] {
      assert x + y == y;
    } else {
      assert (x + y)[1..] == x[1..] + y;
      ListingConcat(b, x[1..], y);
    }
  }

  lemma {:induction false} ListingPermuted(b: Board, x: seq<Pos>, y: seq<Pos>)
    requires multiset(x) == multiset(y)
    ensures multiset(Listing(b, x)) == multiset(Listing(b, y))
    decreases |x|
  {
    if x == [] {
      assert |multiset(y)| == |y|;
    } else {
      var k := Matching(x, y);
      ListingPermuted(b, x[1..], Dropped(y, k));
      ListingAround(b, y, k);
    }
  }

  lemma ListingAround(b: Board, y: seq<Pos>, k: nat)
    requires k < |y|
    ensures multiset(Listing(b, y)) == multiset(Listing(b, [y[k]])) + multiset(Listing(b, Dropped(y, k)))
  {
    assert y == y[..k] + ([y[k]] + y[k + 1..]);
    ListingConcat(b, y[..k], [y[k]] + y[k + 1..]);
    ListingConcat(b, [y[k]], y[k + 1..]);
    ListingConcat(b, y[..k], y[k + 1..]);
  }

  lemma StampRelisted(events: seq<Event>, states: seq<UnitSnapshot>, others: seq<UnitSnapshot>)
    requires multiset(states) == multiset(others)
    ensures Relisted(Stamp(events, states), Stamp(events, others))
  {
  }

  lemma RelistedConcat(l1: seq<LogEntry>, l2: seq<LogEntry>, m1: seq<LogEntry>, m2: seq<LogEntry>)
    requires Relisted(l1, m1) && Relisted(l2, m2)
    ensures Relisted(l1 + l2, m1 + m2)
  {
  }

  lemma {:induction false} RenderRelisted(acts: seq<Act>, x: seq<Pos>, y: seq<Pos>)
    requires multiset(x) == multiset(y)
    ensures Relisted(Render(acts, x), Render(acts, y))
    decreases |acts|
  {
    if acts != [] {
      var a := acts[0];
      ListingPermuted(a.post, x, y);
      StampRelisted(a.events, Listing(a.post, x), Listing(a.post, y));
      RenderRelisted(acts[1..], x, y);
      RelistedConcat(
        Stamp(a.events, Listing(a.post, x)), Render(acts[1..], x),
        Stamp(a.events, Listing(a.post, y)), Render(acts[1..], y));
    }
  }

  lemma LayoutAround(us: seq<UnitInstance>, k: nat)
    requires k < |us|
    ensures multiset(LayoutOf(us)) == multiset{us[k].pos} + multiset(LayoutOf(Dropped(us, k)))
  {
    DroppedIs(LayoutOf(us), k);
    assert Dropped(LayoutOf(us), k) == LayoutOf(Dropped(us, k));
    assert LayoutOf(us)[k] in multiset(LayoutOf(us));
  }

  lemma {:induction false} LayoutPermuted(us: seq<UnitInstance>, vs: seq<UnitInstance>)
    requires multiset(us) == multiset(vs)
    ensures multiset(LayoutOf(us)) == multiset(LayoutOf(vs))
    decreases |us|
  {
    if us == [] {
      assert |multiset(vs)| == |vs|;
    } else {
      var k := Matching(us, vs);
      LayoutPermuted(us[1..], Dropped(vs, k));
      LayoutAround(vs, k);
      LayoutAround(us, 0);
      assert Dropped(us, 0) == us[1..];
    }
  }

  /**
   * The order of the arrays does not matter as long as each lists its 2-star tanks in the same
   * order: the log has the same events, and its snapshots list the same units.
   */
  lemma ReorderedLineUps(
    p1: seq<UnitInstance>, p2: seq<UnitInstance>, q1: seq<UnitInstance>, q2: seq<UnitInstance>, initSide: Side)
    requires Sound(p1, p2) && multiset(p1) == multiset(q1) && multiset(p2) == multiset(q2)
    requires Tank2s(p1) == Tank2s(q1) && Tank2s(p2) == Tank2s(q2)
    ensures Sound(q1, q2) && Relisted(LogOf(p1, p2, initSide), LogOf(q1, q2, initSide))
  {
    PermutedSound(p1, p2, q1, q2);
    var b, x, y := BoardOf(p1 + p2), LayoutOf(p1 + p2), LayoutOf(q1 + q2);
    LineUpTanks(p1, p2);
    LineUpTanks(q1, q2);
    OrderIrrelevant(b, x, y, initSide, 1);
    LayoutPermuted(p1 + p2, q1 + q2);
    RenderRelisted(Battle(b, x, initSide), x, y);
  }

  lemma LineUpTanks(p1: seq<UnitInstance>, p2: seq<UnitInstance>)
    requires Sound(p1, p2)
    ensures
      var b, layout := BoardOf(p1 + p2), LayoutOf(p1 + p2);
      Tanks(b, layout, P1) == LayoutOf(Tank2s(p1)) && Tanks(b, layout, P2) == LayoutOf(Tank2s(p2))
  {
    LineUpsHold(p1, p2);
    StandParts(BoardOf(p1 + p2), p1, p2);
    PartTanks(BoardOf(p1 + p2), p1, p2);
  }

  /** With at most one 2-star tank in each array, any order of the arrays gives the same events. */
  lemma PermutedLineUps(
    p1: seq<UnitInstance>, p2: seq<UnitInstance>, q1: seq<UnitInstance>, q2: seq<UnitInstance>, initSide: Side)
    requires Sound(p1, p2) && multiset(p1) == multiset(q1) && multiset(p2) == multiset(q2)
    requires |Tank2s(p1)| <= 1 && |Tank2s(p2)| <= 1
    ensures Sound(q1, q2) && Relisted(LogOf(p1, p2, initSide), LogOf(q1, q2, initSide))
  {
    PermutedSound(p1, p2, q1, q2);
    var b, x, y := BoardOf(p1 + p2), LayoutOf(p1 + p2), LayoutOf(q1 + q2);
    LineUpTanks(p1, p2);
    LayoutPermuted(p1 + p2, q1 + q2);
    PermutationIrrelevant(b, x, y, initSide);
    RenderRelisted(Battle(b, x, initSide), x, y);
  }

  // ---- the line-ups swapped ----

  /** The units of a player, seated on the other side. */
  function Swap(us: seq<UnitInstance>): (r: seq<UnitInstance>)
    ensures |r| == |us| && forall i | 0 <= i < |us| :: r[i] == us[i].(pos := Flip(us[i].pos))
  {
    seq(|us|, i requires 0 <= i < |us| => us[i].(pos := Flip(us[i].pos)))
  }

  lemma FlipTwice(p: Pos)
    ensures Flip(Flip(p)) == p
  {
  }

  lemma SwapOn(us: seq<UnitInstance>, side: Side)
    requires AllOn(us, side) && DistinctSlots(us)
    ensures AllOn(Swap(us), side.Other()) && DistinctSlots(Swap(us)) && LayoutOf(Swap(us)) == FlipAll(LayoutOf(us))
  {
    var vs := Swap(us);
    forall v <- vs ensures v.pos.side == side.Other() {
      var i :| 0 <= i < |vs| && vs[i] == v;
      assert us[i] in us;
    }
    forall i, j | 0 <= i < j < |vs| ensures vs[i].pos != vs[j].pos {
      FlipTwice(us[i].pos);
      FlipTwice(us[j].pos);
    }
  }

  lemma SwapSound(p1: seq<UnitInstance>, p2: seq<UnitInstance>)
    requires Sound(p1, p2)
    ensures Sound(Swap(p2), Swap(p1))
  {
    SwapOn(p1, P1);
    SwapOn(p2, P2);
    var us, vs := p1 + p2, Swap(p2) + Swap(p1);
    forall i, j | 0 <= i < j < |vs| ensures vs[i].id != vs[j].id {
      var k := if i < |p2| then |p1| + i else i - |p2|;
      var m := if j < |p2| then |p1| + j else j - |p2|;
      assert us[k].id == vs[i].id && us[m].id == vs[j].id && k != m;
    }
  }

  lemma CloneSwapped(u: UnitInstance)
    ensures CloneOf(u.(pos := Flip(u.pos))) == MirrorUnit(CloneOf(u))
  {
  }

  lemma MirrorHolds(b: Board, us: seq<UnitInstance>)
    requires Holds(b, us)
    ensures Holds(Mirror(b), Swap(us))
  {
    var c, vs := Mirror(b), Swap(us);
    forall i | 0 <= i < |vs| ensures vs[i].pos in c && c[vs[i].pos] == CloneOf(vs[i]) {
      MirrorAt(b, us[i].pos);
      CloneSwapped(us[i]);
    }
    forall p <- c ensures exists i :: 0 <= i < |vs| && vs[i].pos == p {
      FlipTwice(p);
      MirrorAt(b, Flip(p));
      var i :| 0 <= i < |us| && us[i].pos == Flip(p);
      assert vs[i].pos == p;
    }
  }

  lemma HoldsExchanged(b: Board, x: seq<UnitInstance>, y: seq<UnitInstance>)
    requires Holds(b, x + y)
    ensures Holds(b, y + x)
  {
    forall i | 0 <= i < |y + x| ensures (y + x)[i].pos in b && b[(y + x)[i].pos] == CloneOf((y + x)[i]) {
      var k := if i < |y| then |x| + i else i - |y|;
      assert (x + y)[k] == (y + x)[i];
    }
    forall p <- b ensures exists i :: 0 <= i < |y + x| && (y + x)[i].pos == p {
      var k :| 0 <= k < |x + y| && (x + y)[k].pos == p;
      var i := if k < |x| then |y| + k else k - |x|;
      assert (y + x)[i].pos == p;
    }
  }

  lemma SwapConcat(x: seq<UnitInstance>, y: seq<UnitInstance>)
    ensures Swap(x + y) == Swap(x) + Swap(y)
  {
  }

  /** The board of the swapped line-ups is the mirror image of the board. */
  lemma SwappedBoard(p1: seq<UnitInstance>, p2: seq<UnitInstance>)
    requires Sound(p1, p2)
    ensures BoardOf(Swap(p2) + Swap(p1)) == Mirror(BoardOf(p1 + p2))
  {
    LineUpsHold(p1, p2);
    MirrorHolds(BoardOf(p1 + p2), p1 + p2);
    SwapConcat(p1, p2);
    HoldsExchanged(Mirror(BoardOf(p1 + p2)), Swap(p1), Swap(p2));
    SwapSound(p1, p2);
    LineUpsHold(Swap(p2), Swap(p1));
    var us := Swap(p2) + Swap(p1);
    SameMembersSameBoard(BoardOf(us), Mirror(BoardOf(p1 + p2)), us, us);
  }

  lemma ExchangedTanks(b: Board, x: seq<Pos>, y: seq<Pos>)
    requires SquaresOn(x, P2) && SquaresOn(y, P1)
    ensures SameTanks(b, x + y, y + x)
  {
    NoTanksThere(b, x, P2);
    NoTanksThere(b, y, P1);
    TanksConcat(b, x, y, P1);
    TanksConcat(b, x, y, P2);
    TanksConcat(b, y, x, P1);
    TanksConcat(b, y, x, P2);
  }

  lemma FlipConcat(x: seq<Pos>, y: seq<Pos>)
    ensures FlipAll(x + y) == FlipAll(x) + FlipAll(y)
  {
  }

  lemma FlipOn(x: seq<Pos>, side: Side)
    requires SquaresOn(x, side)
    ensures SquaresOn(FlipAll(x), side.Other())
  {
  }

  /** Mirrored boards fight the mirrored battle, with either side's squares listed first. */
  lemma SidesExchanged(b: Board, x: seq<Pos>, y: seq<Pos>, initSide: Side)
    requires SquaresOn(x, P1) && SquaresOn(y, P2)
    ensures Battle(Mirror(b), FlipAll(y) + FlipAll(x), initSide.Other()) == MirrorActs(Battle(b, x + y, initSide))
  {
    FlipOn(x, P1);
    FlipOn(y, P2);
    FlipConcat(x, y);
    ExchangedTanks(Mirror(b), FlipAll(x), FlipAll(y));
    OrderIrrelevant(Mirror(b), FlipAll(x + y), FlipAll(y) + FlipAll(x), initSide.Other(), 1);
    BattleMirrors(b, x + y, initSide, 1);
  }

  lemma SwappedLayout(p1: seq<UnitInstance>, p2: seq<UnitInstance>)
    requires Sound(p1, p2)
    ensures LayoutOf(Swap(p2) + Swap(p1)) == FlipAll(LayoutOf(p2)) + FlipAll(LayoutOf(p1))
  {
    SwapOn(p1, P1);
    SwapOn(p2, P2);
    LayoutConcat(Swap(p2), Swap(p1));
  }

  /** Swapping the line-ups, with the coin, swaps the sides of every act of the battle. */
  lemma SwappedActs(p1: seq<UnitInstance>, p2: seq<UnitInstance>, initSide: Side)
    requires Sound(p1, p2)
    ensures Battle(BoardOf(Swap(p2) + Swap(p1)), LayoutOf(Swap(p2) + Swap(p1)), initSide.Other())
         == MirrorActs(Battle(BoardOf(p1 + p2), LayoutOf(p1 + p2), initSide))
  {
    SwappedBoard(p1, p2);
    SwappedLayout(p1, p2);
    LayoutConcat(p1, p2);
    LayoutOn(p1, P1);
    LayoutOn(p2, P2);
    SidesExchanged(BoardOf(p1 + p2), LayoutOf(p1), LayoutOf(p2), initSide);
  }

  // ---- the swapped log ----

  function MirrorSnapshots(states: seq<UnitSnapshot>): (r: seq<UnitSnapshot>)
    ensures |r| == |states| && forall i | 0 <= i < |r| :: r[i] == states[i].(pos := Flip(states[i].pos))
  {
    seq(|states|, i requires 0 <= i < |states| => states[i].(pos := Flip(states[i].pos)))
  }

  /** The snapshots of a mirrored board whose other half is listed first. */
  function Turned(states: seq<UnitSnapshot>, n: nat): seq<UnitSnapshot>
    requires n <= |states|
  {
    MirrorSnapshots(states[n..] + states[..n])
  }

  /**
   * Entry by entry the mirrored event, and the mirrored snapshots with those of the first n
   * units moved to the end.
   */
  ghost predicate Mirrored(log: seq<LogEntry>, swapped: seq<LogEntry>, n: nat) {
    |swapped| == |log| && forall i | 0 <= i < |log| ::
      && n <= |log[i].unitStates| && swapped[i].event == MirrorEvent(log[i].event)
      && swapped[i].unitStates == Turned(log[i].unitStates, n)
  }

  ghost predicate Seated(acts: seq<Act>, squares: seq<Pos>) {
    forall a <- acts, p <- squares :: p in a.post
  }

  lemma {:induction false} ListingSize(b: Board, layout: seq<Pos>)
    requires forall p <- layout :: p in b
    ensures |Listing(b, layout)| == |layout|
    decreases |layout|
  {
    if layout != [] {
      ListingSize(b, layout[1..]);
    }
  }

  lemma {:induction false} ListingMirrored(b: Board, layout: seq<Pos>)
    ensures Listing(Mirror(b), FlipAll(layout)) == MirrorSnapshots(Listing(b, layout))
    decreases |layout|
  {
    if layout != [] {
      MirrorAt(b, layout[0]);
      assert FlipAll(layout)[1..] == FlipAll(layout[1..]);
      ListingMirrored(b, layout[1..]);
    }
  }

  lemma TurnedConcat(s: seq<UnitSnapshot>, t: seq<UnitSnapshot>)
    ensures Turned(s + t, |s|) == MirrorSnapshots(t) + MirrorSnapshots(s)
  {
    assert (s + t)[|s|..] == t && (s + t)[..|s|] == s;
  }

  lemma ListingTurned(b: Board, x: seq<Pos>, y: seq<Pos>)
    requires forall p <- x :: p in b
    ensures |x| <= |Listing(b, x + y)|
    ensures Listing(Mirror(b), FlipAll(y) + FlipAll(x)) == Turned(Listing(b, x + y), |x|)
  {
    ListingConcat(b, x, y);
    ListingSize(b, x);
    ListingConcat(Mirror(b), FlipAll(y), FlipAll(x));
    ListingMirrored(b, x);
    ListingMirrored(b, y);
    TurnedConcat(Listing(b, x), Listing(b, y));
  }

  lemma StampMirrored(events: seq<Event>, states: seq<UnitSnapshot>, n: nat)
    requires n <= |states|
    ensures Mirrored(Stamp(events, states), Stamp(MirrorEvents(events), Turned(states, n)), n)
  {
  }

  lemma MirroredConcat(l1: seq<LogEntry>, l2: seq<LogEntry>, m1: seq<LogEntry>, m2: seq<LogEntry>, n: nat)
    requires Mirrored(l1, m1, n) && Mirrored(l2, m2, n)
    ensures Mirrored(l1 + l2, m1 + m2, n)
  {
  }

  lemma {:induction false} RenderMirrored(acts: seq<Act>, x: seq<Pos>, y: seq<Pos>)
    requires Seated(acts, x)
    ensures Mirrored(Render(acts, x + y), Render(MirrorActs(acts), FlipAll(y) + FlipAll(x)), |x|)
    decreases |acts|
  {
    if acts != [] {
      var rest := acts[1..];
      assert acts == [acts[0]] + rest;
      MirrorActsConcat([acts[0]], rest);
      MirrorActsOne(acts[0]);
      assert MirrorActs(acts)[1..] == MirrorActs(rest);
      ListingTurned(acts[0].post, x, y);
      StampMirrored(acts[0].events, Listing(acts[0].post, x + y), |x|);
      RenderMirrored(rest, x, y);
      MirroredConcat(
        Stamp(acts[0].events, Listing(acts[0].post, x + y)), Render(rest, x + y),
        Stamp(MirrorEvents(acts[0].events), Turned(Listing(acts[0].post, x + y), |x|)),
        Render(MirrorActs(rest), FlipAll(y) + FlipAll(x)), |x|);
    }
  }

  lemma BattleSeated(b: Board, layout: seq<Pos>, initSide: Side, squares: seq<Pos>)
    requires forall p <- squares :: p in b
    ensures Seated(Battle(b, layout, initSide), squares)
  {
    var acts := Battle(b, layout, initSide);
    BattleRuns(b, LegalBy(layout), layout, initSide, 1);
    forall a <- acts, p <- squares ensures p in a.post {
      var k :| 0 <= k < |acts| && acts[k] == a;
      RunSplit(b, LegalBy(layout), acts, k);
      RunPrefix(b, LegalBy(layout), acts, k + 1);
      RunKeepsUnits(b, layout, acts[..k + 1]);
    }
  }

  /**
   * The game is side-symmetric: swapping the two line-ups together with the coin gives the same
   * log with sides, squares and winner swapped.
   */
  lemma SwappedLineUps(p1: seq<UnitInstance>, p2: seq<UnitInstance>, initSide: Side)
    requires Sound(p1, p2)
    ensures Sound(Swap(p2), Swap(p1))
    ensures Mirrored(LogOf(p1, p2, initSide), LogOf(Swap(p2), Swap(p1), initSide.Other()), |p1|)
  {
    SwapSound(p1, p2);
    SwappedActs(p1, p2, initSide);
    SwappedLayout(p1, p2);
    LayoutConcat(p1, p2);
    SeatedFirst(p1, p2, initSide);
    RenderMirrored(Battle(BoardOf(p1 + p2), LayoutOf(p1) + LayoutOf(p2), initSide), LayoutOf(p1), LayoutOf(p2));
  }

  lemma SeatedFirst(p1: seq<UnitInstance>, p2: seq<UnitInstance>, initSide: Side)
    requires Sound(p1, p2)
    ensures Seated(Battle(BoardOf(p1 + p2), LayoutOf(p1 + p2), initSide), LayoutOf(p1))
  {
    LineUpsHold(p1, p2);
    StandParts(BoardOf(p1 + p2), p1, p2);
    BattleSeated(BoardOf(p1 + p2), LayoutOf(p1 + p2), initSide, LayoutOf(p1));
  }
}
