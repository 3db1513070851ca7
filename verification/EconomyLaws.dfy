/** What every roster action keeps: wealth, units, fair prices, and exactly when it is refused. */
module EconomyLaws {
  import opened GameTypes
  import opened Economy

  // ---- the actions of one player ----

  datatype Move =
    | BuyMove(index: int, id: InstanceId)
    | SellMove(spot: Spot)
    | RefreshMove
    | FuseMove(unitId: UnitId, sourceId: Option<InstanceId>, targetId: Option<InstanceId>)
    | PlaceMove(unit: InstanceId, dest: Spot)

  function Apply(h: Hand, m: Move, deal: nat -> seq<Option<Offer>>): Result<Hand> {
    match m
    case BuyMove(index, id) => Buy(h, index, id)
    case SellMove(spot) => Sell(h, spot)
    case RefreshMove => Refresh(h, deal)
    case FuseMove(unitId, sourceId, targetId) => Fuse(h, unitId, sourceId, targetId)
    case PlaceMove(unit, dest) => Place(h, unit, dest)
  }

  // ---- wealth ----

  function Worth(u: Option<RosterUnit>): nat {
    if u.None? then 0 else InvestedGold(u.value)
  }

  function Total(slots: Slots): nat {
    if slots == [] then 0 else Worth(slots[0]) + Total(slots[1..])
  }

  function Wealth(s: Player): int {
    s.gold + Total(s.board) + Total(s.bench)
  }

  /** No two places hold units of the same instance. */
  ghost predicate IdsUnique(s: Player) {
    forall p, q | s.Has(p) && s.Has(q) && s.At(p).Some? && s.At(q).Some? ::
      s.At(p).value.id == s.At(q).value.id ==> p == q
  }

  lemma {:induction false} TotalUpdate(slots: Slots, k: nat, u: Option<RosterUnit>)
    requires k < |slots|
    ensures Total(slots[k := u]) == Total(slots) - Worth(slots[k]) + Worth(u)
    decreases k
  {
    var now := slots[k := u];
    if k == 0 {
      assert now[1..] == slots[1..];
    } else {
      TotalUpdate(slots[1..], k - 1, u);
      assert now[1..] == slots[1..][k - 1 := u];
    }
  }

  lemma PutWealth(s: Player, p: Spot, u: Option<RosterUnit>)
    requires s.Has(p)
    ensures Wealth(s.Put(p, u)) == Wealth(s) - Worth(s.At(p)) + Worth(u)
  {
    TotalUpdate(s.Row(p.source), p.slot, u);
  }

  lemma MergeWealth(s: Player, target: Entry, source: Entry)
    requires target.spot != source.spot && target.unit.star < 2
    requires s.Has(target.spot) && s.At(target.spot) == Some(target.unit)
    requires s.Has(source.spot) && s.At(source.spot) == Some(source.unit)
    ensures Wealth(MergeInto(s, target, source)) == Wealth(s)
  {
    var merged := Some(Merged(target.unit, source.unit));
    PutWealth(s, target.spot, merged);
    PutWealth(s.Put(target.spot, merged), source.spot, None);
  }

  lemma PlaceKeepsWealth(h: Hand, id: InstanceId, dest: Spot)
    requires IdsUnique(h.player)
    ensures
      var r := Place(h, id, dest);
      r.Ok? ==> Wealth(r.value.player) == Wealth(h.player)
  {
    var s := h.player;
    EntriesListed(s);
    var e := FindUnit(RosterEntries(s), id);
    if Place(h, id, dest).Ok? && e.value.spot != dest {
      assert s.At(dest).None?;
      PutWealth(s, e.value.spot, None);
      PutWealth(s.Put(e.value.spot, None), dest, Some(e.value.unit));
    }
  }

  /** The gold of a player and the gold invested in her units only change hands. */
  lemma ActionKeepsWealth(h: Hand, m: Move, deal: nat -> seq<Option<Offer>>)
    requires IdsUnique(h.player)
    ensures
      var r := Apply(h, m, deal);
      r.Ok? ==> Wealth(r.value.player) == Wealth(h.player)
  {
    var r := Apply(h, m, deal);
    if r.Ok? {
      var s := h.player;
      match m
      case BuyMove(index, id) =>
        var unitId := h.shop.offers[index].value.unitId;
        var slot := FirstFree(s.bench).value;
        PutWealth(s.(gold := s.gold - UnitCost(unitId)), Spot(OnBench, slot), Some(NewUnit(unitId, id)));
      case SellMove(spot) => PutWealth(s, spot, None);
      case RefreshMove =>
      case FuseMove(unitId, sourceId, targetId) =>
        EntriesListed(s);
        var pair := FusedPair(h, unitId, sourceId, targetId);
        MergeWealth(s, pair.0, pair.1);
      case PlaceMove(id, dest) => PlaceKeepsWealth(h, id, dest);
    }
  }

  /** Target and source of a successful fuse. */
  lemma FusedPair(h: Hand, unitId: UnitId, sourceId: Option<InstanceId>, targetId: Option<InstanceId>)
    returns (pair: (Entry, Entry))
    requires Fuse(h, unitId, sourceId, targetId).Ok?
    ensures pair.0 in RosterEntries(h.player) && pair.1 in RosterEntries(h.player)
    ensures pair.0.spot != pair.1.spot && Fusible(pair.0.unit, pair.1.unit, unitId)
    ensures pair.0.unit.star < 2 && h.player.Has(pair.0.spot) && h.player.Has(pair.1.spot)
    ensures Fuse(h, unitId, sourceId, targetId).value == h.(player := MergeInto(h.player, pair.0, pair.1))
  {
    var entries := RosterEntries(h.player);
    EntriesListed(h.player);
    if sourceId.Some? {
      pair := (FindUnit(entries, targetId.value).value, FindUnit(entries, sourceId.value).value);
    } else {
      var first := FirstWithTwin(Candidates(entries, unitId)).value;
      pair := (first, TwinOf(Candidates(entries, unitId), first).value);
    }
  }

  // ---- the units of a roster ----

  function One(u: Option<RosterUnit>): multiset<RosterUnit> {
    if u.None? then multiset{} else multiset{u.value}
  }

  function Bag(slots: Slots): multiset<RosterUnit> {
    if slots == [] then multiset{} else One(slots[0]) + Bag(slots[1..])
  }

  function Units(s: Player): multiset<RosterUnit> { Bag(s.board) + Bag(s.bench) }

  lemma Swap(a: multiset<RosterUnit>, b: multiset<RosterUnit>, rest: multiset<RosterUnit>)
    ensures (a + rest) + b == (b + rest) + a
  {
  }

  lemma Beside(o: multiset<RosterUnit>, x: multiset<RosterUnit>, y: multiset<RosterUnit>,
               b: multiset<RosterUnit>, c: multiset<RosterUnit>)
    requires x + b == y + c
    ensures (o + x) + b == (o + y) + c && (x + o) + b == (y + o) + c
  {
    assert (o + x) + b == o + (x + b) && (o + y) + c == o + (y + c);
    assert x + o == o + x && y + o == o + y;
  }

  lemma {:induction false} BagUpdate(slots: Slots, k: nat, u: Option<RosterUnit>)
    requires k < |slots|
    ensures Bag(slots[k := u]) + One(slots[k]) == Bag(slots) + One(u)
    decreases k
  {
    var now, rest := slots[k := u], slots[1..];
    if k == 0 {
      assert now[1..] == rest;
      Swap(One(u), One(slots[0]), Bag(rest));
    } else {
      BagUpdate(rest, k - 1, u);
      assert now[1..] == rest[k - 1 := u];
      Beside(One(slots[0]), Bag(rest[k - 1 := u]), Bag(rest), One(slots[k]), One(u));
    }
  }

  lemma PutUnits(s: Player, p: Spot, u: Option<RosterUnit>)
    requires s.Has(p)
    ensures Units(s.Put(p, u)) + One(s.At(p)) == Units(s) + One(u)
  {
    var slots := s.Row(p.source);
    BagUpdate(slots, p.slot, u);
    var other := if p.source.OnBoard? then Bag(s.bench) else Bag(s.board);
    Beside(other, Bag(slots[p.slot := u]), Bag(slots), One(s.At(p)), One(u));
  }

  /** A purchase adds one new unit, of the offered kind and without a star. */
  lemma BuyUnits(h: Hand, index: int, id: InstanceId)
    ensures
      var r := Buy(h, index, id);
      r.Ok? ==>
        var unitId := h.shop.offers[index].value.unitId;
        Units(r.value.player) == Units(h.player) + multiset{NewUnit(unitId, id)}
  {
    if Buy(h, index, id).Ok? {
      var unitId := h.shop.offers[index].value.unitId;
      var slot := FirstFree(h.player.bench).value;
      PutUnits(h.player.(gold := h.player.gold - UnitCost(unitId)), Spot(OnBench, slot), Some(NewUnit(unitId, id)));
    }
  }

  /** A sale takes exactly the unit on the spot. */
  lemma SellUnits(h: Hand, p: Spot)
    ensures
      var r := Sell(h, p);
      r.Ok? ==> Units(r.value.player) + One(h.player.At(p)) == Units(h.player)
  {
    if Sell(h, p).Ok? {
      PutUnits(h.player, p, None);
    }
  }

  /** Moving a unit neither changes, loses nor doubles any. */
  lemma PlaceUnits(h: Hand, id: InstanceId, dest: Spot)
    requires IdsUnique(h.player)
    ensures
      var r := Place(h, id, dest);
      r.Ok? ==> Units(r.value.player) == Units(h.player)
  {
    EntriesListed(h.player);
    var e := FindUnit(RosterEntries(h.player), id);
    if Place(h, id, dest).Ok? && e.value.spot != dest {
      PlacedOnFree(h, e.value, dest);
    }
  }

  lemma PlacedOnFree(h: Hand, e: Entry, dest: Spot)
    requires e in RosterEntries(h.player) && h.player.Has(dest) && e.spot != dest
    requires h.player.Has(e.spot) && h.player.At(e.spot) == Some(e.unit)
    ensures Units(h.player.Put(e.spot, None).Put(dest, Some(e.unit))) + One(h.player.At(dest)) == Units(h.player)
  {
    PutUnits(h.player, e.spot, None);
    PutUnits(h.player.Put(e.spot, None), dest, Some(e.unit));
  }

  /** A fuse turns two equal units of a kind into one of the next star. */
  lemma FuseUnits(h: Hand, unitId: UnitId, sourceId: Option<InstanceId>, targetId: Option<InstanceId>)
    returns (pair: (Entry, Entry))
    requires Fuse(h, unitId, sourceId, targetId).Ok?
    ensures Fusible(pair.0.unit, pair.1.unit, unitId) && pair.0.spot != pair.1.spot
    ensures Units(Fuse(h, unitId, sourceId, targetId).value.player) + multiset{pair.0.unit, pair.1.unit}
         == Units(h.player) + multiset{Merged(pair.0.unit, pair.1.unit)}
  {
    pair := FusedPair(h, unitId, sourceId, targetId);
    EntriesListed(h.player);
    var s, u, v := h.player, pair.0.unit, pair.1.unit;
    var merged := Some(Merged(u, v));
    PutUnits(s, pair.0.spot, merged);
    PutUnits(s.Put(pair.0.spot, merged), pair.1.spot, None);
    TwoSteps(Units(s), Units(s.Put(pair.0.spot, merged)), Units(MergeInto(s, pair.0, pair.1)), u, v, merged.value);
  }

  lemma TwoSteps(a: multiset<RosterUnit>, b: multiset<RosterUnit>, c: multiset<RosterUnit>, u: RosterUnit, v: RosterUnit, w: RosterUnit)
    requires b + multiset{u} == a + multiset{w} && c + multiset{v} == b
    ensures c + multiset{u, v} == a + multiset{w}
  {
    assert c + multiset{u, v} == (c + multiset{v}) + multiset{u};
  }

  // ---- sound rosters ----

  /** The stored price of a unit is its fair one: cost * 2^star. */
  ghost predicate Fair(u: RosterUnit) {
    InvestedGold(u) == FairPrice(u)
  }

  ghost predicate Sound(s: Player) {
    && s.gold >= 0 && |s.board| == 9 && |s.bench| == 8 && IdsUnique(s)
    && forall p | s.Has(p) && s.At(p).Some? :: Fair(s.At(p).value)
  }

  lemma MergedIsFair(u: RosterUnit, v: RosterUnit, unitId: UnitId)
    requires Fair(u) && Fair(v) && Fusible(u, v, unitId)
    ensures Fair(Merged(u, v))
  {
    assert Pow2(u.star + 1) == Pow2(u.star) + Pow2(v.star);
    Distribute(UnitCost(unitId), Pow2(u.star), Pow2(v.star));
  }

  lemma Distribute(c: int, x: int, y: int)
    ensures c * (x + y) == c * x + c * y
  {
  }

  /** A purchase is given an instance id that no unit of the roster has. */
  ghost predicate FreshId(s: Player, m: Move) {
    m.BuyMove? ==> forall p | s.Has(p) && s.At(p).Some? :: s.At(p).value.id != m.id
  }

  lemma PutSound(s: Player, p: Spot, u: Option<RosterUnit>)
    requires Sound(s) && s.Has(p)
    requires u.Some? ==> Fair(u.value)
    requires u.Some? ==> forall q | s.Has(q) && s.At(q).Some? && s.At(q).value.id == u.value.id :: q == p
    ensures Sound(s.Put(p, u))
  {
    var r := s.Put(p, u);
    assert forall q :: r.Has(q) <==> s.Has(q);
  }

  lemma GoldSound(s: Player, gold: int)
    requires Sound(s) && gold >= 0
    ensures Sound(s.(gold := gold))
  {
    var r := s.(gold := gold);
    assert forall q :: (r.Has(q) <==> s.Has(q)) && (s.Has(q) ==> r.At(q) == s.At(q));
  }

  lemma FuseSound(s: Player, target: Entry, source: Entry, unitId: UnitId)
    requires Sound(s) && target.spot != source.spot && Fusible(target.unit, source.unit, unitId)
    requires s.Has(target.spot) && s.At(target.spot) == Some(target.unit)
    requires s.Has(source.spot) && s.At(source.spot) == Some(source.unit)
    ensures Sound(MergeInto(s, target, source))
  {
    MergedIsFair(target.unit, source.unit, unitId);
    var merged := Some(Merged(target.unit, source.unit));
    PutSound(s, target.spot, merged);
    PutSound(s.Put(target.spot, merged), source.spot, None);
  }

  lemma PlaceSound(s: Player, e: Entry, dest: Spot)
    requires Sound(s) && s.Has(dest) && s.Has(e.spot) && s.At(e.spot) == Some(e.unit)
    ensures Sound(s.Put(e.spot, None).Put(dest, Some(e.unit)))
  {
    PutSound(s, e.spot, None);
    PutSound(s.Put(e.spot, None), dest, Some(e.unit));
  }

  /** Every action keeps a roster sound: no debts, fair prices, no instance twice. */
  lemma ActionKeepsSound(h: Hand, m: Move, deal: nat -> seq<Option<Offer>>)
    requires Sound(h.player) && FreshId(h.player, m)
    ensures
      var r := Apply(h, m, deal);
      r.Ok? ==> Sound(r.value.player)
  {
    if Apply(h, m, deal).Ok? {
      var s := h.player;
      match m
      case BuyMove(index, id) =>
        var unitId := h.shop.offers[index].value.unitId;
        PutSound(s, Spot(OnBench, FirstFree(s.bench).value), Some(NewUnit(unitId, id)));
        GoldSound(s.Put(Spot(OnBench, FirstFree(s.bench).value), Some(NewUnit(unitId, id))), s.gold - UnitCost(unitId));
      case SellMove(spot) =>
        PutSound(s, spot, None);
        GoldSound(s.Put(spot, None), s.gold + InvestedGold(s.At(spot).value));
      case RefreshMove =>
      case FuseMove(unitId, sourceId, targetId) =>
        var pair := FusedPair(h, unitId, sourceId, targetId);
        EntriesListed(s);
        FuseSound(s, pair.0, pair.1, unitId);
      case PlaceMove(id, dest) =>
        EntriesListed(s);
        PlaceSound(s, FindUnit(RosterEntries(s), id).value, dest);
    }
  }

  // ---- when an action is refused ----

  lemma BuyIff(h: Hand, index: int, id: InstanceId)
    ensures Buy(h, index, id).Ok? <==>
      && 0 <= index < |h.shop.offers| && h.shop.offers[index].Some?
      && h.player.gold >= UnitCost(h.shop.offers[index].value.unitId)
      && exists i :: 0 <= i < |h.player.bench| && h.player.bench[i].None?
  {
    var free := FirstFree(h.player.bench);
  }

  /** Selling what has just been bought undoes the purchase, but for the offer that is gone. */
  lemma SellUndoesBuy(h: Hand, index: int, id: InstanceId)
    requires Buy(h, index, id).Ok?
    ensures
      var h1 := Buy(h, index, id).value;
      Sell(h1, Spot(OnBench, FirstFree(h.player.bench).value)) == Ok(h1.(player := h.player))
  {
    var h1 := Buy(h, index, id).value;
    var slot := FirstFree(h.player.bench).value;
    assert h1.player.bench[slot := None] == h.player.bench;
  }

  /** A unit that no other place holds is found where it is. */
  lemma FoundThere(s: Player, p: Spot, id: InstanceId)
    requires s.Has(p) && s.At(p).Some? && s.At(p).value.id == id
    requires forall q | s.Has(q) && s.At(q).Some? && s.At(q).value.id == id :: q == p
    ensures FindUnit(RosterEntries(s), id) == Some(Entry(p, s.At(p).value))
  {
    EntriesListed(s);
    assert Entry(p, s.At(p).value) in RosterEntries(s);
  }

  /** Moving the only unit of an instance to a free place. */
  lemma PlaceOnFree(h: Hand, home: Spot, u: RosterUnit, dest: Spot)
    requires h.player.Has(home) && h.player.At(home) == Some(u)
    requires forall q | h.player.Has(q) && h.player.At(q).Some? && h.player.At(q).value.id == u.id :: q == home
    requires h.player.Has(dest) && h.player.At(dest).None?
    ensures Place(h, u.id, dest) == Ok(h.(player := h.player.Put(home, None).Put(dest, Some(u))))
  {
    FoundThere(h.player, home, u.id);
  }

  /** Moving a unit and moving it back changes nothing. */
  lemma PlaceUndoesPlace(h: Hand, id: InstanceId, dest: Spot)
    requires IdsUnique(h.player) && Place(h, id, dest).Ok?
    ensures
      var home := FindUnit(RosterEntries(h.player), id).value.spot;
      Place(Place(h, id, dest).value, id, home) == Ok(h)
  {
    var s := h.player;
    var e := FindUnit(RosterEntries(s), id).value;
    EntriesListed(s);
    if e.spot != dest {
      MoveBack(s, e.spot, e.unit, dest);
      PlaceOnFree(h.(player := s.Put(e.spot, None).Put(dest, Some(e.unit))), dest, e.unit, e.spot);
    }
  }

  lemma MoveBack(s: Player, home: Spot, u: RosterUnit, dest: Spot)
    requires IdsUnique(s) && s.Has(home) && s.At(home) == Some(u) && s.Has(dest) && s.At(dest).None?
    ensures
      var s1 := s.Put(home, None).Put(dest, Some(u));
      && s1.Has(home) && s1.Has(dest) && s1.At(dest) == Some(u) && s1.At(home).None?
      && (forall q | s1.Has(q) && s1.At(q).Some? && s1.At(q).value.id == u.id :: q == dest)
      && s1.Put(dest, None).Put(home, Some(u)) == s
  {
    var s1 := s.Put(home, None).Put(dest, Some(u));
    SameSlots(s, s1.Put(dest, None).Put(home, Some(u)));
    assert forall q :: s1.Has(q) <==> s.Has(q);
  }

  lemma SameSlots(s: Player, t: Player)
    requires s.gold == t.gold && |s.board| == |t.board| && |s.bench| == |t.bench|
    requires forall p | s.Has(p) :: s.At(p) == t.At(p)
    ensures s == t
  {
    forall i | 0 <= i < |s.board| ensures s.board[i] == t.board[i] {
      assert s.At(Spot(OnBoard, i)) == t.At(Spot(OnBoard, i));
    }
    forall i | 0 <= i < |s.bench| ensures s.bench[i] == t.bench[i] {
      assert s.At(Spot(OnBench, i)) == t.At(Spot(OnBench, i));
    }
  }

  ghost predicate Twins(s: Player, unitId: UnitId, p: Spot, q: Spot) {
    && s.Has(p) && s.Has(q) && p != q && s.At(p).Some? && s.At(q).Some?
    && Fusible(s.At(p).value, s.At(q).value, unitId)
  }

  lemma FoundIff(s: Player, id: InstanceId, p: Spot)
    requires IdsUnique(s)
    ensures s.Has(p) && s.At(p).Some? && s.At(p).value.id == id <==>
      FindUnit(RosterEntries(s), id).Some? && FindUnit(RosterEntries(s), id).value.spot == p
      && s.Has(p) && s.At(p) == Some(FindUnit(RosterEntries(s), id).value.unit)
  {
    EntriesListed(s);
    if s.Has(p) && s.At(p).Some? && s.At(p).value.id == id {
      FoundThere(s, p, id);
    }
  }

  ghost predicate NamedTwins(s: Player, unitId: UnitId, p: Spot, q: Spot, sourceId: InstanceId, targetId: InstanceId) {
    Twins(s, unitId, p, q) && s.At(p).value.id == sourceId && s.At(q).value.id == targetId
  }

  /** Two named units can be fused exactly when they are owned, of the kind and of one star below 2. */
  lemma FusePairIff(h: Hand, unitId: UnitId, sourceId: InstanceId, targetId: InstanceId)
    requires IdsUnique(h.player)
    ensures FusePair(h, unitId, sourceId, targetId).Ok? <==>
      exists p, q :: NamedTwins(h.player, unitId, p, q, sourceId, targetId)
  {
    var s := h.player;
    if FusePair(h, unitId, sourceId, targetId).Ok? {
      EntriesListed(s);
      var source, target := FindUnit(RosterEntries(s), sourceId), FindUnit(RosterEntries(s), targetId);
      assert NamedTwins(s, unitId, source.value.spot, target.value.spot, sourceId, targetId);
    }
    forall p, q | NamedTwins(s, unitId, p, q, sourceId, targetId) ensures FusePair(h, unitId, sourceId, targetId).Ok? {
      FoundIff(s, sourceId, p);
      FoundIff(s, targetId, q);
    }
  }

  // ---- the path that names no instances ----

  ghost predicate NoRepeats(entries: seq<Entry>) {
    forall i, j | 0 <= i < j < |entries| :: entries[i] != entries[j]
  }

  lemma {:induction false} RowEntriesApart(slots: Slots, source: Source, n: nat)
    requires n <= |slots|
    ensures NoRepeats(RowEntries(slots, source, n))
    decreases |slots| - n
  {
    if n < |slots| {
      RowEntriesApart(slots, source, n + 1);
      RowEntriesListed(slots, source, n + 1);
    }
  }

  lemma EntriesApart(s: Player)
    ensures NoRepeats(RosterEntries(s))
  {
    RowEntriesApart(s.board, OnBoard, 0);
    RowEntriesApart(s.bench, OnBench, 0);
    RowEntriesListed(s.board, OnBoard, 0);
    RowEntriesListed(s.bench, OnBench, 0);
    AppendApart(RowEntries(s.board, OnBoard, 0), RowEntries(s.bench, OnBench, 0));
  }

  lemma AppendApart(x: seq<Entry>, y: seq<Entry>)
    requires NoRepeats(x) && NoRepeats(y) && forall e :: !(e in x && e in y)
    ensures NoRepeats(x + y)
  {
    forall i, j | 0 <= i < j < |x + y| ensures (x + y)[i] != (x + y)[j] {
      assert i < |x| ==> x[i] in x;
      assert j >= |x| ==> y[j - |x|] in y;
    }
  }

  lemma {:induction false} OfStarApart(entries: seq<Entry>, unitId: UnitId, star: Star)
    requires NoRepeats(entries)
    ensures NoRepeats(OfStar(entries, unitId, star))
    decreases |entries|
  {
    if entries != [] {
      OfStarApart(entries[1..], unitId, star);
    }
  }

  lemma CandidatesApart(entries: seq<Entry>, unitId: UnitId)
    requires NoRepeats(entries)
    ensures NoRepeats(Candidates(entries, unitId))
  {
    OfStarApart(entries, unitId, 0);
    OfStarApart(entries, unitId, 1);
    AppendApart(OfStar(entries, unitId, 0), OfStar(entries, unitId, 1));
  }

  ghost predicate SameStar(c: seq<Entry>, i: int, j: int) {
    0 <= i < j < |c| && c[i].unit.star == c[j].unit.star
  }

  lemma {:induction false} FirstWithTwinIs(c: seq<Entry>)
    ensures FirstWithTwin(c).Some? <==> exists i, j :: SameStar(c, i, j)
    ensures FirstWithTwin(c).Some? ==> exists i, j :: SameStar(c, i, j) && c[i] == FirstWithTwin(c).value
    decreases |c|
  {
    if c != [] {
      FirstWithTwinIs(c[1..]);
      var twin := FirstOfStar(c[1..], c[0].unit.star);
      if twin.Some? {
        var j :| 0 <= j < |c[1..]| && c[1..][j] == twin.value;
        assert SameStar(c, 0, j + 1);
      } else {
        if FirstWithTwin(c[1..]).Some? {
          var i, j :| SameStar(c[1..], i, j) && c[1..][i] == FirstWithTwin(c[1..]).value;
          assert SameStar(c, i + 1, j + 1);
        }
        forall i, j | SameStar(c, i, j) ensures FirstWithTwin(c).Some? {
          assert c[j] == c[1..][j - 1];
          assert SameStar(c[1..], i - 1, j - 1);
        }
      }
    }
  }

  lemma TwinExists(c: seq<Entry>)
    requires NoRepeats(c) && FirstWithTwin(c).Some?
    ensures TwinOf(c, FirstWithTwin(c).value).Some?
  {
    FirstWithTwinIs(c);
    var i, j :| SameStar(c, i, j) && c[i] == FirstWithTwin(c).value;
    assert c[j] in c && c[j] != c[i];
  }

  lemma FirstWithTwinFuses(h: Hand, unitId: UnitId, c: seq<Entry>) returns (p: Spot, q: Spot)
    requires c == Candidates(RosterEntries(h.player), unitId) && NoRepeats(c)
    requires FirstWithTwin(c).Some?
    ensures FuseAny(h, unitId).Ok? && Twins(h.player, unitId, p, q)
  {
    TwinExists(c);
    var first := FirstWithTwin(c).value;
    var second := TwinOf(c, first).value;
    EntriesListed(h.player);
    assert first in RosterEntries(h.player) && second in RosterEntries(h.player);
    p, q := first.spot, second.spot;
  }

  lemma TwinsAreCandidates(h: Hand, unitId: UnitId, c: seq<Entry>, p: Spot, q: Spot)
    requires c == Candidates(RosterEntries(h.player), unitId) && Twins(h.player, unitId, p, q)
    ensures FirstWithTwin(c).Some?
  {
    EntriesListed(h.player);
    var e, f := Entry(p, h.player.At(p).value), Entry(q, h.player.At(q).value);
    assert e in c && f in c;
    var i :| 0 <= i < |c| && c[i] == e;
    var j :| 0 <= j < |c| && c[j] == f;
    assert SameStar(c, i, j) || SameStar(c, j, i);
    FirstWithTwinIs(c);
  }

  /** Without named instances a fuse succeeds exactly when the roster holds two equal units of the kind. */
  lemma FuseAnyIff(h: Hand, unitId: UnitId)
    ensures FuseAny(h, unitId).Ok? <==> exists p, q :: Twins(h.player, unitId, p, q)
  {
    var c := Candidates(RosterEntries(h.player), unitId);
    EntriesApart(h.player);
    CandidatesApart(RosterEntries(h.player), unitId);
    if FirstWithTwin(c).Some? {
      var p, q := FirstWithTwinFuses(h, unitId, c);
    }
    forall p, q | Twins(h.player, unitId, p, q) ensures FirstWithTwin(c).Some? {
      TwinsAreCandidates(h, unitId, c, p, q);
    }
  }

  // ---- seasons: any number of actions and rounds ----

  const ROUND_GOLD := 5

  /** A player in the shop phase of a round. */
  datatype Season = Season(hand: Hand, round: nat)

  datatype Step = Act(move: Move) | NextRound(shop: Shop)

  /** A refused action changes nothing; a round that kills nobody pays both players. */
  function Take(s: Season, step: Step, deal: nat -> seq<Option<Offer>>): Season {
    match step
    case Act(m) =>
      (match Apply(s.hand, m, deal) case Ok(h) => Season(h, s.round) case Err(_) => s)
    case NextRound(shop) =>
      var p := s.hand.player;
      Season(Hand(p.(gold := p.gold + ROUND_GOLD), shop), s.round + 1)
  }

  function TakeAll(s: Season, steps: seq<Step>, deal: nat -> seq<Option<Offer>>): Season {
    if steps == [] then s else Take(TakeAll(s, steps[..|steps| - 1], deal), steps[|steps| - 1], deal)
  }

  /** Each purchase is given an instance id of its own. */
  ghost predicate FreshIds(s: Season, steps: seq<Step>, deal: nat -> seq<Option<Offer>>) {
    forall k | 0 <= k < |steps| && steps[k].Act? :: FreshId(TakeAll(s, steps[..k], deal).hand.player, steps[k].move)
  }

  /** At every point of a match, gold and invested gold are 5 for each round begun. */
  lemma {:induction false} WealthIsFivePerRound(s: Season, steps: seq<Step>, deal: nat -> seq<Option<Offer>>)
    requires Sound(s.hand.player) && Wealth(s.hand.player) == 5 * s.round && FreshIds(s, steps, deal)
    ensures
      var end := TakeAll(s, steps, deal);
      Sound(end.hand.player) && Wealth(end.hand.player) == 5 * end.round
    decreases |steps|
  {
    if steps != [] {
      var k := |steps| - 1;
      var before := TakeAll(s, steps[..k], deal);
      forall i | 0 <= i < k && steps[i].Act?
        ensures FreshId(TakeAll(s, steps[..k][..i], deal).hand.player, steps[..k][i].move)
      {
        assert steps[..k][..i] == steps[..i];
      }
      WealthIsFivePerRound(s, steps[..k], deal);
      match steps[k]
      case Act(m) =>
        assert FreshId(before.hand.player, m);
        ActionKeepsWealth(before.hand, m, deal);
        ActionKeepsSound(before.hand, m, deal);
      case NextRound(_) => GoldSound(before.hand.player, before.hand.player.gold + ROUND_GOLD);
    }
  }
}
