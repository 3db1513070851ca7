/**
 * What each roster action does, place by place and in figures: prices, refunds, the unit that
 * rises in a fuse and the one that goes, and each refusal with its reason.
 */
module EconomyEffects {
  import opened GameTypes
  import opened Economy
  import opened EconomyLaws

  // ---- prices ----

  function Price(unitId: UnitId): int {
    match unitId case Fighter => 1 case Healer => 1 case Ranger => 2 case Tank => 2
  }

  function FullHp(unitId: UnitId): int {
    match unitId case Fighter => 100 case Healer => 70 case Ranger => 60 case Tank => 150
  }

  /** The gold noted on a unit or, on an old one, its price doubled for every star. */
  function Refund(u: RosterUnit): int {
    if u.invested.Some? && u.invested.value >= 0 then u.invested.value
    else if u.star == 0 then Price(u.unitId)
    else if u.star == 1 then 2 * Price(u.unitId)
    else 4 * Price(u.unitId)
  }

  lemma RefundIs(u: RosterUnit)
    ensures InvestedGold(u) == Refund(u)
  {
    assert Pow2(0) == 1 && Pow2(1) == 2 && Pow2(2) == 4;
  }

  // ---- buy, sell, refresh ----

  predicate Offered(h: Hand, index: int) {
    0 <= index < |h.shop.offers| && h.shop.offers[index].Some?
  }

  /** The first free slot of the bench. */
  predicate IsFirstFree(bench: Slots, slot: int) {
    0 <= slot < |bench| && bench[slot].None? && forall i | 0 <= i < slot :: bench[i].Some?
  }

  lemma {:induction false} FirstFreeIs(bench: Slots)
    ensures FirstFree(bench).Some? ==> IsFirstFree(bench, FirstFree(bench).value)
    decreases |bench|
  {
    if bench != [] && bench[0].Some? {
      FirstFreeIs(bench[1..]);
      if FirstFree(bench[1..]).Some? {
        forall i | 0 <= i < FirstFree(bench).value ensures bench[i].Some? {
          assert i > 0 ==> bench[i] == bench[1..][i - 1];
        }
      }
    }
  }

  ghost predicate Bought(h: Hand, next: Hand, index: int, id: InstanceId, slot: int)
    requires Offered(h, index) && 0 <= slot < |h.player.bench|
  {
    var unitId := h.shop.offers[index].value.unitId;
    && next.player.gold == h.player.gold - Price(unitId)
    && next.player.board == h.player.board
    && next.player.bench == h.player.bench[slot := Some(
         RosterUnit(id, unitId, 0, FullHp(unitId), FullHp(unitId), Some(Price(unitId))))]
    && next.shop.offers == h.shop.offers[index := None]
    && next.shop.refreshCount == h.shop.refreshCount && next.shop.refreshUsed == h.shop.refreshUsed
  }

  /** A purchase pays the price, takes the offer away and puts a new unit on the first free slot of the bench. */
  lemma BuyIs(h: Hand, index: int, id: InstanceId)
    ensures match Buy(h, index, id)
      case Ok(next) =>
        && Offered(h, index) && h.player.gold >= Price(h.shop.offers[index].value.unitId)
        && exists slot :: IsFirstFree(h.player.bench, slot) && Bought(h, next, index, id, slot)
      case Err(OfferUnavailable) => !Offered(h, index)
      case Err(InsufficientGold) => Offered(h, index) && h.player.gold < Price(h.shop.offers[index].value.unitId)
      case Err(RosterFull) =>
        && Offered(h, index) && h.player.gold >= Price(h.shop.offers[index].value.unitId)
        && forall i | 0 <= i < |h.player.bench| :: h.player.bench[i].Some?
      case Err(_) => false
  {
    FirstFreeIs(h.player.bench);
    if Buy(h, index, id).Ok? {
      var slot := FirstFree(h.player.bench).value;
      assert Bought(h, Buy(h, index, id).value, index, id, slot);
    }
  }

  function RowAt(s: Player, source: Source): Slots {
    match source case OnBoard => s.board case OnBench => s.bench
  }

  function Across(source: Source): Source {
    match source case OnBoard => OnBench case OnBench => OnBoard
  }

  /** A sale pays the refund, empties the slot and changes nothing else. */
  lemma SellIs(h: Hand, p: Spot)
    ensures
      var row := RowAt(h.player, p.source);
      match Sell(h, p)
      case Ok(next) =>
        && 0 <= p.slot < |row| && row[p.slot].Some?
        && next.player.gold == h.player.gold + Refund(row[p.slot].value)
        && RowAt(next.player, p.source) == row[p.slot := None]
        && RowAt(next.player, Across(p.source)) == RowAt(h.player, Across(p.source)) && next.shop == h.shop
      case Err(InvalidSlot) => !(0 <= p.slot < |row|)
      case Err(UnitNotFound) => 0 <= p.slot < |row| && row[p.slot].None?
      case Err(_) => false
  {
    var row := RowAt(h.player, p.source);
    if 0 <= p.slot < |row| && row[p.slot].Some? {
      RefundIs(row[p.slot].value);
    }
  }

  /** The first refresh of a phase deals new offers for its count; the second one is refused. */
  lemma RefreshIs(h: Hand, deal: nat -> seq<Option<Offer>>, again: nat -> seq<Option<Offer>>)
    ensures h.shop.refreshUsed ==> Refresh(h, deal) == Err(RefreshUsed)
    ensures !h.shop.refreshUsed ==>
      && Refresh(h, deal).Ok?
      && var next := Refresh(h, deal).value;
        && next.player == h.player && next.shop.refreshCount == h.shop.refreshCount + 1
        && next.shop.offers == deal(h.shop.refreshCount + 1) && Refresh(next, again) == Err(RefreshUsed)
  {
  }

  function Refreshes(s: Season, steps: seq<Step>, deal: nat -> seq<Option<Offer>>): nat {
    if steps == [] then 0
    else
      var n := |steps| - 1;
      var hand := TakeAll(s, steps[..n], deal).hand;
      var done := steps[n].Act? && steps[n].move.RefreshMove? && Apply(hand, steps[n].move, deal).Ok?;
      Refreshes(s, steps[..n], deal) + if done then 1 else 0
  }

  lemma OthersKeepRefresh(h: Hand, m: Move, deal: nat -> seq<Option<Offer>>)
    requires !m.RefreshMove? && Apply(h, m, deal).Ok?
    ensures
      var next := Apply(h, m, deal).value;
      next.shop.refreshUsed == h.shop.refreshUsed && next.shop.refreshCount == h.shop.refreshCount
  {
  }

  /** Among all the actions of a phase at most one refresh goes through, and none does after one. */
  lemma {:induction false} RefreshedOnce(s: Season, steps: seq<Step>, deal: nat -> seq<Option<Offer>>)
    requires forall k | 0 <= k < |steps| :: steps[k].Act?
    ensures
      var shop, now := s.hand.shop, TakeAll(s, steps, deal).hand.shop;
      && Refreshes(s, steps, deal) <= (if shop.refreshUsed then 0 else 1)
      && now.refreshCount == shop.refreshCount + Refreshes(s, steps, deal)
      && now.refreshUsed == (shop.refreshUsed || Refreshes(s, steps, deal) == 1)
    decreases |steps|
  {
    if steps != [] {
      var n := |steps| - 1;
      var before := TakeAll(s, steps[..n], deal);
      RefreshedOnce(s, steps[..n], deal);
      assert steps[n].Act?;
      if !steps[n].move.RefreshMove? && Apply(before.hand, steps[n].move, deal).Ok? {
        OthersKeepRefresh(before.hand, steps[n].move, deal);
      }
    }
  }

  // ---- fuse ----

  /** Apart from two places, the roster is as it was. */
  ghost predicate OthersStay(s: Player, t: Player, p: Spot, q: Spot) {
    && t.gold == s.gold && |t.board| == |s.board| && |t.bench| == |s.bench|
    && forall r | s.Has(r) && r != p && r != q :: t.At(r) == s.At(r)
  }

  ghost predicate Holds(s: Player, p: Spot, u: RosterUnit) {
    s.Has(p) && s.At(p) == Some(u)
  }

  /** The unit on q has risen by a star, at full hit points and with the gold of both; p is free. */
  ghost predicate Fused(s: Player, t: Player, p: Spot, consumed: RosterUnit, q: Spot, target: RosterUnit) {
    && p != q && Holds(s, p, consumed) && Holds(s, q, target) && target.star < 2
    && Holds(t, q, RosterUnit(target.id, target.unitId, target.star + 1, target.maxHp, target.maxHp,
         Some(Refund(target) + Refund(consumed))))
    && t.Has(p) && t.At(p).None? && OthersStay(s, t, p, q)
  }

  lemma MergeFuses(s: Player, target: Entry, source: Entry)
    requires target.spot != source.spot && target.unit.star < 2
    requires Holds(s, target.spot, target.unit) && Holds(s, source.spot, source.unit)
    ensures Fused(s, MergeInto(s, target, source), source.spot, source.unit, target.spot, target.unit)
  {
    RefundIs(target.unit);
    RefundIs(source.unit);
    var merged := Some(Merged(target.unit, source.unit));
    var t := s.Put(target.spot, merged);
    assert t.Has(source.spot) && forall r | s.Has(r) :: t.Has(r);
  }

  ghost predicate Owns(s: Player, id: InstanceId) {
    exists p, u :: Holds(s, p, u) && u.id == id
  }

  lemma OwnsIff(s: Player, id: InstanceId)
    ensures Owns(s, id) <==> FindUnit(RosterEntries(s), id).Some?
    ensures FindUnit(RosterEntries(s), id).Some? ==>
      var e := FindUnit(RosterEntries(s), id).value; Holds(s, e.spot, e.unit) && e.unit.id == id
  {
    EntriesListed(s);
    var found := FindUnit(RosterEntries(s), id);
    if found.Some? {
      assert Holds(s, found.value.spot, found.value.unit);
    }
    if Owns(s, id) {
      var p, u :| Holds(s, p, u) && u.id == id;
      assert Entry(p, u) in RosterEntries(s);
    }
  }

  ghost predicate FusedAsNamed(
    s: Player, t: Player, unitId: UnitId, sourceId: InstanceId, targetId: InstanceId,
    p: Spot, u: RosterUnit, q: Spot, v: RosterUnit)
  {
    && Fused(s, t, p, u, q, v) && u.id == sourceId && v.id == targetId
    && u.unitId == v.unitId == unitId && u.star == v.star
  }

  /** Of two named units the target rises where it stands, and the source goes. */
  lemma FusePairIs(h: Hand, unitId: UnitId, sourceId: InstanceId, targetId: InstanceId)
    ensures match FusePair(h, unitId, sourceId, targetId)
      case Ok(next) =>
        && next.shop == h.shop
        && exists p, u, q, v :: FusedAsNamed(h.player, next.player, unitId, sourceId, targetId, p, u, q, v)
      case Err(UnitNotFound) => !Owns(h.player, sourceId) || !Owns(h.player, targetId)
      case Err(CannotFuse) => sourceId == targetId || (Owns(h.player, sourceId) && Owns(h.player, targetId))
      case Err(_) => false
  {
    OwnsIff(h.player, sourceId);
    OwnsIff(h.player, targetId);
    if FusePair(h, unitId, sourceId, targetId).Ok? {
      var entries := RosterEntries(h.player);
      var source, target := FindUnit(entries, sourceId).value, FindUnit(entries, targetId).value;
      MergeFuses(h.player, target, source);
      assert FusedAsNamed(h.player, FusePair(h, unitId, sourceId, targetId).value.player, unitId, sourceId, targetId,
        source.spot, source.unit, target.spot, target.unit);
    }
  }

  // ---- the fuse that names no instances ----

  /** Roster order: the board before the bench, each by rising slot. */
  predicate Ahead(p: Spot, q: Spot) {
    (p.source.OnBoard? && q.source.OnBench?) || (p.source == q.source && p.slot < q.slot)
  }

  ghost predicate InRosterOrder(entries: seq<Entry>) {
    forall i, j | 0 <= i < j < |entries| :: Ahead(entries[i].spot, entries[j].spot)
  }

  lemma {:induction false} RowInOrder(slots: Slots, source: Source, n: nat)
    requires n <= |slots|
    ensures InRosterOrder(RowEntries(slots, source, n))
    decreases |slots| - n
  {
    if n < |slots| {
      RowInOrder(slots, source, n + 1);
      RowEntriesListed(slots, source, n + 1);
    }
  }

  lemma RosterInOrder(s: Player)
    ensures InRosterOrder(RosterEntries(s))
  {
    var x, y := RowEntries(s.board, OnBoard, 0), RowEntries(s.bench, OnBench, 0);
    RowInOrder(s.board, OnBoard, 0);
    RowInOrder(s.bench, OnBench, 0);
    RowEntriesListed(s.board, OnBoard, 0);
    RowEntriesListed(s.bench, OnBench, 0);
    var all := x + y;
    forall i, j | 0 <= i < j < |all| ensures Ahead(all[i].spot, all[j].spot) {
      assert i < |x| ==> x[i] in x;
      assert j >= |x| ==> y[j - |x|] in y;
    }
  }

  lemma {:induction false} OfStarInOrder(entries: seq<Entry>, unitId: UnitId, star: Star)
    requires InRosterOrder(entries)
    ensures InRosterOrder(OfStar(entries, unitId, star))
    decreases |entries|
  {
    if entries != [] {
      var rest := OfStar(entries[1..], unitId, star);
      OfStarInOrder(entries[1..], unitId, star);
      forall e | e in rest ensures Ahead(entries[0].spot, e.spot) {
        var i :| 0 <= i < |entries[1..]| && entries[1..][i] == e;
        assert entries[i + 1] == e;
      }
    }
  }

  /** The two that are fused: the first and the second of the lowest star that has two. */
  function LowestTwo(x: seq<Entry>, y: seq<Entry>): Option<(Entry, Entry)> {
    if |x| >= 2 then Some((x[0], x[1])) else if |y| >= 2 then Some((y[0], y[1])) else None
  }

  lemma NoTwin(x: seq<Entry>, y: seq<Entry>)
    requires |x| <= 1 && (forall e <- x :: e.unit.star == 0) && (forall e <- y :: e.unit.star == 1)
    ensures FirstWithTwin(x + y) == FirstWithTwin(y)
  {
    if |x| == 1 {
      assert (x + y)[1..] == y;
    } else {
      assert x + y == y;
    }
  }

  lemma FirstTwins(c: seq<Entry>)
    requires |c| >= 2 && c[0].unit.star == c[1].unit.star && c[0] != c[1]
    ensures FirstWithTwin(c) == Some(c[0]) && TwinOf(c, c[0]) == Some(c[1])
  {
    assert c[1..][0] == c[1];
    assert FirstOfStar(c[1..], c[0].unit.star) == Some(c[1]);
    assert TwinOf(c[1..], c[0]) == Some(c[1]);
  }

  lemma SecondTwins(x: seq<Entry>, y: seq<Entry>)
    requires |x| <= 1 && (forall e <- x :: e.unit.star == 0) && (forall e <- y :: e.unit.star == 1)
    requires |y| >= 2 && y[0] != y[1]
    ensures FirstWithTwin(x + y) == Some(y[0]) && TwinOf(x + y, y[0]) == Some(y[1])
  {
    NoTwin(x, y);
    FirstTwins(y);
    if |x| == 1 {
      assert (x + y)[1..] == y;
    } else {
      assert x + y == y;
    }
  }

  lemma OneHasNoTwin(y: seq<Entry>)
    requires |y| <= 1
    ensures FirstWithTwin(y) == None
  {
    if |y| == 1 {
      assert y[1..] == [];
    }
  }

  lemma PairIs(x: seq<Entry>, y: seq<Entry>)
    requires (forall e <- x :: e.unit.star == 0) && (forall e <- y :: e.unit.star == 1)
    requires InRosterOrder(x) && InRosterOrder(y)
    ensures FirstWithTwin(x + y) == match LowestTwo(x, y) case None => None case Some(two) => Some(two.0)
    ensures LowestTwo(x, y).Some? ==> TwinOf(x + y, LowestTwo(x, y).value.0) == Some(LowestTwo(x, y).value.1)
  {
    if |x| >= 2 {
      assert Ahead(x[0].spot, x[1].spot);
      FirstTwins(x + y);
    } else if |y| >= 2 {
      assert Ahead(y[0].spot, y[1].spot);
      SecondTwins(x, y);
    } else {
      NoTwin(x, y);
      OneHasNoTwin(y);
    }
  }

  /** p and q are the first two places, in roster order, with a unit of the kind and star. */
  ghost predicate FirstTwo(s: Player, unitId: UnitId, star: Star, p: Spot, u: RosterUnit, q: Spot, v: RosterUnit) {
    && Holds(s, p, u) && Holds(s, q, v) && Ahead(p, q)
    && u.unitId == v.unitId == unitId && u.star == v.star == star
    && forall r, w | Holds(s, r, w) && w.unitId == unitId && w.star == star && r != p && r != q :: Ahead(q, r)
  }

  /** At most one place holds a unit of the kind and star. */
  ghost predicate NoPair(s: Player, unitId: UnitId, star: Star) {
    forall p, u, q, v |
      Holds(s, p, u) && Holds(s, q, v) && u.unitId == v.unitId == unitId && u.star == v.star == star :: p == q
  }

  lemma StarList(s: Player, unitId: UnitId, star: Star) returns (c: seq<Entry>)
    ensures c == OfStar(RosterEntries(s), unitId, star) && InRosterOrder(c)
    ensures forall p, u :: Entry(p, u) in c <==> Holds(s, p, u) && u.unitId == unitId && u.star == star
  {
    c := OfStar(RosterEntries(s), unitId, star);
    RosterInOrder(s);
    OfStarInOrder(RosterEntries(s), unitId, star);
    EntriesListed(s);
  }

  lemma TwoOrNoPair(s: Player, unitId: UnitId, star: Star, c: seq<Entry>)
    requires InRosterOrder(c)
    requires forall p, u :: Entry(p, u) in c <==> Holds(s, p, u) && u.unitId == unitId && u.star == star
    ensures |c| >= 2 ==> FirstTwo(s, unitId, star, c[0].spot, c[0].unit, c[1].spot, c[1].unit)
    ensures |c| < 2 ==> NoPair(s, unitId, star)
  {
    if |c| >= 2 {
      assert c[0] == Entry(c[0].spot, c[0].unit) && c[1] == Entry(c[1].spot, c[1].unit);
      assert c[0] in c && c[1] in c;
      forall r, w | Holds(s, r, w) && w.unitId == unitId && w.star == star && r != c[0].spot && r != c[1].spot
        ensures Ahead(c[1].spot, r)
      {
        assert Entry(r, w) in c;
        var i :| 0 <= i < |c| && c[i] == Entry(r, w);
        assert i > 1;
      }
    } else {
      forall p, u, q, v | Holds(s, p, u) && Holds(s, q, v) && u.unitId == v.unitId == unitId && u.star == v.star == star
        ensures p == q
      {
        assert Entry(p, u) in c && Entry(q, v) in c;
      }
    }
  }

  /** The unnamed fuse takes the first two of star 0 or, if there are no two, of star 1. */
  ghost predicate FusedLowest(
    s: Player, t: Player, unitId: UnitId, star: Star, p: Spot, u: RosterUnit, q: Spot, v: RosterUnit)
  {
    && FirstTwo(s, unitId, star, p, u, q, v) && (star == 1 ==> NoPair(s, unitId, 0))
    && Fused(s, t, q, v, p, u)
  }

  /**
   * A fuse that names no instances takes the lowest star that has a pair: the first such unit
   * in roster order rises, and the next one goes. It is refused if no star below 2 has a pair.
   */
  lemma FuseAnyIs(h: Hand, unitId: UnitId)
    ensures match FuseAny(h, unitId)
      case Ok(next) =>
        && next.shop == h.shop
        && exists star, p, u, q, v :: star < 2 && FusedLowest(h.player, next.player, unitId, star, p, u, q, v)
      case Err(e) => e == CannotFuse && NoPair(h.player, unitId, 0) && NoPair(h.player, unitId, 1)
  {
    var s := h.player;
    var x := StarList(s, unitId, 0);
    var y := StarList(s, unitId, 1);
    PairIs(x, y);
    TwoOrNoPair(s, unitId, 0, x);
    TwoOrNoPair(s, unitId, 1, y);
    if LowestTwo(x, y).Some? {
      var two := LowestTwo(x, y).value;
      MergeFuses(s, two.0, two.1);
      assert FusedLowest(s, FuseAny(h, unitId).value.player, unitId, if |x| >= 2 then 0 else 1,
        two.0.spot, two.0.unit, two.1.spot, two.1.unit);
    }
  }

  /** A fuse request: both units named, or none, or it is refused for that. */
  lemma FuseIs(h: Hand, unitId: UnitId, sourceId: Option<InstanceId>, targetId: Option<InstanceId>)
    ensures match Fuse(h, unitId, sourceId, targetId)
      case Ok(next) =>
        && next.shop == h.shop && (sourceId.Some? <==> targetId.Some?)
        && (if sourceId.Some? then
              exists p, u, q, v ::
                FusedAsNamed(h.player, next.player, unitId, sourceId.value, targetId.value, p, u, q, v)
            else
              exists star, p, u, q, v :: star < 2 && FusedLowest(h.player, next.player, unitId, star, p, u, q, v))
      case Err(InvalidFusePair) => sourceId.Some? != targetId.Some?
      case Err(UnitNotFound) =>
        sourceId.Some? && targetId.Some? && (!Owns(h.player, sourceId.value) || !Owns(h.player, targetId.value))
      case Err(CannotFuse) =>
        && (sourceId.Some? <==> targetId.Some?)
        && (sourceId.None? ==> NoPair(h.player, unitId, 0) && NoPair(h.player, unitId, 1))
      case Err(_) => false
  {
    if sourceId.Some? && targetId.Some? {
      FusePairIs(h, unitId, sourceId.value, targetId.value);
    } else if sourceId.None? && targetId.None? {
      FuseAnyIs(h, unitId);
    }
  }

  // ---- place ----

  ghost predicate PlacedFrom(s: Player, t: Player, home: Spot, u: RosterUnit, id: InstanceId, dest: Spot) {
    && Holds(s, home, u) && u.id == id && Holds(t, dest, u) && OthersStay(s, t, home, dest)
    && (home != dest ==> s.At(dest).None? && t.Has(home) && t.At(home).None?)
  }

  /** A unit moves to a free place, or stays where it is. */
  lemma PlaceIs(h: Hand, id: InstanceId, dest: Spot)
    requires IdsUnique(h.player)
    ensures match Place(h, id, dest)
      case Ok(next) =>
        next.shop == h.shop && exists home, u :: PlacedFrom(h.player, next.player, home, u, id, dest)
      case Err(SlotOutOfRange) => !(0 <= dest.slot < |RowAt(h.player, dest.source)|)
      case Err(UnitNotOwned) => h.player.Has(dest) && !Owns(h.player, id)
      case Err(SlotOccupied) => Owns(h.player, id) && exists other :: Holds(h.player, dest, other) && other.id != id
      case Err(_) => false
  {
    var s := h.player;
    OwnsIff(s, id);
    if Place(h, id, dest).Ok? {
      var e := FindUnit(RosterEntries(s), id).value;
      if e.spot != dest {
        Moves(s, e.spot, e.unit, dest);
      }
      assert PlacedFrom(s, Place(h, id, dest).value.player, e.spot, e.unit, id, dest);
    } else if s.Has(dest) && Owns(s, id) {
      assert Holds(s, dest, s.At(dest).value);
    }
  }

  lemma Moves(s: Player, home: Spot, u: RosterUnit, dest: Spot)
    requires Holds(s, home, u) && s.Has(dest) && s.At(dest).None? && home != dest
    ensures PlacedFrom(s, s.Put(home, None).Put(dest, Some(u)), home, u, u.id, dest)
  {
    var t := s.Put(home, None);
    assert forall r | s.Has(r) :: t.Has(r);
  }
}
