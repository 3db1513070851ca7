/**
 * Gold, roster and shop of one player: backend/src/shop/shop.service.ts and the `place` action
 * of backend/src/runtime/match.runtime.adapter.ts, as functions on values.
 */
module Economy {
  import opened GameTypes

  function UnitCost(unitId: UnitId): nat {
    match unitId
    case Fighter => 1
    case Healer => 1
    case Ranger => 2
    case Tank => 2
  }

  function Pow2(n: nat): nat {
    if n == 0 then 1 else 2 * Pow2(n - 1)
  }

  /** A unit in a roster; old ones may lack the gold that was invested in them. */
  datatype RosterUnit = RosterUnit(
    id: InstanceId, unitId: UnitId, star: Star, hp: int, maxHp: int, invested: Option<int>)

  function FairPrice(u: RosterUnit): nat {
    UnitCost(u.unitId) * Pow2(u.star)
  }

  function InvestedGold(u: RosterUnit): nat {
    if u.invested.Some? && u.invested.value >= 0 then u.invested.value else FairPrice(u)
  }

  type Slots = seq<Option<RosterUnit>>

  datatype Source = OnBoard | OnBench

  datatype Spot = Spot(source: Source, slot: int)

  datatype Player = Player(gold: int, board: Slots, bench: Slots) {
    function Row(source: Source): Slots {
      if source.OnBoard? then board else bench
    }

    predicate Has(p: Spot) {
      0 <= p.slot < |Row(p.source)|
    }

    function At(p: Spot): Option<RosterUnit>
      requires Has(p)
    {
      Row(p.source)[p.slot]
    }

    function Put(p: Spot, u: Option<RosterUnit>): (r: Player)
      requires Has(p)
      ensures r.gold == gold && |r.board| == |board| && |r.bench| == |bench|
      ensures forall q :: Has(q) ==> r.At(q) == if q == p then u else At(q)
    {
      if p.source.OnBoard? then this.(board := board[p.slot := u]) else this.(bench := bench[p.slot := u])
    }
  }

  datatype Offer = Offer(offerId: int, unitId: UnitId)

  datatype Shop = Shop(refreshCount: nat, refreshUsed: bool, offers: seq<Option<Offer>>)

  datatype Hand = Hand(player: Player, shop: Shop)

  datatype Error =
    | OfferUnavailable | InsufficientGold | RosterFull | InvalidSlot | UnitNotFound | RefreshUsed
    | InvalidFusePair | CannotFuse | SlotOutOfRange | UnitNotOwned | SlotOccupied

  datatype Result<T> = Ok(value: T) | Err(error: Error)

  // ---- buy, sell, refresh ----

  function FirstFree(slots: Slots): (r: Option<nat>)
    ensures r.Some? ==> r.value < |slots| && slots[r.value].None?
    ensures r.None? ==> forall i | 0 <= i < |slots| :: slots[i].Some?
  {
    if slots == [] then None
    else if slots[0].None? then Some(0)
    else match FirstFree(slots[1..]) case None => None case Some(i) => Some(i + 1)
  }

  function NewUnit(unitId: UnitId, id: InstanceId): RosterUnit {
    RosterUnit(id, unitId, 0, BaseHp(unitId), BaseHp(unitId), Some(UnitCost(unitId)))
  }

  function Buy(h: Hand, index: int, id: InstanceId): Result<Hand> {
    if !(0 <= index < |h.shop.offers|) || h.shop.offers[index].None? then Err(OfferUnavailable) else
    var unitId := h.shop.offers[index].value.unitId;
    if h.player.gold < UnitCost(unitId) then Err(InsufficientGold) else
    match FirstFree(h.player.bench)
    case None => Err(RosterFull)
    case Some(slot) =>
      var paid := h.player.(gold := h.player.gold - UnitCost(unitId));
      Ok(Hand(paid.Put(Spot(OnBench, slot), Some(NewUnit(unitId, id))),
        h.shop.(offers := h.shop.offers[index := None])))
  }

  function Sell(h: Hand, p: Spot): Result<Hand> {
    if !h.player.Has(p) then Err(InvalidSlot)
    else match h.player.At(p)
    case None => Err(UnitNotFound)
    case Some(u) =>
      var emptied := h.player.Put(p, None);
      Ok(h.(player := emptied.(gold := emptied.gold + InvestedGold(u))))
  }

  /** `deal` stands for generateOffers with the seed, the round and the player fixed. */
  function Refresh(h: Hand, deal: nat -> seq<Option<Offer>>): Result<Hand> {
    if h.shop.refreshUsed then Err(RefreshUsed)
    else Ok(h.(shop := Shop(h.shop.refreshCount + 1, true, deal(h.shop.refreshCount + 1))))
  }

  // ---- roster entries ----

  datatype Entry = Entry(spot: Spot, unit: RosterUnit)

  function RowEntries(slots: Slots, source: Source, n: nat): (r: seq<Entry>)
    requires n <= |slots|
    decreases |slots| - n
  {
    if n == |slots| then []
    else if slots[n].None? then RowEntries(slots, source, n + 1)
    else [Entry(Spot(source, n), slots[n].value)] + RowEntries(slots, source, n + 1)
  }

  /** All units with their places: the board first, then the bench, each by rising slot. */
  function RosterEntries(s: Player): seq<Entry> {
    RowEntries(s.board, OnBoard, 0) + RowEntries(s.bench, OnBench, 0)
  }

  function FindUnit(entries: seq<Entry>, id: InstanceId): (r: Option<Entry>)
    ensures r.Some? ==> r.value in entries && r.value.unit.id == id
    ensures r.None? ==> forall e <- entries :: e.unit.id != id
  {
    if entries == [] then None
    else if entries[0].unit.id == id then Some(entries[0])
    else FindUnit(entries[1..], id)
  }

  // ---- fuse ----

  function Merged(target: RosterUnit, consumed: RosterUnit): RosterUnit
    requires target.star < 2
  {
    target.(star := target.star + 1, invested := Some(InvestedGold(target) + InvestedGold(consumed)), hp := target.maxHp)
  }

  /** The target takes the source in; the source's slot becomes empty. */
  function MergeInto(s: Player, target: Entry, source: Entry): Player
    requires target.unit.star < 2 && s.Has(target.spot) && s.Has(source.spot)
  {
    s.Put(target.spot, Some(Merged(target.unit, source.unit))).Put(source.spot, None)
  }

  function FusePair(h: Hand, unitId: UnitId, sourceId: InstanceId, targetId: InstanceId): Result<Hand> {
    if sourceId == targetId then Err(CannotFuse) else
    var entries := RosterEntries(h.player);
    var source, target := FindUnit(entries, sourceId), FindUnit(entries, targetId);
    if source.None? || target.None? then Err(UnitNotFound)
    else if !Fusible(source.value.unit, target.value.unit, unitId) then Err(CannotFuse)
    else
      EntriesListed(h.player);
      Ok(h.(player := MergeInto(h.player, target.value, source.value)))
  }

  predicate Fusible(a: RosterUnit, b: RosterUnit, unitId: UnitId) {
    a.unitId == unitId && b.unitId == unitId && a.star == b.star && b.star < 2
  }

  /** The units of a kind that may still rise, stably sorted by star. */
  function Candidates(entries: seq<Entry>, unitId: UnitId): seq<Entry> {
    OfStar(entries, unitId, 0) + OfStar(entries, unitId, 1)
  }

  function OfStar(entries: seq<Entry>, unitId: UnitId, star: Star): (r: seq<Entry>)
    ensures |r| <= |entries|
    ensures forall e :: e in r <==> e in entries && e.unit.unitId == unitId && e.unit.star == star
  {
    if entries == [] then []
    else
      var rest := OfStar(entries[1..], unitId, star);
      if entries[0].unit.unitId == unitId && entries[0].unit.star == star then [entries[0]] + rest else rest
  }

  function FirstOfStar(candidates: seq<Entry>, star: Star): (r: Option<Entry>)
    ensures r.Some? ==> r.value in candidates && r.value.unit.star == star
    ensures r.None? ==> forall e <- candidates :: e.unit.star != star
  {
    if candidates == [] then None
    else if candidates[0].unit.star == star then Some(candidates[0])
    else FirstOfStar(candidates[1..], star)
  }

  /** find: the first candidate that shares its star with a later one. */
  function FirstWithTwin(candidates: seq<Entry>): (r: Option<Entry>)
    ensures r.Some? ==> r.value in candidates
  {
    if candidates == [] then None
    else if FirstOfStar(candidates[1..], candidates[0].unit.star).Some? then Some(candidates[0])
    else FirstWithTwin(candidates[1..])
  }

  /** find: the first other candidate of the same star. */
  function TwinOf(candidates: seq<Entry>, pair: Entry): (r: Option<Entry>)
    ensures r.Some? ==> r.value in candidates && r.value != pair && r.value.unit.star == pair.unit.star
    ensures r.None? ==> forall e <- candidates :: e == pair || e.unit.star != pair.unit.star
  {
    if candidates == [] then None
    else if candidates[0] != pair && candidates[0].unit.star == pair.unit.star then Some(candidates[0])
    else TwinOf(candidates[1..], pair)
  }

  /** The path of clients that name no instances. */
  function FuseAny(h: Hand, unitId: UnitId): Result<Hand> {
    var candidates := Candidates(RosterEntries(h.player), unitId);
    var pair := FirstWithTwin(candidates);
    if pair.None? then Err(CannotFuse) else
    var second := TwinOf(candidates, pair.value);
    if second.None? then Err(CannotFuse)
    else
      EntriesListed(h.player);
      Ok(h.(player := MergeInto(h.player, pair.value, second.value)))
  }

  function Fuse(h: Hand, unitId: UnitId, sourceId: Option<InstanceId>, targetId: Option<InstanceId>): Result<Hand> {
    if sourceId.None? != targetId.None? then Err(InvalidFusePair)
    else if sourceId.Some? then FusePair(h, unitId, sourceId.value, targetId.value)
    else FuseAny(h, unitId)
  }

  // ---- place ----

  function Place(h: Hand, id: InstanceId, dest: Spot): Result<Hand> {
    if !h.player.Has(dest) then Err(SlotOutOfRange) else
    match FindUnit(RosterEntries(h.player), id)
    case None => Err(UnitNotOwned)
    case Some(e) =>
      var occupied := h.player.At(dest);
      if occupied.Some? && occupied.value.id != id then Err(SlotOccupied)
      else if e.spot == dest then Ok(h)
      else
        EntriesListed(h.player);
        Ok(h.(player := h.player.Put(e.spot, None).Put(dest, Some(e.unit))))
  }

  // ---- what the roster entries are ----

  lemma {:induction false} RowEntriesListed(slots: Slots, source: Source, n: nat)
    requires n <= |slots|
    ensures forall e :: e in RowEntries(slots, source, n) <==>
      e.spot.source == source && n <= e.spot.slot < |slots| && slots[e.spot.slot] == Some(e.unit)
    decreases |slots| - n
  {
    if n < |slots| {
      RowEntriesListed(slots, source, n + 1);
    }
  }

  lemma EntriesListed(s: Player)
    ensures forall e :: e in RosterEntries(s) <==> s.Has(e.spot) && s.At(e.spot) == Some(e.unit)
  {
    RowEntriesListed(s.board, OnBoard, 0);
    RowEntriesListed(s.bench, OnBench, 0);
  }
}
