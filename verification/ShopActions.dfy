/**
 * The roster actions in the form of backend/src/shop/shop.service.ts: each one changes the
 * context that was read for it, step by step, and a context whose action fails is discarded.
 */
module ShopActions {
  import opened GameTypes
  import opened Economy
  import opened EconomyLaws

  /** The outcome in place: an error, or the context as the value-level action leaves it. */
  ghost predicate Performs(c: ActionContext, err: Option<Error>, r: Result<Hand>)
    reads c
  {
    match r
    case Ok(h) => err == None && c.View() == h
    case Err(e) => err == Some(e)
  }

  class ActionContext {
    var gold: int
    var board: Slots
    var bench: Slots
    var refreshCount: nat
    var refreshUsed: bool
    var offers: seq<Option<Offer>>

    constructor (h: Hand)
      ensures View() == h
    {
      gold, board, bench := h.player.gold, h.player.board, h.player.bench;
      refreshCount, refreshUsed, offers := h.shop.refreshCount, h.shop.refreshUsed, h.shop.offers;
    }

    function View(): Hand
      reads this
    {
      Hand(Player(gold, board, bench), Shop(refreshCount, refreshUsed, offers))
    }

    method SetSlot(p: Spot, u: Option<RosterUnit>)
      requires View().player.Has(p)
      modifies this`board, this`bench
      ensures View() == old(View()).(player := old(View()).player.Put(p, u))
    {
      match p.source
      case OnBoard => board := board[p.slot := u];
      case OnBench => bench := bench[p.slot := u];
    }

    /** findIndex: the first free slot of the bench, or -1. */
    method FreeBenchSlot() returns (slot: int)
      ensures slot == match FirstFree(bench) case None => -1 case Some(i) => i
    {
      slot := 0;
      while slot < |bench| && bench[slot].Some?
        invariant 0 <= slot <= |bench|
        invariant FirstFree(bench) ==
          match FirstFree(bench[slot..]) case None => None case Some(i) => Some(slot + i)
      {
        assert bench[slot..][1..] == bench[slot + 1..];
        slot := slot + 1;
      }
      if slot == |bench| {
        slot := -1;
      }
    }

    method Buy(index: int, id: InstanceId) returns (err: Option<Error>)
      modifies this
      ensures Performs(this, err, Economy.Buy(old(View()), index, id))
    {
      if !(0 <= index < |offers|) || offers[index].None? {
        return Some(OfferUnavailable);
      }
      var unitId := offers[index].value.unitId;
      var cost := UnitCost(unitId);
      if gold < cost {
        return Some(InsufficientGold);
      }
      gold := gold - cost;
      var slot := FreeBenchSlot();
      if slot < 0 {
        return Some(RosterFull);
      }
      SetSlot(Spot(OnBench, slot), Some(NewUnit(unitId, id)));
      offers := offers[index := None];
      err := None;
    }

    method Sell(p: Spot) returns (err: Option<Error>)
      modifies this
      ensures Performs(this, err, Economy.Sell(old(View()), p))
    {
      var slots := if p.source.OnBoard? then board else bench;
      if p.slot < 0 || p.slot >= |slots| {
        return Some(InvalidSlot);
      }
      if slots[p.slot].None? {
        return Some(UnitNotFound);
      }
      gold := gold + InvestedGold(slots[p.slot].value);
      SetSlot(p, None);
      err := None;
    }

    method Refresh(deal: nat -> seq<Option<Offer>>) returns (err: Option<Error>)
      modifies this
      ensures Performs(this, err, Economy.Refresh(old(View()), deal))
    {
      if refreshUsed {
        return Some(RefreshUsed);
      }
      refreshUsed := true;
      refreshCount := refreshCount + 1;
      offers := deal(refreshCount);
      err := None;
    }

    /** The target takes the consumed unit in, and rises by a star at full hit points. */
    method MergeUnits(target: Entry, consumed: Entry)
      requires target in RosterEntries(View().player) && consumed in RosterEntries(View().player)
      requires target.unit.star < 2
      modifies this`board, this`bench
      ensures old(View()).player.Has(target.spot) && old(View()).player.Has(consumed.spot)
      ensures View() == old(View()).(player := MergeInto(old(View()).player, target, consumed))
    {
      EntriesListed(View().player);
      var total := InvestedGold(target.unit) + InvestedGold(consumed.unit);
      var risen := target.unit.(star := target.unit.star + 1);
      risen := risen.(invested := Some(total));
      risen := risen.(hp := risen.maxHp);
      SetSlot(target.spot, Some(risen));
      SetSlot(consumed.spot, None);
    }

    method Fuse(unitId: UnitId, sourceId: Option<InstanceId>, targetId: Option<InstanceId>)
      returns (err: Option<Error>)
      modifies this
      ensures Performs(this, err, Economy.Fuse(old(View()), unitId, sourceId, targetId))
    {
      if sourceId.None? != targetId.None? {
        return Some(InvalidFusePair);
      }
      var entries := RosterEntries(View().player);
      if sourceId.Some? {
        if sourceId == targetId {
          return Some(CannotFuse);
        }
        var source, target := FindUnit(entries, sourceId.value), FindUnit(entries, targetId.value);
        if source.None? || target.None? {
          return Some(UnitNotFound);
        }
        var s, t := source.value.unit, target.value.unit;
        if s.unitId != unitId || t.unitId != unitId || s.star != t.star || t.star >= 2 {
          return Some(CannotFuse);
        }
        MergeUnits(target.value, source.value);
        return None;
      }
      var candidates := Candidates(entries, unitId);
      var pair := FirstWithTwin(candidates);
      if pair.None? {
        return Some(CannotFuse);
      }
      var second := TwinOf(candidates, pair.value);
      if second.None? {
        return Some(CannotFuse);
      }
      MergeUnits(pair.value, second.value);
      err := None;
    }

    method Place(id: InstanceId, dest: Spot) returns (err: Option<Error>)
      modifies this
      ensures Performs(this, err, Economy.Place(old(View()), id, dest))
    {
      var slots := if dest.source.OnBoard? then board else bench;
      if dest.slot < 0 || dest.slot >= |slots| {
        return Some(SlotOutOfRange);
      }
      var found := FindUnit(RosterEntries(View().player), id);
      if found.None? {
        return Some(UnitNotOwned);
      }
      var occupied := slots[dest.slot];
      if occupied.Some? && occupied.value.id != id {
        return Some(SlotOccupied);
      }
      var home := found.value.spot;
      if home != dest {
        EntriesListed(View().player);
        SetSlot(home, None);
        SetSlot(dest, Some(found.value.unit));
      }
      err := None;
    }
  }

  /** One action from its read to its commit: what a failed action did to its context is lost. */
  method Perform(stored: Hand, m: Move, deal: nat -> seq<Option<Offer>>) returns (now: Hand, err: Option<Error>)
    ensures match Apply(stored, m, deal)
      case Ok(h) => err == None && now == h
      case Err(e) => err == Some(e) && now == stored
    ensures Sound(stored.player) && FreshId(stored.player, m) ==>
      Sound(now.player) && Wealth(now.player) == Wealth(stored.player)
  {
    var context := new ActionContext(stored);
    match m {
      case BuyMove(index, id) => err := context.Buy(index, id);
      case SellMove(spot) => err := context.Sell(spot);
      case RefreshMove => err := context.Refresh(deal);
      case FuseMove(unitId, sourceId, targetId) => err := context.Fuse(unitId, sourceId, targetId);
      case PlaceMove(unit, dest) => err := context.Place(unit, dest);
    }
    now := if err.None? then context.View() else stored;
    if Sound(stored.player) && FreshId(stored.player, m) {
      ActionKeepsSound(stored, m, deal);
      ActionKeepsWealth(stored, m, deal);
    }
  }
}
