/** What a client of the emitted log may rely on, entry by entry. */
module BattleClient {
  import opened GameTypes
  import opened BattleSpec
  import opened BattleTrace
  import opened BattleReplay

  lemma {:induction false} RenderSize(acts: seq<Act>, layout: seq<Pos>)
    ensures |Render(acts, layout)| == |AllEvents(acts)|
    decreases |acts|
  {
    if acts != [] {
      RenderSize(acts[1..], layout);
    }
  }

  /** The act that emitted an entry of the log. */
  lemma {:induction false} EmittedBy(acts: seq<Act>, layout: seq<Pos>, i: nat) returns (k: nat)
    requires i < |Render(acts, layout)|
    ensures k < |acts| && |AllEvents(acts[..k])| <= i < |AllEvents(acts[..k + 1])| && i < |AllEvents(acts)|
    ensures Render(acts, layout)[i] == LogEntry(AllEvents(acts)[i], Listing(acts[k].post, layout))
    decreases |acts|
  {
    RenderSize(acts, layout);
    var n := |acts[0].events|;
    var head := Stamp(acts[0].events, Listing(acts[0].post, layout));
    if i < n {
      k := 0;
      assert Render(acts, layout)[i] == head[i];
      assert acts[..1][1..] == [];
    } else {
      var j := EmittedBy(acts[1..], layout, i - n);
      k := j + 1;
      assert acts[..k][1..] == acts[1..][..j] && acts[..k + 1][1..] == acts[1..][..j + 1];
      assert Render(acts, layout)[i] == Render(acts[1..], layout)[i - n];
    }
  }

  lemma {:induction false} ListingAt(b: Board, layout: seq<Pos>, j: nat)
    requires (forall p <- layout :: p in b) && j < |layout|
    ensures |Listing(b, layout)| == |layout| && Listing(b, layout)[j] == SnapshotOf(b[layout[j]])
    decreases |layout|
  {
    assert layout[0] in layout;
    if j > 0 {
      ListingAt(b, layout[1..], j - 1);
    } else if |layout| > 1 {
      ListingAt(b, layout[1..], 0);
    }
  }

  /**
   * What a client sees on an entry, unit by unit in array order: the name, kind, star and
   * maximum that the unit started with, and the hit points and life that one gets for its
   * square by redoing the given events.
   */
  ghost predicate Shows(b: Board, layout: seq<Pos>, states: seq<UnitSnapshot>, view: View) {
    && |states| == |layout|
    && forall j | 0 <= j < |layout| ::
      var s, p := states[j], layout[j];
      && p in b && s.pos == p && s.id == b[p].id && s.unitId == b[p].unitId && s.star == b[p].star && s.maxHp == b[p].maxHp
      && p in view && view[p].hp == s.hp && view[p].alive == s.alive
  }

  lemma ListingShows(b: Board, c: Board, layout: seq<Pos>)
    requires SameUnits(b, c) && Placed(b) && forall p <- layout :: p in b
    ensures Shows(b, layout, Listing(c, layout), ViewOf(c))
  {
    if layout != [] {
      ListingAt(c, layout, 0);
    }
    forall j | 0 <= j < |layout|
      ensures
        var s, p := Listing(c, layout)[j], layout[j];
        && s.pos == p && s.id == b[p].id && s.unitId == b[p].unitId && s.star == b[p].star && s.maxHp == b[p].maxHp
        && p in ViewOf(c) && ViewOf(c)[p].hp == s.hp && ViewOf(c)[p].alive == s.alive
    {
      ListingAt(c, layout, j);
      assert layout[j] in layout;
      assert IdentityOf(b[layout[j]]) == IdentityOf(c[layout[j]]);
    }
  }

  /** The snapshot on an entry is the listing of the board that the given events lead to. */
  lemma EntryListsBoard(how: Reading, b: Board, layout: seq<Pos>, initSide: Side, i: nat) returns (k: nat)
    requires Placed(b) && i < |Render(Battle(b, layout, initSide), layout)|
    ensures
      var acts := Battle(b, layout, initSide);
      && k < |acts| && |AllEvents(acts[..k])| <= i < |AllEvents(acts[..k + 1])| && i < |AllEvents(acts)|
      && Render(acts, layout)[i] == LogEntry(AllEvents(acts)[i], Listing(acts[k].post, layout))
      && SameUnits(b, acts[k].post)
      && Replay(how, ViewOf(b), AllEvents(acts[..k + 1])) == ViewOf(acts[k].post)
  {
    var acts := Battle(b, layout, initSide);
    k := EmittedBy(acts, layout, i);
    BattleRuns(b, LegalBy(layout), layout, initSide, 1);
    RunSplit(b, LegalBy(layout), acts, k);
    RunReplays(how, b, layout, acts, k + 1);
    RunPrefix(b, LegalBy(layout), acts, k + 1);
    RunKeepsUnits(b, layout, acts[..k + 1]);
  }

  /**
   * Every entry of a battle's log carries its event, and the snapshot of the very board that one
   * gets by redoing, from the initial board, all events up to the end of the act that emitted it.
   */
  lemma EntryShowsReplay(how: Reading, b: Board, layout: seq<Pos>, initSide: Side, i: nat) returns (k: nat)
    requires Placed(b) && (forall p <- layout :: p in b) && i < |Render(Battle(b, layout, initSide), layout)|
    ensures
      var acts, entry := Battle(b, layout, initSide), Render(Battle(b, layout, initSide), layout)[i];
      && k < |acts| && |AllEvents(acts[..k])| <= i < |AllEvents(acts[..k + 1])| && i < |AllEvents(acts)|
      && entry.event == AllEvents(acts)[i]
      && Shows(b, layout, entry.unitStates, Replay(how, ViewOf(b), AllEvents(acts[..k + 1])))
  {
    k := EntryListsBoard(how, b, layout, initSide, i);
    ListingShows(b, Battle(b, layout, initSide)[k].post, layout);
  }
}
