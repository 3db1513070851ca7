/**
 * The order in which units act on a tick: backend/src/game/engine.ts:101-122.
 * The comparator is a strict total order on the squares of a board, so any list of the
 * acting units that is sorted by it is the queue of module BattleSpec.
 */
module TurnOrder {
  import opened GameTypes
  import opened BattleSpec

  /** initSide first, then higher speed, then row, column and instance id. */
  predicate ActsBefore(a: UnitState, b: UnitState, initSide: Side) {
    if a.pos.side != b.pos.side then a.pos.side == initSide
    else if a.spd != b.spd then a.spd > b.spd
    else if Row(a.pos.slot) != Row(b.pos.slot) then Row(a.pos.slot) < Row(b.pos.slot)
    else if Col(a.pos.slot) != Col(b.pos.slot) then Col(a.pos.slot) < Col(b.pos.slot)
    else a.id < b.id
  }

  lemma ActsBeforeTotal(a: UnitState, b: UnitState, c: UnitState, initSide: Side)
    ensures ActsBefore(a, b, initSide) ==> !ActsBefore(b, a, initSide)
    ensures !ActsBefore(b, a, initSide) && !ActsBefore(c, b, initSide) ==> !ActsBefore(c, a, initSide)
  {
  }

  /** The same order on squares. */
  predicate Before(b: Board, p: Pos, q: Pos, initSide: Side) {
    if p.side != q.side then p.side == initSide
    else SpdAt(b, p) > SpdAt(b, q) || (SpdAt(b, p) == SpdAt(b, q) && p.slot < q.slot)
  }

  lemma ActsBeforeOnSquares(b: Board, p: Pos, q: Pos, initSide: Side)
    requires Placed(b) && p in b && q in b
    ensures ActsBefore(b[p], b[q], initSide) <==> Before(b, p, q, initSide)
  {
    assert p.slot == 3 * Row(p.slot) + Col(p.slot) && q.slot == 3 * Row(q.slot) + Col(q.slot);
  }

  ghost predicate Ascending(b: Board, queue: seq<Pos>, initSide: Side) {
    forall i, j | 0 <= i < j < |queue| :: Before(b, queue[i], queue[j], initSide)
  }

  lemma {:induction false} EnqueueAscending(b: Board, queue: seq<Pos>, p: Pos, initSide: Side)
    requires Ascending(b, queue, initSide)
    requires forall q <- queue :: q.side == p.side && q.slot < p.slot
    ensures Ascending(b, Enqueue(b, queue, p), initSide)
    ensures forall q :: q in Enqueue(b, queue, p) <==> q == p || q in queue
    decreases |queue|
  {
    if queue != [] && SpdAt(b, queue[0]) >= SpdAt(b, p) {
      EnqueueAscending(b, queue[1..], p, initSide);
      var rest := Enqueue(b, queue[1..], p);
      forall q <- rest ensures Before(b, queue[0], q, initSide) {
        if q != p {
          var k :| 0 <= k < |queue[1..]| && queue[1..][k] == q;
          assert Before(b, queue[0], queue[k + 1], initSide);
        }
      }
      assert queue == [queue[0]] + queue[1..];
    } else if queue != [] {
      forall q <- queue ensures Before(b, p, q, initSide) {
        var k :| 0 <= k < |queue| && queue[k] == q;
        assert k > 0 ==> Before(b, queue[0], queue[k], initSide);
      }
    }
  }

  lemma {:induction false} SideQueueAscending(b: Board, side: Side, tick: int, n: nat, initSide: Side)
    requires n <= 9
    ensures Ascending(b, SideQueue(b, side, tick, n), initSide)
    ensures forall q :: q in SideQueue(b, side, tick, n) <==> q.side == side && q.slot < n && Acts(b, q, tick)
  {
    if n > 0 {
      SideQueueAscending(b, side, tick, n - 1, initSide);
      var p := Pos(side, n - 1);
      if Acts(b, p, tick) {
        EnqueueAscending(b, SideQueue(b, side, tick, n - 1), p, initSide);
      }
    }
  }

  /** The queue of a tick lists the acting squares, each once, in the order of the comparator. */
  lemma ActingOrderAscending(b: Board, initSide: Side, tick: int)
    ensures Ascending(b, ActingOrder(b, initSide, tick), initSide)
    ensures forall q :: q in ActingOrder(b, initSide, tick) <==> Acts(b, q, tick)
  {
    SideQueueAscending(b, initSide, tick, 9, initSide);
    SideQueueAscending(b, initSide.Other(), tick, 9, initSide);
    var x, y := SideQueue(b, initSide, tick), SideQueue(b, initSide.Other(), tick);
    forall i, j | 0 <= i < j < |x + y| ensures Before(b, (x + y)[i], (x + y)[j], initSide) {
      if i < |x| <= j {
        assert x[i] in x && y[j - |x|] in y;
      }
    }
  }

  function First(queue: seq<Pos>): (r: Option<Pos>)
    ensures if r.None? then queue == [] else r.value in queue
  {
    if queue == [] then None else Some(queue[0])
  }

  lemma {:induction false} AscendingUnique(b: Board, x: seq<Pos>, y: seq<Pos>, initSide: Side)
    requires Ascending(b, x, initSide) && Ascending(b, y, initSide)
    requires forall q :: q in x <==> q in y
    ensures x == y
    decreases |x|
  {
    if x == [] {
      var none := First(y);
    } else {
      assert x[0] in y;
      var k :| 0 <= k < |y| && y[k] == x[0];
      assert y[0] in x;
      var m :| 0 <= m < |x| && x[m] == y[0];
      assert k > 0 ==> Before(b, y[0], y[k], initSide);
      assert m > 0 ==> Before(b, x[0], x[m], initSide);
      assert x[0] == y[0];
      forall q ensures q in x[1..] <==> q in y[1..] {
        TailHas(b, x, initSide, q);
        TailHas(b, y, initSide, q);
      }
      AscendingUnique(b, x[1..], y[1..], initSide);
      assert x == [x[0]] + x[1..] && y == [y[0]] + y[1..];
    }
  }

  lemma TailHas(b: Board, x: seq<Pos>, initSide: Side, q: Pos)
    requires x != [] && Ascending(b, x, initSide)
    ensures q in x[1..] <==> q in x && q != x[0]
  {
    if q in x[1..] {
      var k :| 0 <= k < |x[1..]| && x[1..][k] == q;
      assert Before(b, x[0], x[k + 1], initSide);
    }
    assert x == [x[0]] + x[1..];
  }

  /** Any duplicate-free list of the acting squares that the comparator leaves as it is. */
  lemma SortedIsActingOrder(b: Board, queue: seq<Pos>, initSide: Side, tick: int)
    requires Placed(b)
    requires forall q :: q in queue <==> Acts(b, q, tick)
    requires forall i, j | 0 <= i < j < |queue| :: queue[i] != queue[j]
    requires forall i, j | 0 <= i < j < |queue| ::
      queue[i] in b && queue[j] in b && !ActsBefore(b[queue[j]], b[queue[i]], initSide)
    ensures queue == ActingOrder(b, initSide, tick)
  {
    forall i, j | 0 <= i < j < |queue| ensures Before(b, queue[i], queue[j], initSide) {
      assert queue[i] in queue && queue[j] in queue;
      ActsBeforeOnSquares(b, queue[j], queue[i], initSide);
    }
    ActingOrderAscending(b, initSide, tick);
    AscendingUnique(b, queue, ActingOrder(b, initSide, tick), initSide);
  }
}
