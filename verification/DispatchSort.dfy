/** The sorted dispatch list of block/elevator.c: elv_dispatch_sort keeps it in
    one-way elevator order behind its last stop point. */
module DispatchSort {

  /** A request on the dispatch list: its first sector and the flags that count. */
  datatype Rq = Rq(id: nat, pos: nat, sectors: nat, write: bool, discard: bool, soft: bool, started: bool) {
    function End(): nat { pos + sectors }
    predicate Flagged() { soft || started }
  }

  /** A request that rq may not be put in front of. */
  predicate Stops(rq: Rq, p: Rq) { rq.discard != p.discard || rq.write != p.write || p.Flagged() }

  /** The sweep goes up from the boundary and then up again from sector 0: x is
      strictly before y. */
  predicate Lt(b: nat, x: nat, y: nat) { (x >= b && y < b) || ((x >= b <==> y >= b) && x < y) }

  predicate Le(b: nat, x: nat, y: nat) { (x >= b && y < b) || ((x >= b <==> y >= b) && x <= y) }

  /** Where the scan from the tail stops: rq goes in at this index. */
  function Spot(q: seq<Rq>, rq: Rq, b: nat, n: nat): (k: nat)
    requires n <= |q|
    ensures k <= n
    ensures forall i :: k <= i < n ==> !Stops(rq, q[i]) && Lt(b, rq.pos, q[i].pos)
    ensures k > 0 ==> Stops(rq, q[k - 1]) || !Lt(b, rq.pos, q[k - 1].pos)
  {
    if n == 0 || Stops(rq, q[n - 1]) || !Lt(b, rq.pos, q[n - 1].pos) then n else Spot(q, rq, b, n - 1)
  }

  function Put(q: seq<Rq>, k: nat, rq: Rq): (r: seq<Rq>)
    requires k <= |q|
    ensures |r| == |q| + 1
    ensures forall i :: 0 <= i < |r| ==> r[i] == if i < k then q[i] else if i == k then rq else q[i - 1]
  {
    q[..k] + [rq] + q[k..]
  }

  /** elv_dispatch_sort. */
  function Sort(q: seq<Rq>, rq: Rq, b: nat): seq<Rq> { Put(q, Spot(q, rq, b, |q|), rq) }

  // ----- the part behind the last stop point -----

  function StartOf(q: seq<Rq>, rq: Rq, n: nat): (s: nat)
    requires n <= |q|
    ensures s <= n && (forall i :: s <= i < n ==> !Stops(rq, q[i])) && (s > 0 ==> Stops(rq, q[s - 1]))
  {
    if n == 0 || Stops(rq, q[n - 1]) then n else StartOf(q, rq, n - 1)
  }

  /** The requests from here on are of one kind and none is a stop point. */
  function Start(q: seq<Rq>): (s: nat)
    ensures s <= |q|
  {
    if q == [] then 0 else StartOf(q, q[|q| - 1], |q|)
  }

  /** One-way elevator order behind the last stop point. */
  ghost predicate OrderedFrom(q: seq<Rq>, b: nat, s: nat) {
    forall i, j :: s <= i < j < |q| ==> Le(b, q[i].pos, q[j].pos)
  }

  ghost predicate Ordered(q: seq<Rq>, b: nat) { OrderedFrom(q, b, Start(q)) }

  lemma {:induction false} StartsLate(q: seq<Rq>, s: nat)
    requires s <= |q| && q != [] && (s > 0 ==> Stops(q[|q| - 1], q[s - 1]))
    ensures Start(q) >= s
  {
  }

  lemma {:induction false} OrderedLater(q: seq<Rq>, b: nat, s: nat)
    requires OrderedFrom(q, b, s) && q != [] && s <= |q| && (s > 0 ==> Stops(q[|q| - 1], q[s - 1]))
    ensures Ordered(q, b)
  {
    StartsLate(q, s);
  }

  lemma {:induction false} PutOrdered(q: seq<Rq>, b: nat, s: nat, k: nat, rq: Rq)
    requires OrderedFrom(q, b, s) && s <= k <= |q|
    requires k > s ==> Le(b, q[k - 1].pos, rq.pos)
    requires forall i :: k <= i < |q| ==> Lt(b, rq.pos, q[i].pos)
    ensures OrderedFrom(Put(q, k, rq), b, s)
  {
    var r := Put(q, k, rq);
    forall i, j | s <= i < j < |r| ensures Le(b, r[i].pos, r[j].pos) {
      if j == k { assert i < k - 1 ==> Le(b, q[i].pos, q[k - 1].pos); }
    }
  }

  /** The sort keeps the order, whatever is added. */
  lemma {:induction false} SortKeepsOrder(q: seq<Rq>, rq: Rq, b: nat)
    requires Ordered(q, b)
    ensures Ordered(Sort(q, rq, b), b)
  {
    var k := Spot(q, rq, b, |q|);
    var r := Put(q, k, rq);
    if q == [] || Stops(rq, q[|q| - 1]) {
      assert k == |q|;
      OrderedLater(r, b, k);
    } else {
      var s := Start(q);
      assert s <= k;
      PutOrdered(q, b, s, k, rq);
      OrderedLater(r, b, s);
    }
  }

  lemma {:induction false} PutOut(q: seq<Rq>, k: nat, rq: Rq, r: seq<Rq>)
    requires k <= |q| && r == Put(q, k, rq)
    ensures r[k] == rq && r[..k] + r[k + 1..] == q
  {
  }

  lemma {:induction false} DueBefore(q: seq<Rq>, b: nat, s: nat, k: nat, x: nat)
    requires OrderedFrom(q, b, s) && s < k <= |q| && !Lt(b, x, q[k - 1].pos)
    ensures forall i :: s <= i < k ==> Le(b, q[i].pos, x)
  {
    forall i | s <= i < k ensures Le(b, q[i].pos, x) {
      if i < k - 1 { assert Le(b, q[i].pos, q[k - 1].pos); }
    }
  }

  /** Where the request goes: behind every stop point, behind what is due before it
      or with it and ahead of what is due after it; the others keep their order. */
  lemma {:induction false} SortPlaces(q: seq<Rq>, rq: Rq, b: nat) returns (k: nat)
    requires Ordered(q, b)
    ensures k <= |q| && Sort(q, rq, b)[k] == rq
    ensures Sort(q, rq, b)[..k] + Sort(q, rq, b)[k + 1..] == q
    ensures forall i :: k <= i < |q| ==> !Stops(rq, q[i]) && Lt(b, rq.pos, q[i].pos)
    ensures forall i :: (if q == [] || Stops(rq, q[|q| - 1]) then |q| else Start(q)) <= i < k ==>
      Le(b, q[i].pos, rq.pos)
  {
    k := Spot(q, rq, b, |q|);
    PutOut(q, k, rq, Sort(q, rq, b));
    if q != [] && !Stops(rq, q[|q| - 1]) {
      var s := Start(q);
      if s < k {
        assert !Stops(rq, q[k - 1]);
        DueBefore(q, b, s, k, rq.pos);
      }
    }
  }

  // ----- what the order means -----

  /** How far the sweep has to go from the boundary to sector x on a disk of m sectors. */
  function Sweep(b: nat, x: nat, m: nat): int { if x >= b then x - b else x - b + m }

  /** The order is that in which one sweep up from the boundary, round the end of the
      disk, meets the sectors. */
  lemma {:induction false} OrderIsSweep(b: nat, x: nat, y: nat, m: nat)
    requires b < m && x < m && y < m
    ensures Le(b, x, y) <==> Sweep(b, x, m) <= Sweep(b, y, m)
    ensures Lt(b, x, y) <==> Sweep(b, x, m) < Sweep(b, y, m)
  {
  }

  /** rq may go ahead of p: p is no barrier and not started, both are discards or neither is,
      both go the same way, and the sweep meets rq first. */
  predicate MayPass(rq: Rq, p: Rq, b: nat, m: nat) {
    && !p.soft && !p.started && rq.discard == p.discard && rq.write == p.write
    && Sweep(b, rq.pos, m) < Sweep(b, p.pos, m)
  }

  /** elv_dispatch_sort puts rq ahead of just the last requests of the list that it may all pass. */
  lemma {:induction false} SortPasses(q: seq<Rq>, rq: Rq, b: nat, m: nat, k: nat)
    requires k <= |q| && b < m && rq.pos < m && forall i :: 0 <= i < |q| ==> q[i].pos < m
    requires forall i :: k <= i < |q| ==> MayPass(rq, q[i], b, m)
    requires k > 0 ==> !MayPass(rq, q[k - 1], b, m)
    ensures Sort(q, rq, b) == q[..k] + [rq] + q[k..]
  {
    forall i | 0 <= i < |q| ensures MayPass(rq, q[i], b, m) <==> !Stops(rq, q[i]) && Lt(b, rq.pos, q[i].pos) {
      OrderIsSweep(b, rq.pos, q[i].pos, m);
    }
    var s := Spot(q, rq, b, |q|);
    assert s > 0 ==> !MayPass(rq, q[s - 1], b, m);
    assert k > 0 ==> Stops(rq, q[k - 1]) || !Lt(b, rq.pos, q[k - 1].pos);
    assert s == k;
  }

  // ----- a boundary that moves under a queue -----

  predicate Parts(b: nat, x: nat, y: nat) { x >= b > y }

  /** Both boundaries part the requests behind the last stop point alike. */
  ghost predicate PartsAlike(q: seq<Rq>, b: nat, c: nat) {
    forall i, j :: Start(q) <= i < |q| && Start(q) <= j < |q| ==>
      (Parts(b, q[i].pos, q[j].pos) <==> Parts(c, q[i].pos, q[j].pos))
  }

  /** When end_sector changes, the list stays in order exactly when the new boundary
      parts it as the old one did. */
  lemma {:induction false} BoundaryMoves(q: seq<Rq>, b: nat, c: nat)
    requires Ordered(q, b)
    ensures Ordered(q, c) <==> PartsAlike(q, b, c)
  {
    var s := Start(q);
    if PartsAlike(q, b, c) {
      forall i, j | s <= i < j < |q| ensures Le(c, q[i].pos, q[j].pos) {
        assert Le(b, q[i].pos, q[j].pos);
        assert Parts(b, q[i].pos, q[j].pos) <==> Parts(c, q[i].pos, q[j].pos);
        assert Parts(b, q[j].pos, q[i].pos) <==> Parts(c, q[j].pos, q[i].pos);
      }
    }
    if Ordered(q, c) {
      forall i, j | s <= i < |q| && s <= j < |q|
        ensures Parts(b, q[i].pos, q[j].pos) <==> Parts(c, q[i].pos, q[j].pos)
      {
        if i < j { assert Le(b, q[i].pos, q[j].pos) && Le(c, q[i].pos, q[j].pos); }
        if j < i { assert Le(b, q[j].pos, q[i].pos) && Le(c, q[j].pos, q[i].pos); }
      }
    }
  }

  // ----- the other changes to the list -----

  /** What __elv_add_request does to end_sector when the request is a barrier already. */
  function Boundary(rq: Rq, fs: bool, b: nat): nat { if rq.soft && (fs || rq.discard) then rq.End() else b }

  function AddFront(q: seq<Rq>, rq: Rq): seq<Rq> { [rq.(soft := true)] + q }

  function AddBack(q: seq<Rq>, rq: Rq): seq<Rq> { q + [rq.(soft := true)] }

  lemma {:induction false} FrontStart(q: seq<Rq>, rq: Rq)
    requires q != []
    ensures Start(AddFront(q, rq)) == Start(q) + 1
  {
    var r, last := AddFront(q, rq), q[|q| - 1];
    var s, t := Start(r), Start(q);
    assert r[|r| - 1] == last;
    assert forall i :: 0 < i < |r| ==> r[i] == q[i - 1];
    assert s > t by { assert t > 0 ==> Stops(last, r[t]); assert Stops(last, r[0]); }
    assert Stops(last, r[s - 1]);
  }

  lemma {:induction false} FrontShift(q: seq<Rq>, rq: Rq, b: nat, r: seq<Rq>)
    requires q != [] && r == AddFront(q, rq)
    ensures Ordered(r, b) <==> Ordered(q, b)
  {
    FrontStart(q, rq);
    assert forall i :: 0 < i < |r| ==> r[i] == q[i - 1];
    assert forall i :: 0 <= i < |q| ==> q[i] == r[i + 1];
  }

  /** A request put at the head of the list, as a requeued one is, keeps the order
      exactly when it leaves the boundary alone or moves it harmlessly. */
  lemma {:induction false} FrontKeepsOrder(q: seq<Rq>, rq: Rq, fs: bool, b: nat)
    requires Ordered(q, b)
    ensures Ordered(AddFront(q, rq), Boundary(rq, fs, b)) <==> q == [] || PartsAlike(q, b, Boundary(rq, fs, b))
  {
    var c := Boundary(rq, fs, b);
    BoundaryMoves(q, b, c);
    if q != [] { FrontShift(q, rq, c, AddFront(q, rq)); }
  }

  /** A barrier that is requeued moves the boundary into the middle of what waits. */
  lemma RequeueBreaksOrder() returns (q: seq<Rq>, rq: Rq, b: nat)
    ensures Ordered(q, b) && rq.soft && !Ordered(AddFront(q, rq), Boundary(rq, true, b))
  {
    q := [Rq(0, 100, 8, false, false, false, false), Rq(1, 200, 8, false, false, false, false)];
    rq, b := Rq(2, 142, 8, false, false, true, false), 0;
    assert Start(q) == 0 by {
      var n := StartOf(q, q[1], 2);
      assert n > 0 ==> Stops(q[1], q[n - 1]);
    }
    FrontKeepsOrder(q, rq, true, b);
    assert Parts(150, q[1].pos, q[0].pos) && !Parts(0, q[1].pos, q[0].pos);
  }

  /** Behind a barrier at the tail there is nothing to order. */
  lemma {:induction false} BackKeepsOrder(q: seq<Rq>, rq: Rq, b: nat)
    ensures Ordered(AddBack(q, rq), b)
  {
    var r := AddBack(q, rq);
    OrderedLater(r, b, |r|);
  }

  /** A request that is put at the tail as it is, like the flush of blk_kick_flush. */
  function AddTail(q: seq<Rq>, rq: Rq): seq<Rq> { q + [rq] }

  /** It belongs there: it is behind a stop point, is one itself, or is due no
      earlier than the last. */
  predicate BelongsLast(q: seq<Rq>, rq: Rq, b: nat) {
    q == [] || rq.Flagged() || Stops(rq, q[|q| - 1]) || Le(b, q[|q| - 1].pos, rq.pos)
  }

  lemma {:induction false} TailStart(q: seq<Rq>, rq: Rq, r: seq<Rq>)
    requires q != [] && !rq.Flagged() && !Stops(rq, q[|q| - 1]) && r == AddTail(q, rq)
    ensures Start(r) == Start(q) <= |q| - 1
  {
    var s, t := Start(q), Start(r);
    assert forall i :: 0 <= i < |q| ==> r[i] == q[i];
    assert forall p :: Stops(rq, p) == Stops(q[|q| - 1], p);
    assert t > 0 ==> Stops(rq, r[t - 1]);
    assert s > 0 ==> Stops(rq, r[s - 1]);
  }

  /** The tail insertion keeps the order exactly when the request belongs there. */
  lemma {:induction false} TailKeepsOrder(q: seq<Rq>, rq: Rq, b: nat)
    requires Ordered(q, b)
    ensures Ordered(AddTail(q, rq), b) <==> BelongsLast(q, rq, b)
  {
    var r := AddTail(q, rq);
    if q == [] || rq.Flagged() || Stops(rq, q[|q| - 1]) {
      OrderedLater(r, b, if rq.Flagged() then |r| else |q|);
    } else {
      TailStart(q, rq, r);
      TailOrder(q, rq, b, Start(q), r);
    }
  }

  lemma {:induction false} TailOrder(q: seq<Rq>, rq: Rq, b: nat, s: nat, r: seq<Rq>)
    requires OrderedFrom(q, b, s) && s < |q| && r == AddTail(q, rq)
    ensures OrderedFrom(r, b, s) <==> Le(b, q[|q| - 1].pos, rq.pos)
  {
    var n := |q| - 1;
    if Le(b, q[n].pos, rq.pos) {
      forall i, j | s <= i < j < |r| ensures Le(b, r[i].pos, r[j].pos) {
        if j == |q| && i < n { assert Le(b, q[i].pos, q[n].pos); }
      }
    } else {
      assert r[n] == q[n] && r[n + 1] == rq;
    }
  }

  /** The flush request: a write at the last sector there is, not marked in any way. */
  const NO_SECTOR: nat := 0xFFFF_FFFF_FFFF_FFFF

  function FlushRq(id: nat): Rq { Rq(id, NO_SECTOR, 0, true, false, false, false) }

  /** The flush keeps the order exactly when it is behind a stop point or behind the
      requests of the sweep that goes up from the boundary. */
  lemma {:induction false} FlushKeepsOrder(q: seq<Rq>, id: nat, b: nat)
    requires Ordered(q, b) && b <= NO_SECTOR && forall i :: 0 <= i < |q| ==> q[i].pos <= NO_SECTOR
    ensures Ordered(AddTail(q, FlushRq(id)), b) <==>
            q == [] || Stops(FlushRq(id), q[|q| - 1]) || q[|q| - 1].pos >= b
  {
    TailKeepsOrder(q, FlushRq(id), b);
  }

  /** Two writes parted by the boundary, and a flush behind them. */
  lemma FlushBreaksOrder() returns (q: seq<Rq>, b: nat)
    ensures Ordered(q, b) && !Ordered(AddTail(q, FlushRq(2)), b)
  {
    q := [Rq(0, 200, 8, true, false, false, false), Rq(1, 50, 8, true, false, false, false)];
    b := 100;
    assert Ordered(q, b);
    FlushKeepsOrder(q, 2, b);
  }

  /** Starting and taking the head keeps the order of the rest. */
  lemma {:induction false} TakeKeepsOrder(q: seq<Rq>, b: nat)
    requires Ordered(q, b) && q != []
    ensures Ordered(q[1..], b) && Ordered(q[0 := q[0].(started := true)], b)
  {
    var r, t := q[1..], q[0 := q[0].(started := true)];
    if |q| > 1 {
      var s := Start(q);
      OrderedLater(r, b, if s > 0 then s - 1 else 0);
      OrderedLater(t, b, s);
    } else {
      OrderedLater(t, b, 1);
    }
  }

  /** The dispatch list and end_sector of a request queue. */
  class DispatchList {
    var queue: seq<Rq>
    var end: nat

    constructor ()
      ensures queue == [] && end == 0
    {
      queue, end := [], 0;
    }

    /** The tests of elv_dispatch_sort's loop: rq goes in front of p. */
    method GoesBefore(rq: Rq, p: Rq) returns (go: bool)
      ensures go <==> !Stops(rq, p) && Lt(end, rq.pos, p.pos)
    {
      if rq.discard != p.discard { return false; }
      if rq.write != p.write { return false; }
      if p.Flagged() { return false; }
      if rq.pos >= end {
        if p.pos < end { return true; }
      } else {
        if p.pos >= end { return false; }
      }
      go := rq.pos < p.pos;
    }

    /** The list part of elv_dispatch_sort. */
    method DispatchSorted(rq: Rq)
      modifies this`queue
      ensures queue == Sort(old(queue), rq, end)
      ensures Ordered(old(queue), end) ==> Ordered(queue, end)
    {
      if Ordered(queue, end) { SortKeepsOrder(queue, rq, end); }
      var entry := FindEntry(rq);
      queue := queue[..entry] + [rq] + queue[entry..];
    }

    method FindEntry(rq: Rq) returns (entry: nat)
      ensures entry == Spot(queue, rq, end, |queue|)
    {
      entry := |queue|;
      while entry > 0
        invariant entry <= |queue| && Spot(queue, rq, end, |queue|) == Spot(queue, rq, end, entry)
      {
        var go := GoesBefore(rq, queue[entry - 1]);
        if !go { break; }
        entry := entry - 1;
      }
    }

    /** __elv_add_request at the front of the list, which is also the end of elv_requeue_request. */
    method InsertFront(rq: Rq, fs: bool)
      modifies this
      ensures queue == AddFront(old(queue), rq) && end == Boundary(rq, fs, old(end))
      ensures queue == [rq.(soft := true)] + old(queue)
      ensures end == if rq.soft && (fs || rq.discard) then rq.pos + rq.sectors else old(end)
      ensures Ordered(old(queue), old(end)) ==>
                (Ordered(queue, end) <==> old(queue) == [] || PartsAlike(old(queue), old(end), end))
    {
      if Ordered(queue, end) { FrontKeepsOrder(queue, rq, fs, end); }
      if rq.soft && (fs || rq.discard) { end := rq.End(); }
      queue := [rq.(soft := true)] + queue;
    }

    /** __elv_add_request at the back, once the elevator is drained. */
    method InsertBack(rq: Rq, fs: bool)
      modifies this
      ensures queue == AddBack(old(queue), rq) && end == Boundary(rq, fs, old(end))
      ensures queue == old(queue) + [rq.(soft := true)]
      ensures end == if rq.soft && (fs || rq.discard) then rq.pos + rq.sectors else old(end)
      ensures Ordered(queue, end)
    {
      if rq.soft && (fs || rq.discard) { end := rq.End(); }
      BackKeepsOrder(queue, rq, end);
      queue := queue + [rq.(soft := true)];
    }

    /** list_add_tail of the flush in blk_kick_flush. */
    method AppendFlush(id: nat)
      modifies this`queue
      ensures queue == AddTail(old(queue), FlushRq(id))
      ensures Ordered(old(queue), end) ==> (Ordered(queue, end) <==> BelongsLast(old(queue), FlushRq(id), end))
    {
      if Ordered(queue, end) { TailKeepsOrder(queue, FlushRq(id), end); }
      queue := queue + [FlushRq(id)];
    }

    /** The driver starts the request at the head, in blk_peek_request. */
    method StartHead()
      requires queue != []
      modifies this`queue
      ensures queue == old(queue)[0 := old(queue)[0].(started := true)]
      ensures Ordered(old(queue), end) ==> Ordered(queue, end)
    {
      if Ordered(queue, end) { TakeKeepsOrder(queue, end); }
      queue := queue[0 := queue[0].(started := true)];
    }

    /** The driver takes it off, in blk_dequeue_request. */
    method DequeueHead() returns (rq: Rq)
      requires queue != []
      modifies this`queue
      ensures [rq] + queue == old(queue)
      ensures Ordered(old(queue), end) ==> Ordered(queue, end)
    {
      if Ordered(queue, end) { TakeKeepsOrder(queue, end); }
      rq := queue[0];
      queue := queue[1..];
    }
  }
}
