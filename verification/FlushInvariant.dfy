/** The invariant of every reachable state of the FLUSH/FUA sequencer, and its
    preservation by every step. */
module FlushInvariant {
  import opened FlushModel
  import opened ListOps

  // ----- one request -----

  predicate OrderOk(caps: Caps, o: Order) {
    && o.policy == Policy(caps, o.wantFlush, o.wantFua, o.sectors)
    && o.devFua == (caps.fua && o.wantFua)
    && (o.wantFua ==> o.sectors != 0)
  }

  /** Steps the policy leaves out count as complete from the start. */
  predicate BitsOk(r: Request) {
    var p := r.order.policy;
    && (r.inSeq ==> !r.done && (p.pre || p.post))
    && (r.inSeq ==> (p.pre || r.flushed.pre) && (p.data || r.flushed.data) && (p.post || r.flushed.post))
    && (r.inSeq && p.post ==> !r.flushed.post)
    && (r.inSeq && p.data && r.flushed.data ==> r.flushed.pre)
    && (!r.done && !r.inSeq ==> p == Bits(false, true, false))
  }

  /** Steps complete in order: DATA after PREFLUSH, POSTFLUSH after both. */
  predicate InOrder(r: Request, bits: Bits) {
    && (bits.data && r.order.policy.data ==> r.flushed.pre)
    && (bits.post && r.order.policy.post ==> r.flushed.pre && r.flushed.data)
  }

  /** A bio is ended exactly once, when its request is done, and tells of every error. */
  predicate TransferOk(r: Request) {
    var x := r.xfer;
    && (x.linked ==> r.order.hasBio)
    && (!r.done && !r.inSeq ==> x.linked == r.order.hasBio)
    && (!r.done && r.order.hasBio ==> x.size == x.bytes && (x.linked || x.bytes == 0) && x.ended == [])
    && (!r.order.hasBio ==> x.uptodate && x.ended == [])
    && (r.done && r.order.hasBio ==> x.ended == [!x.uptodate] && (r.error ==> !x.uptodate))
  }

  predicate RequestOk(caps: Caps, r: Request) { OrderOk(caps, r.order) && BitsOk(r) && TransferOk(r) }

  ghost predicate RequestsOk(caps: Caps, rqs: seq<Request>) {
    caps.Legal() && forall id :: 0 <= id < |rqs| ==> RequestOk(caps, rqs[id])
  }

  lemma NextRequestOk(caps: Caps, r: Request, bits: Bits, err: bool)
    requires RequestOk(caps, r) && r.inSeq && InOrder(r, bits)
    ensures var e := NextRequest(r, bits, err);
      && RequestOk(caps, e) && e.order == r.order
      && (if NextPhase(r, bits, err) == Done
          then e.done && !e.inSeq && e.error == err && (!err ==> e.xfer.uptodate == r.xfer.uptodate)
          else e == r.(flushed := r.flushed.Or(bits)))
  {
  }

  lemma UpdateOk(caps: Caps, r: Request, err: bool, n: nat)
    requires RequestOk(caps, r) && !r.done
    ensures var (x, more) := Update(r.xfer, r.inSeq, err, n);
      && (x.uptodate ==> r.xfer.uptodate)
      && (r.inSeq || more ==> TransferOk(r.(xfer := x)))
      && (!more && !r.inSeq ==> TransferOk(r.(xfer := x, done := true, error := err)))
      && x.bytes <= r.xfer.bytes && (more && n != 0 ==> x.bytes < r.xfer.bytes)
  {
  }

  // ----- lists -----

  /** How often a request occurs on the three lists together. */
  ghost function Tally(l: Lists, id: nat): nat {
    multiset(l.queue0)[id] + multiset(l.queue1)[id] + multiset(l.data)[id]
  }

  lemma InTally(l: Lists, id: nat)
    ensures Tally(l, id) == 0 <==> id !in l.queue0 && id !in l.queue1 && id !in l.data
  {
    InCount(l.queue0, id);
    InCount(l.queue1, id);
    InCount(l.data, id);
  }

  lemma UnlinkTally(l: Lists, id: nat, y: nat)
    requires Tally(l, id) <= 1
    ensures Tally(l.Unlink(id), y) == if y == id then 0 else Tally(l, y)
    ensures y in l.Unlink(id).queue0 <==> y in l.queue0 && y != id
    ensures y in l.Unlink(id).queue1 <==> y in l.queue1 && y != id
    ensures y in l.Unlink(id).data <==> y in l.data && y != id
  {
    WithoutMember(l.queue0, id, y);
    WithoutMember(l.queue1, id, y);
    WithoutMember(l.data, id, y);
  }

  lemma AddTally(l: Lists, idx: bool, id: nat, y: nat)
    ensures Tally(l.AddData(id), y) == Tally(l.AddFlush(idx, id), y) == Tally(l, y) + if y == id then 1 else 0
  {
  }

  predicate WaitsForFlush(r: Request) { r.inSeq && CurSeq(r.flushed) in {PreFlush, PostFlush} }

  predicate RunsData(r: Request) { r.inSeq && CurSeq(r.flushed) == Data }

  /** Every sequenced request, except possibly `x`, is on exactly one list. */
  ghost predicate CountedBut(l: Lists, rqs: seq<Request>, x: int) {
    forall id: nat :: id != x ==> Tally(l, id) == if id < |rqs| && rqs[id].inSeq then 1 else 0
  }

  /** It is the list its sequence bits dictate. */
  ghost predicate PhasedBut(l: Lists, rqs: seq<Request>, x: int) {
    && (forall id :: id in l.queue0 && id != x ==> id < |rqs| && WaitsForFlush(rqs[id]))
    && (forall id :: id in l.queue1 && id != x ==> id < |rqs| && WaitsForFlush(rqs[id]))
    && (forall id :: id in l.data && id != x ==> id < |rqs| && RunsData(rqs[id]))
  }

  ghost predicate Placed(l: Lists, rqs: seq<Request>) { CountedBut(l, rqs, -1) && PhasedBut(l, rqs, -1) }

  /** A request off every list whose new bits put it on the list it is added to. */
  ghost predicate Detached(l: Lists, rqs: seq<Request>, id: nat) {
    id < |rqs| && CountedBut(l, rqs, id) && PhasedBut(l, rqs, id) && Tally(l, id) <= 1
  }

  lemma UnlinkDetached(l: Lists, rqs: seq<Request>, id: nat)
    requires Detached(l, rqs, id)
    ensures var off := l.Unlink(id);
      Detached(off, rqs, id) && Tally(off, id) == 0 && PhasedBut(off, rqs, -1)
  {
    var off := l.Unlink(id);
    forall y: nat
      ensures Tally(off, y) == if y == id then 0 else Tally(l, y)
      ensures y in off.queue0 ==> y in l.queue0 && y != id
      ensures y in off.queue1 ==> y in l.queue1 && y != id
      ensures y in off.data ==> y in l.data && y != id
    {
      UnlinkTally(l, id, y);
    }
  }

  lemma PlaceFlush(off: Lists, rqs: seq<Request>, id: nat, r: Request, idx: bool)
    requires Detached(off, rqs, id) && Tally(off, id) == 0 && PhasedBut(off, rqs, -1) && WaitsForFlush(r)
    ensures Placed(off.AddFlush(idx, id), rqs[id := r])
  {
    forall y: nat { AddTally(off, idx, id, y); }
    InTally(off, id);
  }

  lemma PlaceData(off: Lists, rqs: seq<Request>, id: nat, r: Request)
    requires Detached(off, rqs, id) && Tally(off, id) == 0 && PhasedBut(off, rqs, -1) && RunsData(r)
    ensures Placed(off.AddData(id), rqs[id := r])
  {
    forall y: nat { AddTally(off, true, id, y); }
    InTally(off, id);
  }

  lemma PlaceNone(off: Lists, rqs: seq<Request>, id: nat, r: Request)
    requires Detached(off, rqs, id) && Tally(off, id) == 0 && PhasedBut(off, rqs, -1) && !r.inSeq
    ensures Placed(off, rqs[id := r])
  {
    InTally(off, id);
  }

  /** blk_flush_complete_seq puts the request where its new bits dictate. */
  lemma RoutePlaced(st: State, id: nat, bits: Bits, err: bool)
    requires Detached(st.lists, st.rqs, id) && st.rqs[id].inSeq
    ensures var st' := Route(st, id, bits, err); Placed(st'.lists, st'.rqs)
  {
    var r := NextRequest(st.rqs[id], bits, err);
    RehomePlaced(st.lists, st.rqs, id, r, NextPhase(st.rqs[id], bits, err), st.pendingIdx);
  }

  lemma RehomePlaced(l: Lists, rqs: seq<Request>, id: nat, r: Request, p: Phase, idx: bool)
    requires Detached(l, rqs, id)
    requires if p == Done then !r.inSeq else r.inSeq && CurSeq(r.flushed) == p
    ensures Placed(l.Rehome(p, id, idx), rqs[id := r])
  {
    UnlinkDetached(l, rqs, id);
    var off := l.Unlink(id);
    match p
    case Done => PlaceNone(off, rqs, id, r);
    case Data => PlaceData(off, rqs, id, r);
    case _ => PlaceFlush(off, rqs, id, r, idx);
  }

  lemma RouteRequests(st: State, id: nat, bits: Bits, err: bool)
    requires id < |st.rqs| && RequestsOk(st.caps, st.rqs) && st.rqs[id].inSeq && InOrder(st.rqs[id], bits)
    ensures var st' := Route(st, id, bits, err); RequestsOk(st.caps, st'.rqs)
  {
    NextRequestOk(st.caps, st.rqs[id], bits, err);
  }

  // ----- indexes, lists and the flush in flight -----

  /** The two indexes differ exactly while a flush is in flight, and then its
      list is not empty; otherwise the list that is not pending is empty. */
  predicate HalfShape(st: State) {
    && (st.InFlight() ==> st.Running() != [])
    && (!st.InFlight() ==> st.lists.Queue(!st.pendingIdx) == [])
    && (st.delayed ==> st.InFlight())
  }

  /** Requests wait for a flush that is not in flight only while DATA is. */
  predicate NoStall(st: State) {
    !st.InFlight() && st.Pending() != [] ==> st.lists.data != []
  }

  predicate Shape(st: State) { HalfShape(st) && NoStall(st) }

  lemma RehomeOther(l: Lists, p: Phase, id: nat, idx: bool)
    requires id !in l.Queue(!idx)
    ensures l.Rehome(p, id, idx).Queue(!idx) == l.Queue(!idx)
  {
    WithoutAbsent(l.Queue(!idx), id);
  }

  lemma RouteShape(st: State, id: nat, bits: Bits, err: bool)
    requires HalfShape(st) && id < |st.rqs| && id !in st.lists.queue0 && id !in st.lists.queue1
    ensures HalfShape(Route(st, id, bits, err))
  {
    RehomeOther(st.lists, NextPhase(st.rqs[id], bits, err), id, st.pendingIdx);
  }

  lemma KickShape(st: State)
    requires HalfShape(st)
    ensures Shape(Kick(st))
  {
  }

  // ----- the dispatch list and the driver -----

  function Load(head: seq<Item>, driver: set<Item>, it: Item): nat {
    multiset(head)[it] + if it in driver then 1 else 0
  }

  /** The request's DATA is on the dispatch list or at the driver. */
  predicate Executing(r: Request) { !r.done && (r.inSeq ==> CurSeq(r.flushed) == Data) }

  ghost predicate DataHeldBut(st: State, x: int) {
    forall id: nat :: id != x ==>
      Load(st.head, st.driver, DataItem(id)) == if id < |st.rqs| && Executing(st.rqs[id]) then 1 else 0
  }

  predicate FlushHeld(st: State) {
    Load(st.head, st.driver, FlushItem) == if st.InFlight() then 1 else 0
  }

  ghost predicate Held(st: State) { DataHeldBut(st, -1) && FlushHeld(st) }

  lemma KickHeld(st: State)
    requires Held(st)
    ensures Held(Kick(st))
  {
    forall it | it != FlushItem
      ensures Load(st.head + [FlushItem], st.driver, it) == Load(st.head, st.driver, it)
    {
    }
  }

  lemma RouteHeld(st: State, id: nat, bits: Bits, err: bool)
    requires id < |st.rqs| && DataHeldBut(st, id) && FlushHeld(st)
    requires Load(st.head, st.driver, DataItem(id)) == 0 && st.rqs[id].inSeq && !st.rqs[id].done
    ensures Held(Route(st, id, bits, err))
  {
    var st' := Route(st, id, bits, err);
    forall it
      ensures Load([DataItem(id)] + st.head, st.driver, it)
           == Load(st.head, st.driver, it) + if it == DataItem(id) then 1 else 0
    {
    }
    assert Executing(st'.rqs[id]) <==> NextPhase(st.rqs[id], bits, err) == Data;
  }
}
