/** Every step of the FLUSH/FUA sequencer preserves its invariant. */
module FlushSteps {
  import opened FlushModel
  import opened ListOps
  import opened FlushInvariant
  import opened FlushDurability

  /** Holds in every reachable state. */
  ghost predicate Inv(st: State) {
    && Placed(st.lists, st.rqs) && RequestsOk(st.caps, st.rqs)
    && Shape(st) && Held(st) && Durable(st)
  }

  /** A request about to be routed by blk_flush_complete_seq, outside flush_end_io. */
  ghost predicate Ready(st: State, id: nat, bits: Bits, err: bool) {
    && Detached(st.lists, st.rqs, id) && id !in st.lists.queue0 && id !in st.lists.queue1
    && RequestsOk(st.caps, st.rqs) && st.rqs[id].inSeq && InOrder(st.rqs[id], bits)
    && HalfShape(st) && DataHeldBut(st, id) && FlushHeld(st)
    && Load(st.head, st.driver, DataItem(id)) == 0
    && Durable(st) && Justified(st.dev, id, st.rqs[id], bits, err)
  }

  lemma RouteDurable(st: State, id: nat, bits: Bits, err: bool)
    requires Ready(st, id, bits, err)
    ensures Durable(Route(st, id, bits, err))
  {
    var st' := Route(st, id, bits, err);
    RouteBacked(st, id, bits, err);
    if st.InFlight() {
      RehomeOther(st.lists, NextPhase(st.rqs[id], bits, err), id, st.pendingIdx);
      assert st'.Running() == st.Running();
      SettleFrame(st.dev.covered, st.Running(), st.rqs, id, NextRequest(st.rqs[id], bits, err));
    }
  }

  lemma CompleteKeeps(st: State, id: nat, bits: Bits, err: bool)
    requires Ready(st, id, bits, err)
    ensures Inv(CompleteSeq(st, id, bits, err))
  {
    var mid := Route(st, id, bits, err);
    assert Placed(mid.lists, mid.rqs) by { RoutePlaced(st, id, bits, err); }
    assert RequestsOk(mid.caps, mid.rqs) by { RouteRequests(st, id, bits, err); }
    assert HalfShape(mid) by { RouteShape(st, id, bits, err); }
    assert Held(mid) by { RouteHeld(st, id, bits, err); }
    assert Durable(mid) by { RouteDurable(st, id, bits, err); }
    KickKeeps(mid);
  }

  lemma KickKeeps(st: State)
    requires Placed(st.lists, st.rqs) && RequestsOk(st.caps, st.rqs) && HalfShape(st) && Held(st) && Durable(st)
    ensures Inv(Kick(st))
  {
    KickShape(st);
    KickHeld(st);
    KickDurable(st);
  }

  // ----- blk_insert_flush -----

  /** A new request changes nothing for the ones already there. */
  lemma Extend(st: State, r: Request)
    requires Inv(st) && RequestOk(st.caps, r) && Backed(st.dev, |st.rqs|, r)
    ensures var st' := st.(rqs := st.rqs + [r]);
      && Detached(st'.lists, st'.rqs, |st.rqs|) && Tally(st.lists, |st.rqs|) == 0
      && RequestsOk(st'.caps, st'.rqs) && Durable(st') && DataHeldBut(st', |st.rqs|)
      && Load(st.head, st.driver, DataItem(|st.rqs|)) == 0
  {
    var id := |st.rqs|;
    var st' := st.(rqs := st.rqs + [r]);
    assert Durable(st') by {
      assert AllBacked(st'.dev, st'.rqs);
      if st.InFlight() {
        assert Tally(st.lists, id) == 0;
        InTally(st.lists, id);
        assert AllSettle(st.dev.covered, st.Running(), st'.rqs);
      }
    }
    assert Detached(st'.lists, st'.rqs, id) by { assert Tally(st.lists, id) == 0; }
  }

  lemma InsertKeeps(st: State, fl: bool, fua: bool, sectors: nat, hasBio: bool)
    requires Inv(st) && (fua ==> sectors != 0)
    ensures Inv(Insert(st, fl, fua, sectors, hasBio))
  {
    var rq := NewRequest(st, fl, fua, sectors, hasBio);
    var policy := rq.order.policy;
    if policy == Bits(false, false, false) {
      InsertDone(st, EndEmpty(rq));
    } else if policy.data && !policy.pre && !policy.post {
      InsertPlain(st, rq);
    } else {
      InsertSequenced(st, rq.(inSeq := true));
    }
  }

  lemma InsertDone(st: State, r: Request)
    requires Inv(st) && RequestOk(st.caps, r) && Backed(st.dev, |st.rqs|, r) && r.done && !r.inSeq
    ensures Inv(st.(rqs := st.rqs + [r]))
  {
    Extend(st, r);
    InTally(st.lists, |st.rqs|);
  }

  lemma InsertPlain(st: State, r: Request)
    requires Inv(st) && RequestOk(st.caps, r) && Backed(st.dev, |st.rqs|, r) && !r.done && !r.inSeq
    ensures Inv(st.(rqs := st.rqs + [r], head := st.head + [DataItem(|st.rqs|)]))
  {
    var id := |st.rqs|;
    var ext := st.(rqs := st.rqs + [r]);
    assert Placed(ext.lists, ext.rqs) by { Extend(st, r); InTally(st.lists, id); }
    assert Durable(ext) && RequestsOk(ext.caps, ext.rqs) by { Extend(st, r); }
    assert Held(ext.(head := st.head + [DataItem(id)])) by { Extend(st, r); PushHeld(ext, id); }
    assert st.(rqs := st.rqs + [r], head := st.head + [DataItem(id)]) == ext.(head := st.head + [DataItem(id)]);
  }

  lemma PushHeld(st: State, id: nat)
    requires id < |st.rqs| && DataHeldBut(st, id) && FlushHeld(st) && Executing(st.rqs[id])
    requires Load(st.head, st.driver, DataItem(id)) == 0
    ensures Held(st.(head := st.head + [DataItem(id)]))
  {
    var it := DataItem(id);
    forall x
      ensures Load(st.head + [it], st.driver, x) == Load(st.head, st.driver, x) + if x == it then 1 else 0
    {
    }
  }

  lemma InsertSequenced(st: State, r: Request)
    requires Inv(st) && r.inSeq && !r.done && r.flushed == Bits(false, false, false) && OrderOk(st.caps, r.order)
    requires r.order.before == st.dev.written && (r.order.policy.pre || r.order.policy.post)
    requires r.xfer == Transfer(SECTOR * r.order.sectors, r.order.hasBio, SECTOR * r.order.sectors, true, [])
    ensures Inv(CompleteSeq(st.(rqs := st.rqs + [r]), |st.rqs|, r.order.policy.Complement(), false))
  {
    // The steps the policy leaves out count as complete: add them first.
    var r' := r.(flushed := r.order.policy.Complement());
    assert RequestOk(st.caps, r');
    var mid := st.(rqs := st.rqs + [r']);
    var none := Bits(false, false, false);
    assert Ready(mid, |st.rqs|, none, false) by {
      Extend(st, r');
      InTally(st.lists, |st.rqs|);
    }
    CompleteKeeps(mid, |st.rqs|, none, false);
    SkipSteps(st, r, r');
  }

  lemma SkipSteps(st: State, r: Request, r': Request)
    requires r.flushed == Bits(false, false, false) && r' == r.(flushed := r.order.policy.Complement())
    ensures CompleteSeq(st.(rqs := st.rqs + [r]), |st.rqs|, r.order.policy.Complement(), false)
         == CompleteSeq(st.(rqs := st.rqs + [r']), |st.rqs|, Bits(false, false, false), false)
  {
    var bits, none := r.order.policy.Complement(), Bits(false, false, false);
    var e := NextRequest(r, bits, false);
    assert e == NextRequest(r', none, false);
    assert (st.rqs + [r])[|st.rqs| := e] == (st.rqs + [r'])[|st.rqs| := e];
  }

  // ----- blk_end_request by the driver -----

  /** A request whose DATA the driver holds waits for no flush. */
  lemma AtDriver(st: State, id: nat)
    requires Inv(st) && DataItem(id) in st.driver
    ensures id < |st.rqs| && Executing(st.rqs[id]) && Detached(st.lists, st.rqs, id)
    ensures id !in st.lists.queue0 && id !in st.lists.queue1
    ensures Load(st.head, st.driver - {DataItem(id)}, DataItem(id)) == 0
    ensures !st.rqs[id].inSeq ==> Tally(st.lists, id) == 0
  {
    assert Load(st.head, st.driver, DataItem(id)) == 1;
    InTally(st.lists, id);
  }

  /** Replacing such a request by one with the same sequence bits. */
  lemma Replace(st: State, id: nat, r: Request, driver: set<Item>, dev: Device)
    requires Inv(st) && DataItem(id) in st.driver && (driver == st.driver || driver == st.driver - {DataItem(id)})
    requires id < |st.rqs| && r.order == st.rqs[id].order
    requires RequestOk(st.caps, r) && DeviceOk(st.caps, dev) && Backed(dev, id, r)
    requires st.dev.written <= dev.written && st.dev.media <= dev.media && dev.covered == st.dev.covered
    ensures var st' := st.(rqs := st.rqs[id := r], driver := driver, dev := dev);
      && Detached(st'.lists, st'.rqs, id) && RequestsOk(st'.caps, st'.rqs) && Durable(st')
      && HalfShape(st') && NoStall(st') && DataHeldBut(st', id) && FlushHeld(st')
  {
    AtDriver(st, id);
    var st' := st.(rqs := st.rqs[id := r], driver := driver, dev := dev);
    assert Durable(st') by {
      BackedGrows(st.dev, dev, st.rqs);
      if st.InFlight() { SettleFrame(st.dev.covered, st.Running(), st.rqs, id, r); }
    }
  }

  lemma DataKeeps(st: State, id: nat, n: nat, err: bool)
    requires Inv(st) && DataItem(id) in st.driver && id < |st.rqs|
    ensures Inv(DataEnd(st, id, n, err))
  {
    AtDriver(st, id);
    var r := st.rqs[id];
    UpdateOk(st.caps, r, err, n);
    var (x, more) := Update(r.xfer, r.inSeq, err, n);
    var r' := r.(xfer := x);
    if more {
      DataPartial(st, id, r');
    } else if r.inSeq {
      DataSequenced(st, id, r', err);
    } else {
      DataPlain(st, id, r'.(done := true, error := err), err);
    }
  }

  lemma DataPartial(st: State, id: nat, r: Request)
    requires Inv(st) && DataItem(id) in st.driver && id < |st.rqs|
    requires r == st.rqs[id].(xfer := r.xfer) && RequestOk(st.caps, r)
    requires r.xfer.uptodate ==> st.rqs[id].xfer.uptodate
    ensures Inv(st.(rqs := st.rqs[id := r]))
  {
    AtDriver(st, id);
    assert Backed(st.dev, id, st.rqs[id]);
    Replace(st, id, r, st.driver, st.dev);
    assert st.(rqs := st.rqs[id := r], driver := st.driver, dev := st.dev) == st.(rqs := st.rqs[id := r]);
  }

  lemma WroteOk(caps: Caps, dev: Device, r: Request, id: nat, err: bool)
    requires DeviceOk(caps, dev)
    ensures var d := Wrote(dev, caps, r, id, err);
      && DeviceOk(caps, d) && dev.written <= d.written && dev.media <= d.media && d.covered == dev.covered
      && (!err && r.xfer.uptodate ==> id in d.written && (!caps.cache || r.order.devFua ==> id in d.media))
  {
  }

  lemma DataPlain(st: State, id: nat, r: Request, err: bool)
    requires Inv(st) && DataItem(id) in st.driver && id < |st.rqs| && RequestOk(st.caps, r)
    requires r == st.rqs[id].(xfer := r.xfer, done := true, error := err) && !r.inSeq
    ensures Inv(Landing(st, id, r, err))
  {
    AtDriver(st, id);
    assert BitsOk(st.rqs[id]);
    assert Backed(st.dev, id, st.rqs[id]);
    WroteOk(st.caps, st.dev, r, id, err);
    var dev := Wrote(st.dev, st.caps, r, id, err);
    Replace(st, id, r, st.driver - {DataItem(id)}, dev);
  }

  lemma DataSequenced(st: State, id: nat, r: Request, err: bool)
    requires Inv(st) && DataItem(id) in st.driver && id < |st.rqs| && RequestOk(st.caps, r)
    requires r == st.rqs[id].(xfer := r.xfer) && r.inSeq
    requires r.xfer.uptodate ==> st.rqs[id].xfer.uptodate
    ensures Inv(CompleteSeq(Landing(st, id, r, err), id, PhaseBit(Data), err))
  {
    AtDriver(st, id);
    assert Backed(st.dev, id, st.rqs[id]);
    WroteOk(st.caps, st.dev, r, id, err);
    var dev := Wrote(st.dev, st.caps, r, id, err);
    Replace(st, id, r, st.driver - {DataItem(id)}, dev);
    CompleteKeeps(Landing(st, id, r, err), id, PhaseBit(Data), err);
  }

  // ----- flush_end_io -----

  /** The states inside the loop of flush_end_io: `ids` are the requests of the
      finished flush still to be advanced, on the list that is not `p`. A flush
      issued in the middle of the loop makes that very list the pending one. */
  ghost predicate InLoop(st: State, p: bool, ids: seq<nat>, err: bool) {
    && Placed(st.lists, st.rqs) && RequestsOk(st.caps, st.rqs) && Held(st)
    && st.lists.Queue(!p) == ids && st.runningIdx == p && (st.InFlight() ==> st.Running() != [])
    && DeviceOk(st.caps, st.dev) && AllBacked(st.dev, st.rqs)
    && (st.InFlight() ==> AllSettle(st.dev.covered, st.Running(), st.rqs))
    && (!err ==> AllSettle(st.dev.media, ids, st.rqs))
  }

  /** A request that shared a flush goes on to DATA or is done; it never waits
      for the flush again. */
  lemma LoopPhase(caps: Caps, dev: Device, id: nat, r: Request, err: bool)
    requires RequestOk(caps, r) && WaitsForFlush(r) && Backed(dev, id, r)
    requires !err ==> Settles(dev.media, id, r)
    ensures var bits := PhaseBit(CurSeq(r.flushed));
      NextPhase(r, bits, err) in {Data, Done} && InOrder(r, bits) && Justified(dev, id, r, bits, err)
  {
  }

  lemma LoopHead(st: State, p: bool, ids: seq<nat>, err: bool)
    requires InLoop(st, p, ids, err) && ids != []
    ensures var id := ids[0];
      && id < |st.rqs| && WaitsForFlush(st.rqs[id]) && Backed(st.dev, id, st.rqs[id])
      && RequestOk(st.caps, st.rqs[id]) && (!err ==> Settles(st.dev.media, id, st.rqs[id]))
      && Detached(st.lists, st.rqs, id) && Load(st.head, st.driver, DataItem(id)) == 0
  {
    var id := ids[0];
    assert id in st.lists.queue0 || id in st.lists.queue1;
  }

  lemma LoopUnlink(l: Lists, p: bool, ids: seq<nat>)
    requires l.Queue(!p) == ids && ids != [] && Tally(l, ids[0]) <= 1
    ensures ids[0] !in ids[1..] && ids[0] !in l.Queue(p)
    ensures l.Unlink(ids[0]).Queue(!p) == ids[1..] && l.Unlink(ids[0]).Queue(p) == l.Queue(p)
  {
    var id := ids[0];
    InCount(l.queue0, id);
    InCount(l.queue1, id);
    assert ids == [id] + ids[1..];
    InCount(ids[1..], id);
    WithoutAbsent(l.Queue(p), id);
  }

  /** One round of the loop, before it kicks the queue. */
  lemma LoopRoute(st: State, p: bool, ids: seq<nat>, err: bool)
    requires InLoop(st, p, ids, err) && ids != [] && ids[0] < |st.rqs|
    ensures InLoop(Route(st, ids[0], PhaseBit(CurSeq(st.rqs[ids[0]].flushed)), err), p, ids[1..], err)
  {
    LoopHead(st, p, ids, err);
    var id := ids[0];
    var bits := PhaseBit(CurSeq(st.rqs[id].flushed));
    LoopPhase(st.caps, st.dev, id, st.rqs[id], err);
    var st' := Route(st, id, bits, err);
    assert Placed(st'.lists, st'.rqs) by { RoutePlaced(st, id, bits, err); }
    assert RequestsOk(st'.caps, st'.rqs) by { RouteRequests(st, id, bits, err); }
    assert Held(st') by { RouteHeld(st, id, bits, err); }
    assert AllBacked(st'.dev, st'.rqs) by { RouteBacked(st, id, bits, err); }
    LoopLists(st, p, ids, bits, err);
    LoopSettles(st, p, ids, NextRequest(st.rqs[id], bits, err), err);
  }

  lemma LoopLists(st: State, p: bool, ids: seq<nat>, bits: Bits, err: bool)
    requires st.lists.Queue(!p) == ids && ids != [] && Tally(st.lists, ids[0]) <= 1
    requires ids[0] < |st.rqs| && NextPhase(st.rqs[ids[0]], bits, err) in {Data, Done}
    ensures var st' := Route(st, ids[0], bits, err);
      st'.lists.Queue(!p) == ids[1..] && st'.lists.Queue(p) == st.lists.Queue(p)
  {
    LoopUnlink(st.lists, p, ids);
  }

  lemma LoopSettles(st: State, p: bool, ids: seq<nat>, r: Request, err: bool)
    requires st.lists.Queue(!p) == ids && ids != [] && Tally(st.lists, ids[0]) <= 1 && st.runningIdx == p
    requires ids[0] < |st.rqs|
    requires st.InFlight() ==> AllSettle(st.dev.covered, st.Running(), st.rqs)
    requires !err ==> AllSettle(st.dev.media, ids, st.rqs)
    ensures st.InFlight() ==> AllSettle(st.dev.covered, st.Running(), st.rqs[ids[0] := r])
    ensures !err ==> AllSettle(st.dev.media, ids[1..], st.rqs[ids[0] := r])
  {
    LoopUnlink(st.lists, p, ids);
    if st.InFlight() { SettleFrame(st.dev.covered, st.Running(), st.rqs, ids[0], r); }
    if !err {
      assert AllSettle(st.dev.media, ids[1..], st.rqs) by {
        assert forall k :: 0 <= k < |ids[1..]| ==> ids[1..][k] == ids[k + 1];
      }
      SettleFrame(st.dev.media, ids[1..], st.rqs, ids[0], r);
    }
  }

  lemma LoopKick(st: State, p: bool, ids: seq<nat>, err: bool)
    requires InLoop(st, p, ids, err)
    ensures InLoop(Kick(st), p, ids, err) && NoStall(Kick(st))
  {
    KickHeld(st);
    if st.InFlight() {
      assert Kick(st) == st;
    } else {
      KickDurable(st);
    }
  }

  lemma {:induction false} LoopKeeps(st: State, p: bool, ids: seq<nat>, err: bool)
    requires InLoop(st, p, ids, err) && (ids == [] ==> NoStall(st))
    requires forall k :: 0 <= k < |ids| ==> ids[k] < |st.rqs|
    ensures InLoop(Advance(st, ids, err), p, [], err) && NoStall(Advance(st, ids, err))
    decreases |ids|
  {
    if ids != [] {
      LoopRoute(st, p, ids, err);
      var bits := PhaseBit(CurSeq(st.rqs[ids[0]].flushed));
      LoopKick(Route(st, ids[0], bits, err), p, ids[1..], err);
      LoopKeeps(CompleteSeq(st, ids[0], bits, err), p, ids[1..], err);
    }
  }

  lemma LandedInLoop(st: State, err: bool)
    requires Inv(st) && FlushItem in st.driver
    ensures InLoop(FlushLanded(st, err), !st.runningIdx, st.Running(), err) && st.Running() != []
    ensures RunningKnown(st)
  {
    var st' := FlushLanded(st, err);
    assert Load(st.head, st.driver, FlushItem) == 1;
    assert st.InFlight();
    assert Held(st') by {
      forall it ensures Load(st.head, st'.driver, it) == if it == FlushItem then 0 else Load(st.head, st.driver, it) {
      }
    }
    BackedGrows(st.dev, st'.dev, st.rqs);
    assert !err ==> AllSettle(st'.dev.media, st.Running(), st.rqs);
    assert RunningKnown(st) by {
      forall k | 0 <= k < |st.Running()| ensures st.Running()[k] < |st.rqs| {
        assert st.Running()[k] in st.lists.queue0 || st.Running()[k] in st.lists.queue1;
      }
    }
  }

  lemma FlushKeeps(st: State, err: bool)
    requires Inv(st) && FlushItem in st.driver
    ensures RunningKnown(st) && Inv(FlushEnd(st, err))
  {
    LandedInLoop(st, err);
    LoopKeeps(FlushLanded(st, err), !st.runningIdx, st.Running(), err);
    LoopLeft(Advance(FlushLanded(st, err), st.Running(), err), !st.runningIdx, err);
  }

  lemma LoopLeft(st: State, p: bool, err: bool)
    requires InLoop(st, p, [], err) && NoStall(st)
    ensures Inv(st.(delayed := false))
  {
  }
}
