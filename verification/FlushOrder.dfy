/** What the FLUSH/FUA sequencer does not do needlessly, and in what order it queues:
    who waits for a flush, where requests go on the dispatch list, and when a held
    queue is run again. */
module FlushOrder {
  import opened FlushModel
  import opened FlushInvariant
  import opened FlushSteps
  import opened FlushTheorems
  import opened FlushTiming

  // ----- who waits -----

  /** In every reachable state a request waits for a flush only if the device has a cache
      and it asked for one: before its data for FLUSH, and behind it for FUA that the
      device does not do itself. The device sees FUA only if it does. */
  lemma {:induction false} OnlyIfAsked(st: State, id: nat)
    requires Reachable(st) && id < |st.rqs|
    ensures var r := st.rqs[id];
      && (id in st.lists.queue0 || id in st.lists.queue1 ==>
          st.caps.cache && (if r.flushed.pre then r.order.wantFua && !st.caps.fua else r.order.wantFlush))
      && (r.inSeq ==> st.caps.cache && (r.order.wantFlush || (r.order.wantFua && !st.caps.fua)))
      && (r.order.devFua <==> st.caps.fua && r.order.wantFua)
  {
    ReachableInv(st);
    assert RequestOk(st.caps, st.rqs[id]);
    InTally(st.lists, id);
  }

  /** A request that needs no flush is on the dispatch list at once, or done if it is empty. */
  lemma {:induction false} PlainGoesAtOnce(st: State, wantFlush: bool, wantFua: bool, sectors: nat, hasBio: bool,
                                          r: State)
    requires r == Insert(st, wantFlush, wantFua, sectors, hasBio)
    requires !st.caps.cache || (!wantFlush && (!wantFua || st.caps.fua))
    ensures r.lists == st.lists && |r.rqs| == |st.rqs| + 1 && !r.rqs[|st.rqs|].inSeq
    ensures if sectors == 0 then r.head == st.head && r.rqs[|st.rqs|].done
            else r.head == st.head + [DataItem(|st.rqs|)] && !r.rqs[|st.rqs|].done
  {
  }

  /** What the model of the device leaves open: data that completes without FUA on a device
      with a cache is not on the media by that. */
  lemma {:induction false} CacheIsVolatile(dev: Device, caps: Caps, r: Request, id: nat, err: bool)
    requires caps.cache && !r.order.devFua
    ensures Wrote(dev, caps, r, id, err).media == dev.media
    ensures !err && r.xfer.uptodate ==> id in Wrote(dev, caps, r, id, err).written
  {
  }

  // ----- the dispatch list -----

  /** A step puts the data of sequenced requests in front of the dispatch list and plain
      requests and the flush behind it; what is there keeps its order. */
  ghost predicate Queues(st: State, was: seq<Item>, r: State, front: seq<Item>, back: seq<Item>) {
    && r.head == front + was + back
    && (forall it :: it in front ==> it.DataItem? && it.id in r.lists.data && it.id !in st.lists.data)
    && (forall it :: it in back ==> it == FlushItem || (it.id == |st.rqs| && |r.rqs| > |st.rqs| && !r.rqs[it.id].inSeq))
  }

  lemma {:induction false} RouteQueues(st: State, id: nat, bits: Bits, err: bool, mid: State)
    requires id < |st.rqs| && mid == Route(st, id, bits, err)
    ensures mid.head == (if NextPhase(st.rqs[id], bits, err) == Data then [DataItem(id)] else []) + st.head
    ensures NextPhase(st.rqs[id], bits, err) == Data ==> id in mid.lists.data
  {
    if NextPhase(st.rqs[id], bits, err) == Data { assert mid.lists.data[|mid.lists.data| - 1] == id; }
  }

  /** blk_flush_complete_seq: at most one entry at each end. */
  lemma {:induction false} CompleteQueues(st: State, id: nat, bits: Bits, err: bool, r: State)
    returns (front: seq<Item>, back: seq<Item>)
    requires id < |st.rqs| && r == CompleteSeq(st, id, bits, err)
    ensures r.head == front + st.head + back && |r.rqs| == |st.rqs|
    ensures front == if NextPhase(st.rqs[id], bits, err) == Data then [DataItem(id)] else []
    ensures front != [] ==> id in r.lists.data
    ensures back == [] || back == [FlushItem]
  {
    var mid := Route(st, id, bits, err);
    RouteQueues(st, id, bits, err, mid);
    front := if NextPhase(st.rqs[id], bits, err) == Data then [DataItem(id)] else [];
    back := if r.pendingIdx != mid.pendingIdx then [FlushItem] else [];
    assert mid.head + [] == mid.head;
  }

  /** What a part of the loop of flush_end_io over ids adds to the dispatch list. */
  ghost predicate LoopAdds(st: State, e: State, ids: seq<nat>, front: seq<Item>, back: seq<Item>) {
    && e.head == front + st.head + back
    && (forall it :: it in front ==> it.DataItem? && it.id in ids && it.id in e.lists.data && it.id !in st.lists.data)
    && (forall it :: it in back ==> it == FlushItem)
  }

  lemma {:induction false} AddsTogether(st: State, r: State, e: State, ids: seq<nat>, f: seq<Item>, b: seq<Item>,
                                        f2: seq<Item>, b2: seq<Item>)
    requires ids != [] && r.head == f + st.head + b && (b == [] || b == [FlushItem]) && ids[0] !in st.lists.data
    requires f == [] || (f == [DataItem(ids[0])] && ids[0] in r.lists.data)
    requires LoopAdds(r, e, ids[1..], f2, b2)
    requires forall d :: d in st.lists.data ==> d in r.lists.data
    requires forall d :: d in r.lists.data ==> d in e.lists.data
    ensures LoopAdds(st, e, ids, f2 + f, b + b2)
  {
    assert f2 + (f + st.head + b) + b2 == (f2 + f) + st.head + (b + b2);
    assert ids == [ids[0]] + ids[1..];
  }

  lemma {:induction false} LoopQueues(st: State, p: bool, ids: seq<nat>, err: bool, e: State)
    returns (front: seq<Item>, back: seq<Item>)
    requires InLoop(st, p, ids, err) && (forall k :: 0 <= k < |ids| ==> ids[k] < |st.rqs|) && e == Advance(st, ids, err)
    ensures LoopAdds(st, e, ids, front, back)
    decreases |ids|
  {
    if ids == [] {
      front, back := [], [];
      assert front + st.head + back == st.head;
    } else {
      var bits := PhaseBit(CurSeq(st.rqs[ids[0]].flushed));
      var mid, r := Route(st, ids[0], bits, err), CompleteSeq(st, ids[0], bits, err);
      RoundInLoop(st, p, ids, err, r);
      RoundRoutes(st, p, ids, err, mid);
      KickDecides(st, mid, p, ids[0]);
      var f, b := CompleteQueues(st, ids[0], bits, err, r);
      LoopTimed(r, p, ids[1..], err);
      front, back := LoopQueues(r, p, ids[1..], err, e);
      AddsTogether(st, r, e, ids, f, b, front, back);
      front, back := front + f, b + back;
    }
  }

  lemma {:induction false} NotYetData(st: State, id: nat)
    requires Inv(st) && id >= |st.rqs|
    ensures id !in st.lists.data
  {
    assert Tally(st.lists, id) == 0;
    InTally(st.lists, id);
  }

  lemma {:induction false} SequencedQueues(st: State, rqs: seq<Request>, id: nat, bits: Bits, r: State)
    returns (front: seq<Item>, back: seq<Item>)
    requires id < |rqs| && id !in st.lists.data && r == CompleteSeq(st.(rqs := rqs), id, bits, false)
    ensures Queues(st, st.head, r, front, back)
  {
    front, back := CompleteQueues(st.(rqs := rqs), id, bits, false, r);
  }

  lemma {:induction false} SubmitQueues(st: State, s: Step, r: State) returns (front: seq<Item>, back: seq<Item>)
    requires Inv(st) && s.Submit? && Enabled(st, s) && r == Next(st, s)
    ensures Queues(st, st.head, r, front, back)
  {
    var rq := NewRequest(st, s.wantFlush, s.wantFua, s.sectors, s.hasBio);
    var p := rq.order.policy;
    SubmitIs(st, s, rq, r);
    if p.pre || p.post {
      NotYetData(st, |st.rqs|);
      front, back := SequencedQueues(st, st.rqs + [rq.(inSeq := true)], |st.rqs|, p.Complement(), r);
    } else {
      PlainQueues(st, s, rq, r);
      front, back := [], if p.data then [DataItem(|st.rqs|)] else [];
    }
  }

  lemma {:induction false} PlainQueues(st: State, s: Step, rq: Request, r: State)
    requires s.Submit? && Enabled(st, s) && r == Next(st, s)
    requires rq == NewRequest(st, s.wantFlush, s.wantFua, s.sectors, s.hasBio)
    requires !rq.order.policy.pre && !rq.order.policy.post
    ensures Queues(st, st.head, r, [], if rq.order.policy.data then [DataItem(|st.rqs|)] else [])
  {
    assert [] + st.head + [] == st.head && [] + st.head == st.head;
  }

  lemma {:induction false} SameQueues(st: State, r: State)
    requires r.head == st.head
    ensures Queues(st, st.head, r, [], [])
  {
    assert [] + st.head + [] == st.head;
  }

  lemma {:induction false} LandedQueues(st: State, at: State, id: nat, err: bool, r: State)
    returns (front: seq<Item>, back: seq<Item>)
    requires id < |at.rqs| && at.head == st.head && r == CompleteSeq(at, id, PhaseBit(Data), err)
    ensures Queues(st, st.head, r, front, back)
  {
    front, back := CompleteQueues(at, id, PhaseBit(Data), err, r);
    assert NextPhase(at.rqs[id], PhaseBit(Data), err) != Data;
  }

  lemma {:induction false} DataQueues(st: State, s: Step, r: State) returns (front: seq<Item>, back: seq<Item>)
    requires s.DataDone? && Enabled(st, s) && r == Next(st, s)
    ensures Queues(st, st.head, r, front, back)
  {
    var rq := st.rqs[s.id].(xfer := Update(st.rqs[s.id].xfer, st.rqs[s.id].inSeq, s.err, s.n).0);
    DataIs(st, s, rq, r);
    if rq.inSeq && !Update(st.rqs[s.id].xfer, st.rqs[s.id].inSeq, s.err, s.n).1 {
      front, back := LandedQueues(st, Landing(st, s.id, rq, s.err), s.id, s.err, r);
    } else {
      front, back := [], [];
      SameQueues(st, r);
    }
  }

  lemma {:induction false} FlushQueues(st: State, s: Step, r: State) returns (front: seq<Item>, back: seq<Item>)
    requires Inv(st) && s.FlushDone? && Enabled(st, s) && r == Next(st, s)
    ensures Queues(st, st.head, r, front, back)
  {
    var at := FlushLanded(st, s.err);
    LandedInLoop(st, s.err);
    front, back := LoopQueues(at, !st.runningIdx, st.Running(), s.err, Advance(at, st.Running(), s.err));
  }

  /** Every step, after every run. */
  lemma {:induction false} DispatchOrder(st: State, s: Step, r: State) returns (front: seq<Item>, back: seq<Item>)
    requires Inv(st) && Enabled(st, s) && r == Next(st, s)
    ensures Queues(st, if s.Fetch? then st.head[1..] else st.head, r, front, back)
    ensures s.Fetch? ==> front == [] && back == [] && st.head[0] in r.driver
  {
    match s
    case Submit(_, _, _, _) => front, back := SubmitQueues(st, s, r);
    case DataDone(_, _, _) => front, back := DataQueues(st, s, r);
    case FlushDone(_) => front, back := FlushQueues(st, s, r);
    case Fetch =>
      front, back := [], [];
      assert [] + st.head[1..] + [] == st.head[1..];
    case _ =>
      front, back := [], [];
      SameQueues(st, r);
  }

  // ----- a queue that is held -----

  lemma {:induction false} CompleteDelayed(st: State, id: nat, bits: Bits, err: bool)
    requires id < |st.rqs|
    ensures CompleteSeq(st, id, bits, err).delayed == st.delayed
  {
  }

  /** The driver found nothing because a flush that cannot be queued holds the queue: that is
      remembered until the flush ends, and flush_end_io then runs the queue. */
  lemma {:induction false} HeldRemembered(st: State, steps: seq<Step>)
    requires Inv(st) && IsRun(st, steps) && st.delayed && forall k :: 0 <= k < |steps| ==> !steps[k].FlushDone?
    ensures After(st, steps).delayed
    decreases |steps|
  {
    if steps != [] {
      var r := Next(st, steps[0]);
      assert r.delayed by { StepDelayed(st, steps[0], r); }
      NextKeeps(st, steps[0]);
      HeldRemembered(r, steps[1..]);
    }
  }

  lemma {:induction false} StepDelayed(st: State, s: Step, r: State)
    requires Enabled(st, s) && !s.FlushDone? && st.delayed && r == Next(st, s)
    ensures r.delayed
  {
    if s.Submit? {
      var rq := NewRequest(st, s.wantFlush, s.wantFua, s.sectors, s.hasBio);
      CompleteDelayed(st.(rqs := st.rqs + [rq.(inSeq := true)]), |st.rqs|, rq.order.policy.Complement(), false);
    } else if s.DataDone? {
      var rq := st.rqs[s.id].(xfer := Update(st.rqs[s.id].xfer, st.rqs[s.id].inSeq, s.err, s.n).0);
      CompleteDelayed(Landing(st, s.id, rq, s.err), s.id, PhaseBit(Data), s.err);
    }
  }

  /** It is noted exactly then: the dispatch list is empty and such a flush is in flight. */
  lemma {:induction false} HeldNoted(st: State, r: State)
    requires Inv(st) && r == Next(st, Look)
    ensures r.delayed <==> st.delayed || (st.head == [] && st.InFlight() && !st.queueable)
    ensures r == st.(delayed := r.delayed)
  {
  }
}
