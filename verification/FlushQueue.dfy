/** The request queue of block/blk-flush.c as an object that its functions update
    in place. Each method is proved equal to the step of the state machine, and
    the source's BUG_ON checks are asserted where they stand. */
module FlushQueue {
  import opened FlushModel
  import opened FlushInvariant
  import opened FlushSteps
  import opened FlushTheorems

  ghost predicate ListKnown(st: State, list: bool) {
    forall k :: 0 <= k < |st.lists.Queue(list)| ==> st.lists.Queue(list)[k] < |st.rqs|
  }

  /** When the flush completes, the indexes differ and its requests are listed. */
  lemma FlushStart(st: State, err: bool)
    requires Inv(st) && FlushItem in st.driver
    ensures var landed := FlushLanded(st, err);
      && st.InFlight() && landed.lists == st.lists
      && InLoop(landed, !st.runningIdx, landed.lists.Queue(st.runningIdx), err) && ListKnown(landed, st.runningIdx)
    ensures RunningKnown(st) && Inv(FlushEnd(st, err))
  {
    assert Load(st.head, st.driver, FlushItem) == 1;
    LandedInLoop(st, err);
    FlushKeeps(st, err);
  }

  /** One round of the loop of flush_end_io: no BUG_ON fires, the list shrinks
      by its head, and what the rest of the loop computes is unchanged. */
  lemma LoopStep(st: State, list: bool, err: bool)
    requires InLoop(st, !list, st.lists.Queue(list), err) && ListKnown(st, list) && st.lists.Queue(list) != []
    ensures var ids := st.lists.Queue(list);
      var phase := CurSeq(st.rqs[ids[0]].flushed);
      var st' := CompleteSeq(st, ids[0], PhaseBit(phase), err);
      && phase in {PreFlush, PostFlush} && st.rqs[ids[0]].flushed.Disjoint(PhaseBit(phase))
      && DataItem(ids[0]) !in st.head
      && st'.lists.Queue(list) == ids[1..] && InLoop(st', !list, ids[1..], err) && ListKnown(st', list)
      && Advance(st, ids, err) == Advance(st', ids[1..], err) && st'.delayed == st.delayed
  {
    var ids := st.lists.Queue(list);
    LoopHead(st, !list, ids, err);
    LoopRoute(st, !list, ids, err);
    LoopKick(Route(st, ids[0], PhaseBit(CurSeq(st.rqs[ids[0]].flushed)), err), !list, ids[1..], err);
    assert Load(st.head, st.driver, DataItem(ids[0])) == 0;
  }

  /** What the driver holds is not on the dispatch list as well. */
  lemma NotQueuedTwice(st: State, id: nat)
    requires Inv(st) && DataItem(id) in st.driver
    ensures id < |st.rqs| && DataItem(id) !in st.head
    ensures st.rqs[id].inSeq ==> st.rqs[id].flushed.Disjoint(PhaseBit(Data))
  {
    AtDriver(st, id);
  }

  lemma InsertStart(st: State, fl: bool, fua: bool, sectors: nat, hasBio: bool)
    requires Inv(st) && (fua ==> sectors != 0)
    ensures DataItem(|st.rqs|) !in st.head && Inv(Insert(st, fl, fua, sectors, hasBio))
  {
    assert Load(st.head, st.driver, DataItem(|st.rqs|)) == 0;
    InsertKeeps(st, fl, fua, sectors, hasBio);
  }

  class RequestQueue {
    const caps: Caps
    const hz: nat
    const queueable: bool
    var now: nat
    var rqs: seq<Request>
    var lists: Lists
    var pendingIdx: bool
    var runningIdx: bool
    var pendingSince: nat
    var delayed: bool
    var head: seq<Item>
    var driver: set<Item>
    var dev: Device

    ghost function View(): State
      reads this
    {
      State(caps, hz, queueable, now, rqs, lists, pendingIdx, runningIdx,
            pendingSince, delayed, head, driver, dev)
    }

    constructor (caps: Caps, hz: nat, queueable: bool)
      requires caps.Legal()
      ensures View() == Init(caps, hz, queueable) && Inv(View())
    {
      this.caps, this.hz, this.queueable := caps, hz, queueable;
      now, rqs, lists := 0, [], Lists([], [], []);
      pendingIdx, runningIdx, pendingSince, delayed := false, false, 0, false;
      head, driver, dev := [], {}, Device({}, {}, {});
      new;
      InitKeeps(caps, hz, queueable);
    }

    /** blk_kick_flush. */
    method KickFlush() returns (issued: bool)
      modifies this
      ensures View() == Kick(old(View()))
      ensures issued <==> |head| > |old(head)|
      ensures issued <==> old(pendingIdx == runningIdx && lists.Queue(pendingIdx) != []
                              && (lists.data == [] || pendingSince + 5 * hz <= now))
    {
      if pendingIdx != runningIdx || lists.Queue(pendingIdx) == [] { return false; }
      if lists.data != [] && now < pendingSince + 5 * hz { return false; }
      pendingIdx := !pendingIdx;
      head := head + [FlushItem];
      dev := dev.(covered := dev.written);
      return true;
    }

    /** The switch of blk_flush_complete_seq: the request goes where its next step
        waits, and DATA goes to the head of the queue. */
    method MoveLists(id: nat, phase: Phase) returns (queued: bool)
      requires DataItem(id) !in head
      modifies this`lists, this`head, this`pendingSince
      ensures lists == old(lists).Rehome(phase, id, pendingIdx) && queued == (phase == Data)
      ensures head == if phase == Data then [DataItem(id)] + old(head) else old(head)
      ensures pendingSince == if phase in {PreFlush, PostFlush} && old(lists).Queue(pendingIdx) == [] then now
                              else old(pendingSince)
    {
      queued := false;
      var off := lists.Unlink(id);
      match phase {
        case Data =>
          lists := off.AddData(id);
          head := [DataItem(id)] + head;
          queued := true;
        case Done =>
          lists := off;
        case _ =>
          if lists.Queue(pendingIdx) == [] { pendingSince := now; }
          lists := off.AddFlush(pendingIdx, id);
      }
    }

    /** blk_flush_complete_seq up to the kick. */
    method MoveOn(id: nat, bits: Bits, err: bool) returns (queued: bool)
      requires id < |rqs|
      requires rqs[id].flushed.Disjoint(bits)
      requires DataItem(id) !in head
      modifies this
      ensures View() == Route(old(View()), id, bits, err)
      ensures queued <==> |head| > |old(head)|
      ensures |head| >= |old(head)|
    {
      var r := rqs[id].(flushed := rqs[id].flushed.Or(bits));
      var phase := if err then Done else CurSeq(r.flushed);
      queued := MoveLists(id, phase);
      if phase == Done { r := EndAll(r, err); }
      rqs := rqs[id := r];
    }

    /** blk_flush_complete_seq. */
    method CompleteStep(id: nat, bits: Bits, err: bool) returns (queued: bool)
      requires id < |rqs|
      requires rqs[id].flushed.Disjoint(bits)
      requires DataItem(id) !in head
      modifies this
      ensures View() == CompleteSeq(old(View()), id, bits, err)
      ensures queued <==> |head| > |old(head)|
      ensures |head| >= |old(head)|
    {
      queued := MoveOn(id, bits, err);
      var issued := KickFlush();
      queued := issued || queued;
    }

    /** flush_end_io: `run` says whether the queue is run again. */
    method FlushEndIo(err: bool) returns (run: bool)
      requires Inv(View()) && FlushItem in driver
      modifies this
      ensures RunningKnown(old(View())) && View() == FlushEnd(old(View()), err) && Inv(View())
      ensures run <==> old(delayed) || |head| > |old(head)|
    {
      FlushStart(View(), err);
      var list := runningIdx;
      Landed(err);
      run := AdvanceList(list, err);
      run := run || delayed;
      delayed := false;
    }

    /** flush_end_io up to its loop: the flush is accounted as finished. */
    method Landed(err: bool)
      requires pendingIdx != runningIdx
      modifies this
      ensures View() == FlushLanded(old(View()), err)
    {
      runningIdx := !runningIdx;
      driver := driver - {FlushItem};
      if !err { dev := dev.(media := dev.media + dev.covered); }
    }

    /** The loop of flush_end_io. */
    method AdvanceList(list: bool, err: bool) returns (queued: bool)
      requires InLoop(View(), !list, lists.Queue(list), err) && ListKnown(View(), list)
      modifies this
      ensures View() == Advance(old(View()), old(lists.Queue(list)), err)
      ensures |head| >= |old(head)| && delayed == old(delayed)
      ensures queued <==> |head| > |old(head)|
    {
      queued := false;
      while lists.Queue(list) != []
        invariant InLoop(View(), !list, lists.Queue(list), err) && ListKnown(View(), list)
        invariant |head| >= |old(head)| && delayed == old(delayed)
        invariant Advance(View(), lists.Queue(list), err) == Advance(old(View()), old(lists.Queue(list)), err)
        invariant queued <==> |head| > |old(head)|
        decreases |lists.Queue(list)|
      {
        var id := lists.Queue(list)[0];
        LoopStep(View(), list, err);
        var phase := CurSeq(rqs[id].flushed);
        assert phase == PreFlush || phase == PostFlush;
        var q := CompleteStep(id, PhaseBit(phase), err);
        queued := queued || q;
      }
    }

    /** The driver completes `n` bytes of a request; the last part of a sequenced
        request ends in flush_data_end_io. */
    method EndBytes(id: nat, n: nat, err: bool) returns (run: bool)
      requires Inv(View()) && DataItem(id) in driver && id < |rqs|
      modifies this
      ensures View() == DataEnd(old(View()), id, n, err) && Inv(View())
      ensures run <==> |head| > |old(head)|
    {
      DataKeeps(View(), id, n, err);
      NotQueuedTwice(View(), id);
      run := false;
      var (x, more) := Update(rqs[id].xfer, rqs[id].inSeq, err, n);
      var r := rqs[id].(xfer := x);
      if more {
        rqs := rqs[id := r];
      } else if r.inSeq {
        Land(id, r, err);
        run := CompleteStep(id, PhaseBit(Data), err);
      } else {
        Land(id, r.(done := true, error := err), err);
      }
    }

    method Land(id: nat, r: Request, err: bool)
      requires id < |rqs|
      modifies this
      ensures View() == Landing(old(View()), id, r, err)
    {
      driver := driver - {DataItem(id)};
      dev := Wrote(dev, caps, r, id, err);
      rqs := rqs[id := r];
    }

    /** blk_insert_flush. */
    method InsertFlush(wantFlush: bool, wantFua: bool, sectors: nat, hasBio: bool) returns (id: nat)
      requires Inv(View()) && (wantFua ==> sectors != 0)
      modifies this
      ensures id == |old(rqs)| && View() == Insert(old(View()), wantFlush, wantFua, sectors, hasBio) && Inv(View())
    {
      InsertStart(View(), wantFlush, wantFua, sectors, hasBio);
      id := |rqs|;
      var rq := Prepare(wantFlush, wantFua, sectors, hasBio);
      PutOnQueue(rq);
    }

    /** The three ways blk_insert_flush goes on with a prepared request. */
    method PutOnQueue(rq: Request)
      requires DataItem(|rqs|) !in head && rq.flushed == Bits(false, false, false)
      modifies this
      ensures View() == Enqueue(old(View()), rq)
    {
      var id, policy := |rqs|, rq.order.policy;
      if policy == Bits(false, false, false) {
        rqs := rqs + [EndEmpty(rq)];
      } else if policy.data && !policy.pre && !policy.post {
        rqs := rqs + [rq];
        head := head + [DataItem(id)];
      } else {
        rqs := rqs + [rq.(inSeq := true)];
        var _ := CompleteStep(id, policy.Complement(), false);
      }
    }

    method Prepare(wantFlush: bool, wantFua: bool, sectors: nat, hasBio: bool) returns (rq: Request)
      ensures rq == NewRequest(View(), wantFlush, wantFua, sectors, hasBio)
    {
      var policy := Policy(caps, wantFlush, wantFua, sectors);
      var order := Order(wantFlush, wantFua, sectors, hasBio, policy, caps.fua && wantFua, dev.written);
      var xfer := Transfer(SECTOR * sectors, hasBio, SECTOR * sectors, true, []);
      rq := Request(order, xfer, Bits(false, false, false), false, false, false);
    }
  }
}
