/** What is on the media when: the part of the sequencer's invariant that ties
    requests to the device. */
module FlushDurability {
  import opened FlushModel
  import opened FlushInvariant

  predicate DeviceOk(caps: Caps, dev: Device) {
    && dev.media <= dev.written && dev.covered <= dev.written
    && (!caps.cache ==> dev.written <= dev.media)
  }

  /** The submitter was told that everything went well. */
  predicate Succeeded(r: Request) { r.done && !r.error && r.xfer.uptodate }

  /** What a successful completion promises about the media. */
  predicate Promise(dev: Device, id: nat, o: Order) {
    (o.wantFua ==> id in dev.media) && (o.wantFlush ==> o.before <= dev.media)
  }

  predicate Progressed(dev: Device, id: nat, r: Request) {
    && (r.order.policy.pre && r.flushed.pre ==> r.order.before <= dev.media)
    && (r.order.policy.data && r.flushed.data && r.xfer.uptodate ==>
          id in dev.written && (r.order.devFua ==> id in dev.media))
  }

  predicate Backed(dev: Device, id: nat, r: Request) {
    && r.order.before <= dev.written
    && (r.inSeq ==> Progressed(dev, id, r))
    && (Succeeded(r) ==> Promise(dev, id, r.order))
  }

  ghost predicate AllBacked(dev: Device, rqs: seq<Request>) {
    forall id :: 0 <= id < |rqs| ==> Backed(dev, id, rqs[id])
  }

  /** A flush that covers `c` settles the step the request waits for. */
  predicate Settles(c: set<nat>, id: nat, r: Request) {
    && (CurSeq(r.flushed) == PreFlush ==> r.order.before <= c)
    && (CurSeq(r.flushed) == PostFlush && r.xfer.uptodate ==> id in c)
  }

  ghost predicate AllSettle(c: set<nat>, ids: seq<nat>, rqs: seq<Request>) {
    forall k :: 0 <= k < |ids| && ids[k] < |rqs| ==> Settles(c, ids[k], rqs[ids[k]])
  }

  ghost predicate Durable(st: State) {
    && DeviceOk(st.caps, st.dev) && AllBacked(st.dev, st.rqs)
    && (st.InFlight() ==> AllSettle(st.dev.covered, st.Running(), st.rqs))
  }

  /** The completed steps really happened on the device. */
  predicate Justified(dev: Device, id: nat, r: Request, bits: Bits, err: bool) {
    !err ==>
      && Progressed(dev, id, r.(flushed := r.flushed.Or(bits)))
      && (bits.post && r.order.policy.post && r.xfer.uptodate ==> id in dev.media)
  }

  lemma BackedNext(caps: Caps, dev: Device, id: nat, r: Request, bits: Bits, err: bool)
    requires caps.Legal() && RequestOk(caps, r) && r.inSeq && InOrder(r, bits)
    requires Backed(dev, id, r) && Justified(dev, id, r, bits, err)
    ensures Backed(dev, id, NextRequest(r, bits, err))
  {
    NextRequestOk(caps, r, bits, err);
    var e := NextRequest(r, bits, err);
    if Succeeded(e) {
      assert r.order.wantFlush ==> r.order.policy.pre;
    }
  }

  lemma BackedGrows(dev: Device, dev': Device, rqs: seq<Request>)
    requires AllBacked(dev, rqs) && dev.written <= dev'.written && dev.media <= dev'.media
    ensures AllBacked(dev', rqs)
  {
    forall id | 0 <= id < |rqs| ensures Backed(dev', id, rqs[id]) {
      assert Backed(dev, id, rqs[id]);
    }
  }

  /** A request that waits for a flush is settled by one that covers every completed write. */
  lemma BackedSettles(caps: Caps, dev: Device, id: nat, r: Request)
    requires RequestOk(caps, r) && r.inSeq && Backed(dev, id, r)
    ensures Settles(dev.written, id, r)
  {
  }

  lemma KickDurable(st: State)
    requires Durable(st) && Placed(st.lists, st.rqs) && RequestsOk(st.caps, st.rqs)
    ensures Durable(Kick(st))
  {
    var ids := st.Pending();
    forall k | 0 <= k < |ids| && ids[k] < |st.rqs| ensures Settles(st.dev.written, ids[k], st.rqs[ids[k]]) {
      assert ids[k] in st.lists.queue0 || ids[k] in st.lists.queue1;
      assert Backed(st.dev, ids[k], st.rqs[ids[k]]);
      BackedSettles(st.caps, st.dev, ids[k], st.rqs[ids[k]]);
    }
    var st' := Kick(st);
    BackedGrows(st.dev, st'.dev, st.rqs);
  }

  lemma RouteBacked(st: State, id: nat, bits: Bits, err: bool)
    requires id < |st.rqs| && AllBacked(st.dev, st.rqs) && RequestsOk(st.caps, st.rqs)
    requires st.rqs[id].inSeq && InOrder(st.rqs[id], bits) && Justified(st.dev, id, st.rqs[id], bits, err)
    ensures AllBacked(st.dev, Route(st, id, bits, err).rqs)
  {
    BackedNext(st.caps, st.dev, id, st.rqs[id], bits, err);
  }

  /** A request outside `ids` does not matter to who is settled. */
  lemma SettleFrame(c: set<nat>, ids: seq<nat>, rqs: seq<Request>, id: nat, r: Request)
    requires AllSettle(c, ids, rqs) && id < |rqs| && id !in ids
    ensures AllSettle(c, ids, rqs[id := r])
  {
  }
}
