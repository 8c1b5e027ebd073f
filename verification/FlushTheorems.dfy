/** What the FLUSH/FUA sequencer guarantees over every run. */
module FlushTheorems {
  import opened FlushModel
  import opened FlushInvariant
  import opened FlushDurability
  import opened FlushSteps

  // ----- the invariant over runs -----

  lemma InitKeeps(caps: Caps, hz: nat, queueable: bool)
    requires caps.Legal()
    ensures Inv(Init(caps, hz, queueable))
  {
  }

  lemma FetchKeeps(st: State)
    requires Inv(st) && st.head != []
    ensures Inv(Dispatch(st))
  {
    var it := st.head[0];
    assert st.head == [it] + st.head[1..];
    assert Load(st.head, st.driver, it) <= 1 by {
      match it
      case DataItem(id) =>
      case FlushItem =>
    }
    forall x ensures Load(st.head[1..], st.driver + {it}, x) == Load(st.head, st.driver, x) {
    }
  }

  lemma NextKeeps(st: State, s: Step)
    requires Inv(st) && Enabled(st, s)
    ensures Inv(Next(st, s))
  {
    match s
    case Submit(fl, fua, sectors, hasBio) => InsertKeeps(st, fl, fua, sectors, hasBio);
    case Fetch => FetchKeeps(st);
    case Look =>
    case Tick(_) =>
    case DataDone(id, n, err) => DataKeeps(st, id, n, err);
    case FlushDone(err) => FlushKeeps(st, err);
  }

  lemma {:induction false} RunKeeps(st: State, steps: seq<Step>)
    requires Inv(st) && IsRun(st, steps)
    ensures Inv(After(st, steps))
    decreases |steps|
  {
    if steps != [] {
      NextKeeps(st, steps[0]);
      RunKeeps(Next(st, steps[0]), steps[1..]);
    }
  }

  ghost predicate Reachable(st: State) {
    exists caps: Caps, hz: nat, q: bool, steps: seq<Step> ::
      caps.Legal() && IsRun(Init(caps, hz, q), steps) && After(Init(caps, hz, q), steps) == st
  }

  lemma ReachableInv(st: State)
    requires Reachable(st)
    ensures Inv(st)
  {
    var caps: Caps, hz: nat, q: bool, steps: seq<Step> :|
      caps.Legal() && IsRun(Init(caps, hz, q), steps) && After(Init(caps, hz, q), steps) == st;
    InitKeeps(caps, hz, q);
    RunKeeps(Init(caps, hz, q), steps);
  }

  // ----- where requests are -----

  /** A request is in a sequence until it is done, on exactly one list, the one
      its sequence bits dictate; the indexes differ exactly while one flush is in
      flight, on the dispatch list or at the driver. */
  lemma OneList(st: State, id: nat)
    requires Reachable(st) && id < |st.rqs|
    ensures var r := st.rqs[id];
      && (r.inSeq <==> !r.done && (r.order.policy.pre || r.order.policy.post))
      && Tally(st.lists, id) == (if r.inSeq then 1 else 0)
      && (id in st.lists.data <==> r.inSeq && CurSeq(r.flushed) == Data)
      && (id in st.lists.queue0 || id in st.lists.queue1 <==> r.inSeq && CurSeq(r.flushed) in {PreFlush, PostFlush})
    ensures Load(st.head, st.driver, FlushItem) == if st.pendingIdx != st.runningIdx then 1 else 0
    ensures Load(st.head, st.driver, DataItem(id)) == if Executing(st.rqs[id]) then 1 else 0
    ensures st.delayed ==> st.InFlight()
  {
    ReachableInv(st);
    InTally(st.lists, id);
    assert RequestOk(st.caps, st.rqs[id]);
  }

  // ----- durability -----

  lemma CompleteOrders(st: State, x: nat, bits: Bits, err: bool, id: nat)
    requires x < |st.rqs| && id < |st.rqs|
    ensures CompleteSeq(st, x, bits, err).rqs[id].order == st.rqs[id].order
  {
    var mid := Route(st, x, bits, err);
    assert mid.rqs[id].order == st.rqs[id].order;
    assert Kick(mid).rqs == mid.rqs;
  }

  lemma {:induction false} AdvanceOrders(st: State, ids: seq<nat>, err: bool, id: nat)
    requires forall k :: 0 <= k < |ids| ==> ids[k] < |st.rqs|
    requires id < |st.rqs|
    ensures Advance(st, ids, err).rqs[id].order == st.rqs[id].order
    decreases |ids|
  {
    if ids != [] {
      var bits := PhaseBit(CurSeq(st.rqs[ids[0]].flushed));
      CompleteOrders(st, ids[0], bits, err, id);
      AdvanceOrders(CompleteSeq(st, ids[0], bits, err), ids[1..], err, id);
    }
  }

  lemma InsertOrders(st: State, fl: bool, fua: bool, sectors: nat, hasBio: bool, id: nat)
    requires id <= |st.rqs|
    ensures var st' := Insert(st, fl, fua, sectors, hasBio);
      && id < |st'.rqs|
      && (if id < |st.rqs| then st'.rqs[id].order == st.rqs[id].order
          else st'.rqs[id].order.before == st.dev.written && st'.rqs[id].order.wantFlush == fl)
  {
    var rq := NewRequest(st, fl, fua, sectors, hasBio).(inSeq := true);
    CompleteOrders(st.(rqs := st.rqs + [rq]), |st.rqs|, rq.order.policy.Complement(), false, id);
  }

  lemma DataOrders(st: State, x: nat, n: nat, err: bool, id: nat)
    requires x < |st.rqs| && id < |st.rqs|
    ensures id < |DataEnd(st, x, n, err).rqs| && DataEnd(st, x, n, err).rqs[id].order == st.rqs[id].order
  {
    var r := st.rqs[x].(xfer := Update(st.rqs[x].xfer, st.rqs[x].inSeq, err, n).0);
    CompleteOrders(Landing(st, x, r, err), x, PhaseBit(Data), err, id);
  }

  /** No step changes what an earlier request asked for. */
  lemma NextOrders(st: State, s: Step, id: nat)
    requires Enabled(st, s) && id < |st.rqs|
    ensures id < |Next(st, s).rqs| && Next(st, s).rqs[id].order == st.rqs[id].order
  {
    match s
    case Submit(fl, fua, sectors, hasBio) => InsertOrders(st, fl, fua, sectors, hasBio, id);
    case DataDone(x, n, err) => DataOrders(st, x, n, err, id);
    case FlushDone(err) => AdvanceOrders(FlushLanded(st, err), st.Running(), err, id);
    case _ =>
  }

  lemma {:induction false} RunOrders(st: State, steps: seq<Step>, id: nat)
    requires IsRun(st, steps) && id < |st.rqs|
    ensures id < |After(st, steps).rqs| && After(st, steps).rqs[id].order == st.rqs[id].order
    decreases |steps|
  {
    if steps != [] {
      NextOrders(st, steps[0], id);
      RunOrders(Next(st, steps[0]), steps[1..], id);
    }
  }

  /** A FUA write is on the media when its submitter is told it succeeded,
      whatever the device can do. */
  lemma FuaDurable(st: State, id: nat)
    requires Reachable(st) && id < |st.rqs|
    ensures Succeeded(st.rqs[id]) && st.rqs[id].order.wantFua ==> id in st.dev.media
  {
    ReachableInv(st);
    assert Backed(st.dev, id, st.rqs[id]);
  }

  /** A FLUSH request is a barrier: the writes that had completed when it was
      submitted are on the media before its own data goes to the device, and
      before its submitter is told it succeeded. */
  lemma FlushIsBarrier(st: State, fua: bool, sectors: nat, hasBio: bool, rest: seq<Step>)
    requires Reachable(st) && (fua ==> sectors != 0)
    requires IsRun(Insert(st, true, fua, sectors, hasBio), rest)
    ensures var end, id := After(Insert(st, true, fua, sectors, hasBio), rest), |st.rqs|;
      && id < |end.rqs|
      && (Succeeded(end.rqs[id]) ==> st.dev.written <= end.dev.media)
      && (DataItem(id) in end.head || DataItem(id) in end.driver ==> st.dev.written <= end.dev.media)
  {
    ReachableInv(st);
    var mid, id := Insert(st, true, fua, sectors, hasBio), |st.rqs|;
    assert Inv(After(mid, rest)) by {
      InsertKeeps(st, true, fua, sectors, hasBio);
      RunKeeps(mid, rest);
    }
    InsertOrders(st, true, fua, sectors, hasBio, id);
    RunOrders(mid, rest, id);
    BarrierAt(After(mid, rest), id);
  }

  lemma BarrierAt(st: State, id: nat)
    requires Inv(st) && id < |st.rqs| && st.rqs[id].order.wantFlush
    ensures Succeeded(st.rqs[id]) ==> st.rqs[id].order.before <= st.dev.media
    ensures DataItem(id) in st.head || DataItem(id) in st.driver ==> st.rqs[id].order.before <= st.dev.media
  {
    var r := st.rqs[id];
    assert Backed(st.dev, id, r) && RequestOk(st.caps, r);
    if DataItem(id) in st.head || DataItem(id) in st.driver {
      assert Load(st.head, st.driver, DataItem(id)) != 0;
      assert Executing(r);
      if !r.inSeq { assert !st.caps.cache; }
    }
  }

  /** The bio of a request is ended exactly once, when the whole request is done,
      although DATA completes separately; the submitter is told of an error if
      the request ended with one. */
  lemma BioEndedOnce(st: State, id: nat)
    requires Reachable(st) && id < |st.rqs| && st.rqs[id].order.hasBio
    ensures var r := st.rqs[id];
      && |r.xfer.ended| == (if r.done then 1 else 0)
      && (r.done ==> (r.xfer.ended[0] <==> !Succeeded(r)))
  {
    ReachableInv(st);
    assert RequestOk(st.caps, st.rqs[id]);
  }
}
