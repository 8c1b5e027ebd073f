/** The sequencer never stalls: while a request is unfinished the device has
    something to do, and everything the device does lowers a measure. */
module FlushProgress {
  import opened FlushModel
  import opened FlushInvariant
  import opened FlushDurability
  import opened FlushSteps
  import opened FlushTheorems

  /** Steps a request still needs, weighted so that the entries they put on the
      dispatch list are paid for, plus the bytes still to transfer. */
  function Work(r: Request): nat {
    if r.done then 0 else 3 * (if r.inSeq then r.flushed.Unset() else 1) + r.xfer.bytes
  }

  function TotalWork(rqs: seq<Request>): nat {
    if rqs == [] then 0 else Work(rqs[0]) + TotalWork(rqs[1..])
  }

  function Measure(st: State): nat { TotalWork(st.rqs) + |st.head| }

  lemma {:induction false} TotalWorkAt(rqs: seq<Request>, id: nat, r: Request)
    requires id < |rqs|
    ensures TotalWork(rqs[id := r]) + Work(rqs[id]) == TotalWork(rqs) + Work(r)
  {
    if id == 0 {
      assert rqs[0 := r][1..] == rqs[1..];
    } else {
      assert rqs[id := r][1..] == rqs[1..][id - 1 := r];
      TotalWorkAt(rqs[1..], id - 1, r);
    }
  }

  /** Completing a step that was still to do lowers the measure. */
  lemma CompleteLowers(st: State, id: nat, bits: Bits, err: bool)
    requires id < |st.rqs| && st.rqs[id].inSeq && !st.rqs[id].done
    requires st.rqs[id].flushed.Or(bits).Unset() < st.rqs[id].flushed.Unset()
    ensures Measure(CompleteSeq(st, id, bits, err)) < Measure(st)
  {
    var r := NextRequest(st.rqs[id], bits, err);
    assert Work(r) + 3 <= Work(st.rqs[id]);
    TotalWorkAt(st.rqs, id, r);
    var mid := Route(st, id, bits, err);
    assert |mid.head| <= |st.head| + 1;
    assert Kick(mid).rqs == mid.rqs && |Kick(mid).head| <= |mid.head| + 1;
  }

  lemma {:induction false} AdvanceLowers(st: State, p: bool, ids: seq<nat>, err: bool)
    requires InLoop(st, p, ids, err)
    requires forall k :: 0 <= k < |ids| ==> ids[k] < |st.rqs|
    ensures Measure(Advance(st, ids, err)) + |ids| <= Measure(st)
    decreases |ids|
  {
    if ids != [] {
      LoopHead(st, p, ids, err);
      var bits := PhaseBit(CurSeq(st.rqs[ids[0]].flushed));
      CompleteLowers(st, ids[0], bits, err);
      LoopRoute(st, p, ids, err);
      LoopKick(Route(st, ids[0], bits, err), p, ids[1..], err);
      AdvanceLowers(CompleteSeq(st, ids[0], bits, err), p, ids[1..], err);
    }
  }

  lemma DataLowers(st: State, id: nat, n: nat, err: bool)
    requires Inv(st) && DataItem(id) in st.driver && id < |st.rqs| && n != 0
    ensures Measure(DataEnd(st, id, n, err)) < Measure(st)
  {
    AtDriver(st, id);
    var r := st.rqs[id];
    UpdateOk(st.caps, r, err, n);
    var (x, more) := Update(r.xfer, r.inSeq, err, n);
    var r' := r.(xfer := x);
    TotalWorkAt(st.rqs, id, r');
    if more {
    } else if r.inSeq {
      CompleteLowers(Landing(st, id, r', err), id, PhaseBit(Data), err);
    } else {
      TotalWorkAt(st.rqs, id, r'.(done := true, error := err));
    }
  }

  predicate DeviceStep(s: Step) { s.Fetch? || s.DataDone? || s.FlushDone? }

  /** Everything the driver and the device do lowers the measure. */
  lemma DeviceLowers(st: State, s: Step)
    requires Inv(st) && Enabled(st, s) && DeviceStep(s)
    ensures Measure(Next(st, s)) < Measure(st)
  {
    match s
    case Fetch =>
    case DataDone(id, n, err) => DataLowers(st, id, n, err);
    case FlushDone(err) =>
      LandedInLoop(st, err);
      AdvanceLowers(FlushLanded(st, err), !st.runningIdx, st.Running(), err);
  }

  /** No step can be taken by the driver or the device. */
  ghost predicate Idle(st: State) { forall s :: DeviceStep(s) ==> !Enabled(st, s) }

  /** While some request is unfinished, the driver or the device can act. */
  lemma NeverStuck(st: State)
    requires Inv(st) && Idle(st)
    ensures forall id :: 0 <= id < |st.rqs| ==> st.rqs[id].done
  {
    forall id | 0 <= id < |st.rqs| ensures st.rqs[id].done {
      if !st.rqs[id].done { UnfinishedActs(st, id); }
    }
  }

  lemma UnfinishedActs(st: State, id: nat)
    requires Inv(st) && id < |st.rqs| && !st.rqs[id].done
    ensures !Idle(st)
  {
    var r := st.rqs[id];
    if st.head != [] {
      assert Enabled(st, Fetch);
    } else if Executing(r) {
      DataActs(st, id);
    } else if st.InFlight() {
      assert Load(st.head, st.driver, FlushItem) == 1;
      FlushKeeps(st, false);
      assert Enabled(st, FlushDone(false));
    } else {
      assert RequestOk(st.caps, r) && Tally(st.lists, id) == 1;
      InTally(st.lists, id);
      assert id in st.Pending();
      var d := st.lists.data[0];
      assert d in st.lists.data && d < |st.rqs| && RequestOk(st.caps, st.rqs[d]);
      DataActs(st, d);
    }
  }

  lemma DataActs(st: State, id: nat)
    requires Inv(st) && id < |st.rqs| && Executing(st.rqs[id]) && st.head == []
    ensures !Idle(st)
  {
    assert Load(st.head, st.driver, DataItem(id)) == 1;
    assert Enabled(st, DataDone(id, 1, false));
  }

  /** Finite input drains: with no new submissions the device takes at most
      `Measure` steps, and when it has none left every request is done and every
      bio has been ended exactly once. */
  lemma {:induction false} Drains(st: State, steps: seq<Step>)
    requires Inv(st) && IsRun(st, steps) && forall k :: 0 <= k < |steps| ==> DeviceStep(steps[k])
    ensures |steps| + Measure(After(st, steps)) <= Measure(st)
    ensures Idle(After(st, steps)) ==> forall id :: 0 <= id < |After(st, steps).rqs| ==>
      var r := After(st, steps).rqs[id]; r.done && (r.order.hasBio ==> r.xfer.ended == [!Succeeded(r)])
    decreases |steps|
  {
    if steps == [] {
      if Idle(st) {
        NeverStuck(st);
        forall id | 0 <= id < |st.rqs|
          ensures var r := st.rqs[id]; r.order.hasBio ==> r.xfer.ended == [!Succeeded(r)]
        {
          assert RequestOk(st.caps, st.rqs[id]) && st.rqs[id].done;
        }
      }
    } else {
      NextKeeps(st, steps[0]);
      DeviceLowers(st, steps[0]);
      Drains(Next(st, steps[0]), steps[1..]);
    }
  }

  // ----- errors -----

  /** No request has seen an error. */
  ghost predicate Clean(rqs: seq<Request>) {
    forall id :: 0 <= id < |rqs| ==> rqs[id].xfer.uptodate && !rqs[id].error
  }

  lemma CompleteClean(st: State, id: nat, bits: Bits)
    requires id < |st.rqs| && Clean(st.rqs)
    ensures Clean(CompleteSeq(st, id, bits, false).rqs)
  {
    var mid := Route(st, id, bits, false);
    var r := NextRequest(st.rqs[id], bits, false);
    assert r.xfer.uptodate && !r.error;
    assert mid.rqs == st.rqs[id := r];
    assert Kick(mid).rqs == mid.rqs;
  }

  lemma {:induction false} AdvanceClean(st: State, ids: seq<nat>)
    requires Clean(st.rqs) && forall k :: 0 <= k < |ids| ==> ids[k] < |st.rqs|
    ensures Clean(Advance(st, ids, false).rqs)
    decreases |ids|
  {
    if ids != [] {
      var bits := PhaseBit(CurSeq(st.rqs[ids[0]].flushed));
      CompleteClean(st, ids[0], bits);
      AdvanceClean(CompleteSeq(st, ids[0], bits, false), ids[1..]);
    }
  }

  predicate NoError(s: Step) { (s.DataDone? ==> !s.err) && (s.FlushDone? ==> !s.err) }

  lemma InsertClean(st: State, fl: bool, fua: bool, sectors: nat, hasBio: bool)
    requires Clean(st.rqs)
    ensures Clean(Insert(st, fl, fua, sectors, hasBio).rqs)
  {
    EnqueueClean(st, NewRequest(st, fl, fua, sectors, hasBio));
  }

  lemma EnqueueClean(st: State, rq: Request)
    requires Clean(st.rqs) && rq.xfer.uptodate && !rq.error
    ensures Clean(Enqueue(st, rq).rqs)
  {
    assert EndEmpty(rq).xfer.uptodate;
    CompleteClean(st.(rqs := st.rqs + [rq.(inSeq := true)]), |st.rqs|, rq.order.policy.Complement());
  }

  lemma DataClean(st: State, id: nat, n: nat)
    requires Clean(st.rqs) && id < |st.rqs|
    ensures Clean(DataEnd(st, id, n, false).rqs)
  {
    var r := st.rqs[id];
    var r' := r.(xfer := Update(r.xfer, r.inSeq, false, n).0);
    assert r'.xfer.uptodate;
    CompleteClean(Landing(st, id, r', false), id, PhaseBit(Data));
  }

  lemma {:induction false} RunClean(st: State, steps: seq<Step>)
    requires Clean(st.rqs) && IsRun(st, steps) && forall k :: 0 <= k < |steps| ==> NoError(steps[k])
    ensures Clean(After(st, steps).rqs)
    decreases |steps|
  {
    if steps != [] {
      assert NoError(steps[0]);
      match steps[0] {
        case Submit(fl, fua, sectors, hasBio) => InsertClean(st, fl, fua, sectors, hasBio);
        case DataDone(id, n, _) => DataClean(st, id, n);
        case FlushDone(_) => AdvanceClean(FlushLanded(st, false), st.Running());
        case _ =>
      }
      RunClean(Next(st, steps[0]), steps[1..]);
    }
  }

  /** If the device never reports an error, every finished request succeeded. */
  lemma SuccessWithoutErrors(caps: Caps, hz: nat, queueable: bool, steps: seq<Step>)
    requires IsRun(Init(caps, hz, queueable), steps) && forall k :: 0 <= k < |steps| ==> NoError(steps[k])
    ensures var st := After(Init(caps, hz, queueable), steps);
      forall id :: 0 <= id < |st.rqs| && st.rqs[id].done ==> Succeeded(st.rqs[id])
  {
    RunClean(Init(caps, hz, queueable), steps);
  }
}
