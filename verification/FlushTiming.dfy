/** When the shared flush is issued: the rules C2 and C3 of block/blk-flush.c, over
    every run, against a log of when each request began to wait for a flush. */
module FlushTiming {
  import opened FlushModel
  import opened ListOps
  import opened FlushInvariant
  import opened FlushSteps
  import opened FlushTheorems

  /** The times at which the requests on the two flush queues joined them. */
  type Log = map<nat, nat>

  /** The log after a step to st: a request not seen waiting before joined now. */
  function Noted(log: Log, st: State): Log {
    map id | id in st.lists.queue0 + st.lists.queue1 :: if id in log then log[id] else st.now
  }

  function LogAfter(st: State, log: Log, steps: seq<Step>): Log
    requires IsRun(st, steps)
    decreases |steps|
  {
    if steps == [] then log else LogAfter(Next(st, steps[0]), Noted(log, Next(st, steps[0])), steps[1..])
  }

  /** FLUSH_PENDING_TIMEOUT is five seconds. */
  predicate TimedOut(st: State, log: Log, id: nat) { id in log && log[id] + 5 * st.hz <= st.now }

  // ----- pendingSince is the log of the first that waits -----

  ghost predicate Listed(st: State, log: Log) {
    forall id: nat :: id in log <==> id in st.lists.queue0 || id in st.lists.queue1
  }

  ghost predicate Since(st: State, log: Log, l: seq<nat>) {
    && (l != [] ==> l[0] in log && log[l[0]] == st.pendingSince)
    && (forall id :: id in l ==> id in log && st.pendingSince <= log[id])
  }

  ghost predicate Timed(st: State, log: Log) { Listed(st, log) && Since(st, log, st.Pending()) && Past(st, log) }

  ghost predicate Past(st: State, log: Log) { forall id: nat :: id in log ==> log[id] <= st.now }

  lemma {:induction false} NotedListed(st: State, log: Log)
    ensures Listed(st, Noted(log, st)) && (Past(st, log) ==> Past(st, Noted(log, st)))
    ensures Listed(st, log) ==> Noted(log, st) == log
  {
    if Listed(st, log) { assert Noted(log, st).Keys == log.Keys; }
  }

  /** What a kick does about the requests that wait: they go at once unless DATA is
      executing and none has waited long, and while it is they go only if one has. */
  ghost predicate Punctual(st: State, log: Log, issued: bool) {
    && (issued ==> st.InFlight() && st.Running() != []
                   && (st.lists.data != [] ==> exists id :: id in st.Running() && TimedOut(st, log, id)))
    && (!st.InFlight() && st.Pending() != [] ==>
        st.lists.data != [] && forall id :: id in st.Pending() ==> !TimedOut(st, log, id))
  }

  lemma {:induction false} KickTimed(st: State, log: Log)
    requires HalfShape(st) && Timed(st, log)
    ensures Timed(Kick(st), log) && Punctual(Kick(st), log, Kick(st).pendingIdx != st.pendingIdx)
  {
    if st.Pending() != [] { assert st.Pending()[0] in st.Pending(); }
  }

  lemma {:induction false} RouteTimed(st: State, log: Log, id: nat, bits: Bits, err: bool, mid: State)
    requires id < |st.rqs| && HalfShape(st) && Timed(st, log) && id !in st.lists.queue0 && id !in st.lists.queue1
    requires mid == Route(st, id, bits, err)
    ensures HalfShape(mid) && Timed(mid, Noted(log, mid))
  {
    RouteShape(st, id, bits, err);
    WithoutAbsent(st.lists.queue0, id);
    WithoutAbsent(st.lists.queue1, id);
    NotedListed(mid, log);
    var l, m := st.Pending(), mid.Pending();
    if NextPhase(st.rqs[id], bits, err) in {PreFlush, PostFlush} {
      assert m == l + [id] && id !in log;
      assert Noted(log, mid)[id] == st.now;
    } else {
      assert m == l;
    }
  }

  /** blk_flush_complete_seq outside the loop of flush_end_io. */
  lemma {:induction false} CompleteTimed(st: State, log: Log, id: nat, bits: Bits, err: bool, r: State)
    requires id < |st.rqs| && HalfShape(st) && Timed(st, log) && id !in st.lists.queue0 && id !in st.lists.queue1
    requires r == CompleteSeq(st, id, bits, err)
    ensures Timed(r, Noted(log, r)) && Punctual(r, Noted(log, r), r.pendingIdx != st.pendingIdx)
  {
    var mid := Route(st, id, bits, err);
    RouteTimed(st, log, id, bits, err, mid);
    KickTimed(mid, Noted(log, mid));
    assert r.lists == mid.lists && r.now == mid.now;
  }

  // ----- the loop of flush_end_io -----

  /** What the loop leaves alone: the requests that wait for the next flush, the
      clock, and DATA that executes. */
  ghost predicate Beside(st: State, e: State, p: bool, ids: seq<nat>) {
    && e.lists.Queue(p) == st.lists.Queue(p) && e.pendingSince == st.pendingSince && e.now == st.now && e.hz == st.hz
    && (forall d :: d in st.lists.data ==> d in e.lists.data)
    && (forall d :: d in e.lists.data ==> d in st.lists.data || d in ids)
    && e.driver == st.driver
  }

  /** The first kick decides: the flush goes in that round or not at all. */
  ghost predicate Decides(st: State, e: State, p: bool, ids: seq<nat>) {
    var l, late := st.lists.Queue(p), st.pendingSince + 5 * st.hz <= st.now;
    && (st.pendingIdx != p ==> e.pendingIdx != p)
    && (st.pendingIdx == p && e.pendingIdx != p ==>
        ids != [] && l != [] && (late || (st.lists.data == [] && ids[0] !in e.lists.data)))
    && (ids != [] && e.pendingIdx == p && l != [] ==> e.lists.data != [] && !late)
  }

  /** One round before its kick: the request goes to DATA, or is done with. */
  lemma {:induction false} RoundRoutes(st: State, p: bool, ids: seq<nat>, err: bool, mid: State)
    requires InLoop(st, p, ids, err) && ids != [] && ids[0] < |st.rqs|
    requires mid == Route(st, ids[0], PhaseBit(CurSeq(st.rqs[ids[0]].flushed)), err)
    ensures mid.lists.Queue(p) == st.lists.Queue(p) && mid.pendingSince == st.pendingSince
    ensures mid.lists.data == st.lists.data || mid.lists.data == st.lists.data + [ids[0]]
    ensures ids[0] !in ids[1..] && ids[0] !in st.lists.data
  {
    var id := ids[0];
    LoopHead(st, p, ids, err);
    LoopPhase(st.caps, st.dev, id, st.rqs[id], err);
    LoopUnlink(st.lists, p, ids);
    OnQueue(st.lists, id);
    WithoutAbsent(st.lists.data, id);
  }

  lemma {:induction false} KickDecides(st: State, mid: State, p: bool, id: nat)
    requires mid.lists.Queue(p) == st.lists.Queue(p) && mid.pendingSince == st.pendingSince
    requires mid.lists.data == st.lists.data || mid.lists.data == st.lists.data + [id]
    requires mid.pendingIdx == st.pendingIdx && mid.runningIdx == p && mid.now == st.now && mid.hz == st.hz
    requires mid.driver == st.driver
    ensures Beside(st, Kick(mid), p, [id]) && Decides(st, Kick(mid), p, [id])
  {
  }

  lemma {:induction false} RoundInLoop(st: State, p: bool, ids: seq<nat>, err: bool, r: State)
    requires InLoop(st, p, ids, err) && ids != [] && ids[0] < |st.rqs|
    requires r == CompleteSeq(st, ids[0], PhaseBit(CurSeq(st.rqs[ids[0]].flushed)), err)
    ensures InLoop(r, p, ids[1..], err)
  {
    LoopRoute(st, p, ids, err);
    LoopKick(Route(st, ids[0], PhaseBit(CurSeq(st.rqs[ids[0]].flushed)), err), p, ids[1..], err);
  }

  lemma {:induction false} Together(st: State, r: State, e: State, p: bool, ids: seq<nat>)
    requires ids != [] && ids[0] !in ids[1..] && ids[0] !in st.lists.data
    requires Beside(st, r, p, [ids[0]]) && Decides(st, r, p, [ids[0]])
    requires Beside(r, e, p, ids[1..]) && Decides(r, e, p, ids[1..])
    ensures Beside(st, e, p, ids) && Decides(st, e, p, ids)
  {
    assert ids == [ids[0]] + ids[1..];
    assert ids[0] in e.lists.data ==> ids[0] in r.lists.data;
    if r.lists.data != [] { assert r.lists.data[0] in e.lists.data; }
    if st.lists.data != [] { assert st.lists.data[0] in r.lists.data; }
  }

  lemma {:induction false} OnQueue(l: Lists, id: nat)
    requires Tally(l, id) <= 1 && (id in l.queue0 || id in l.queue1)
    ensures id !in l.data
  {
    InCount(l.queue0, id);
    InCount(l.queue1, id);
    InCount(l.data, id);
  }

  lemma {:induction false} LoopTimed(st: State, p: bool, ids: seq<nat>, err: bool)
    requires InLoop(st, p, ids, err) && forall k :: 0 <= k < |ids| ==> ids[k] < |st.rqs|
    ensures Beside(st, Advance(st, ids, err), p, ids) && Decides(st, Advance(st, ids, err), p, ids)
    decreases |ids|
  {
    if ids != [] {
      var r := CompleteSeq(st, ids[0], PhaseBit(CurSeq(st.rqs[ids[0]].flushed)), err);
      var mid := Route(st, ids[0], PhaseBit(CurSeq(st.rqs[ids[0]].flushed)), err);
      RoundRoutes(st, p, ids, err, mid);
      KickDecides(st, mid, p, ids[0]);
      RoundInLoop(st, p, ids, err, r);
      LoopTimed(r, p, ids[1..], err);
      Together(st, r, Advance(r, ids[1..], err), p, ids);
    }
  }

  lemma {:induction false} LandedFlights(st: State, err: bool)
    requires Inv(st) && FlushItem in st.driver
    ensures st.InFlight() && multiset(st.head)[FlushItem] == 0
  {
    assert Load(st.head, st.driver, FlushItem) <= 1;
  }

  /** flush_end_io: the requests of the flush that ended leave the queue they were on,
      and the others are where they were. */
  lemma {:induction false} FlushEndTimed(st: State, log: Log, err: bool, r: State)
    requires Inv(st) && Timed(st, log) && FlushItem in st.driver && RunningKnown(st) && r == FlushEnd(st, err)
    ensures Timed(r, Noted(log, r)) && Beside(st.(driver := r.driver), r, !st.runningIdx, st.Running())
    ensures Decides(st.(runningIdx := r.runningIdx), r, !st.runningIdx, st.Running())
    ensures r.runningIdx == st.pendingIdx == !st.runningIdx && r.lists.Queue(st.runningIdx) == []
  {
    var p := !st.runningIdx;
    LandedFlights(st, err);
    LandedInLoop(st, err);
    LoopTimed(FlushLanded(st, err), p, st.Running(), err);
    LoopKeeps(FlushLanded(st, err), p, st.Running(), err);
    NotedListed(r, log);
    LeftTimed(st, log, r, p);
  }

  lemma {:induction false} LeftTimed(st: State, log: Log, r: State, p: bool)
    requires Timed(st, log) && st.pendingIdx == p && r.lists.Queue(p) == st.lists.Queue(p)
    requires r.lists.Queue(!p) == [] && r.pendingSince == st.pendingSince && r.now == st.now
    ensures Timed(r, Noted(log, r))
    ensures forall id :: id in r.lists.Queue(p) ==> id in log && Noted(log, r)[id] == log[id]
  {
    NotedListed(r, log);
    var l := r.lists.Queue(p);
    assert l != [] ==> l[0] in l;
    assert forall id :: id in l ==> id in r.lists.queue0 || id in r.lists.queue1;
    assert r.Pending() == l || r.Pending() == [];
  }

  // ----- every step -----

  /** The step puts the flush on the dispatch list. */
  ghost predicate Issues(st: State, r: State) { multiset(r.head)[FlushItem] > multiset(st.head)[FlushItem] }

  /** DATA executes when the step first considers a flush: what does throughout,
      what a completion leaves, or the first request of a flush that ended. */
  predicate DataThen(st: State, s: Step, r: State) {
    if s.FlushDone? then st.lists.data != [] || (st.Running() != [] && st.Running()[0] in r.lists.data)
    else r.lists.data != []
  }

  /** The step completes a part of a sequence: its first part for a new request. */
  predicate Completes(st: State, s: Step, r: State) {
    match s
    case Submit(_, _, _, _) => |r.rqs| == |st.rqs| + 1 && var p := r.rqs[|st.rqs|].order.policy; p.pre || p.post
    case DataDone(id, _, _) => id in st.lists.data && id !in r.lists.data
    case FlushDone(_) => true
    case _ => false
  }

  lemma {:induction false} SameTimed(st: State, log: Log, r: State)
    requires Timed(st, log) && r.lists == st.lists && r.pendingIdx == st.pendingIdx
    requires r.pendingSince == st.pendingSince && st.now <= r.now
    ensures Timed(r, Noted(log, r))
  {
    NotedListed(r, log);
  }

  /** The two rules about one step to r. */
  ghost predicate OnTime(st: State, s: Step, r: State, log: Log) {
    && (Issues(st, r) ==> r.InFlight() && r.Running() != []
                          && (DataThen(st, s, r) ==> exists id :: id in r.Running() && TimedOut(r, log, id)))
    && (Completes(st, s, r) && !r.InFlight() && r.Pending() != [] ==>
        r.lists.data != [] && forall id :: id in r.Pending() ==> !TimedOut(r, log, id))
  }

  lemma {:induction false} FlushItems(st: State, id: nat, bits: Bits, err: bool, r: State)
    requires id < |st.rqs| && r == CompleteSeq(st, id, bits, err)
    ensures multiset(r.head)[FlushItem] == multiset(st.head)[FlushItem] + if r.pendingIdx != st.pendingIdx then 1 else 0
  {
  }

  lemma {:induction false} CompleteOnTime(st: State, at: State, log: Log, s: Step, id: nat, bits: Bits, err: bool,
                                          r: State)
    requires id < |at.rqs| && HalfShape(at) && Timed(at, log) && id !in at.lists.queue0 && id !in at.lists.queue1
    requires r == CompleteSeq(at, id, bits, err) && at.head == st.head && !s.FlushDone?
    ensures Timed(r, Noted(log, r)) && OnTime(st, s, r, Noted(log, r))
  {
    CompleteTimed(at, log, id, bits, err, r);
    FlushItems(at, id, bits, err, r);
  }

  lemma {:induction false} NewlyListed(st: State, id: nat)
    requires Inv(st) && id >= |st.rqs|
    ensures id !in st.lists.queue0 && id !in st.lists.queue1
  {
    assert Tally(st.lists, id) == 0;
    InTally(st.lists, id);
  }

  /** A step that moves no request between the lists. */
  lemma {:induction false} QuietOnTime(st: State, log: Log, s: Step, r: State)
    requires Timed(st, log) && r.lists == st.lists && r.pendingIdx == st.pendingIdx
    requires r.pendingSince == st.pendingSince && st.now <= r.now && !Issues(st, r) && !Completes(st, s, r)
    ensures Timed(r, Noted(log, r)) && OnTime(st, s, r, Noted(log, r))
  {
    SameTimed(st, log, r);
  }

  lemma {:induction false} SubmitIs(st: State, s: Step, rq: Request, r: State)
    requires s.Submit? && Enabled(st, s) && r == Next(st, s)
    requires rq == NewRequest(st, s.wantFlush, s.wantFua, s.sectors, s.hasBio)
    ensures var p := rq.order.policy;
      if p.pre || p.post
      then r == CompleteSeq(st.(rqs := st.rqs + [rq.(inSeq := true)]), |st.rqs|, p.Complement(), false)
      else r.lists == st.lists && r.pendingIdx == st.pendingIdx && r.pendingSince == st.pendingSince && r.now == st.now
           && !Issues(st, r) && !Completes(st, s, r)
  {
    var p := rq.order.policy;
    if !p.pre && !p.post { assert r.rqs[|st.rqs|].order == rq.order; }
  }

  lemma {:induction false} SubmitOnTime(st: State, log: Log, s: Step, r: State)
    requires Inv(st) && Timed(st, log) && s.Submit? && Enabled(st, s) && r == Next(st, s)
    ensures Timed(r, Noted(log, r)) && OnTime(st, s, r, Noted(log, r))
  {
    var rq := NewRequest(st, s.wantFlush, s.wantFua, s.sectors, s.hasBio);
    var p := rq.order.policy;
    SubmitIs(st, s, rq, r);
    if p.pre || p.post {
      NewlyListed(st, |st.rqs|);
      SequencedOnTime(st, log, s, st.rqs + [rq.(inSeq := true)], |st.rqs|, p.Complement(), r);
    } else {
      QuietOnTime(st, log, s, r);
    }
  }

  lemma {:induction false} SequencedOnTime(st: State, log: Log, s: Step, rqs: seq<Request>, id: nat, bits: Bits,
                                          r: State)
    requires HalfShape(st) && Timed(st, log) && id !in st.lists.queue0 && id !in st.lists.queue1 && !s.FlushDone?
    requires id < |rqs| && r == CompleteSeq(st.(rqs := rqs), id, bits, false)
    ensures Timed(r, Noted(log, r)) && OnTime(st, s, r, Noted(log, r))
  {
    CompleteOnTime(st, st.(rqs := rqs), log, s, id, bits, false, r);
  }

  lemma {:induction false} DataIs(st: State, s: Step, rq: Request, r: State)
    requires s.DataDone? && Enabled(st, s) && r == Next(st, s)
    requires rq == st.rqs[s.id].(xfer := Update(st.rqs[s.id].xfer, st.rqs[s.id].inSeq, s.err, s.n).0)
    ensures if rq.inSeq && !Update(st.rqs[s.id].xfer, st.rqs[s.id].inSeq, s.err, s.n).1
      then r == CompleteSeq(Landing(st, s.id, rq, s.err), s.id, PhaseBit(Data), s.err)
      else r.lists == st.lists && r.pendingIdx == st.pendingIdx && r.pendingSince == st.pendingSince && r.now == st.now
           && r.head == st.head
  {
  }

  lemma {:induction false} LandedOnTime(st: State, at: State, log: Log, s: Step, r: State)
    requires HalfShape(st) && Timed(st, log) && s.DataDone? && s.id !in st.lists.queue0 && s.id !in st.lists.queue1
    requires s.id < |at.rqs| && at == st.(driver := at.driver, dev := at.dev, rqs := at.rqs)
    requires r == CompleteSeq(at, s.id, PhaseBit(Data), s.err)
    ensures Timed(r, Noted(log, r)) && OnTime(st, s, r, Noted(log, r))
  {
    CompleteOnTime(st, at, log, s, s.id, PhaseBit(Data), s.err, r);
  }

  lemma {:induction false} DataOnTime(st: State, log: Log, s: Step, r: State)
    requires Inv(st) && Timed(st, log) && s.DataDone? && Enabled(st, s) && r == Next(st, s)
    ensures Timed(r, Noted(log, r)) && OnTime(st, s, r, Noted(log, r))
  {
    AtDriver(st, s.id);
    var rq := st.rqs[s.id].(xfer := Update(st.rqs[s.id].xfer, st.rqs[s.id].inSeq, s.err, s.n).0);
    DataIs(st, s, rq, r);
    if rq.inSeq && !Update(st.rqs[s.id].xfer, st.rqs[s.id].inSeq, s.err, s.n).1 {
      LandedOnTime(st, Landing(st, s.id, rq, s.err), log, s, r);
    } else {
      QuietOnTime(st, log, s, r);
    }
  }

  lemma {:induction false} EndedOnTime(st: State, log: Log, s: Step, r: State, p: bool, late: Log)
    requires s.FlushDone? && st.pendingIdx == r.runningIdx == p && st.Running() != [] && Timed(st, log)
    requires r.lists.Queue(p) == st.lists.Queue(p) && r.pendingSince == st.pendingSince
    requires r.now == st.now && r.hz == st.hz
    requires Decides(st.(runningIdx := p), r, p, st.Running()) && (Issues(st, r) ==> r.InFlight())
    requires forall id :: id in r.lists.Queue(p) ==> id in log && id in late && late[id] == log[id]
    ensures OnTime(st, s, r, late)
  {
    var l := st.lists.Queue(p);
    if l != [] { assert l[0] in l; }
  }

  lemma {:induction false} FlushOnTime(st: State, log: Log, s: Step, r: State)
    requires Inv(st) && Timed(st, log) && s.FlushDone? && Enabled(st, s) && r == Next(st, s)
    ensures Timed(r, Noted(log, r)) && OnTime(st, s, r, Noted(log, r))
  {
    var p := !st.runningIdx;
    FlushEndTimed(st, log, s.err, r);
    LeftTimed(st, log, r, p);
    LandedInLoop(st, s.err);
    assert Issues(st, r) ==> r.InFlight() by {
      FlushKeeps(st, s.err);
      assert Load(r.head, r.driver, FlushItem) <= 1;
    }
    EndedOnTime(st, log, s, r, p, Noted(log, r));
  }

  lemma {:induction false} StepOnTime(st: State, log: Log, s: Step, r: State)
    requires Inv(st) && Timed(st, log) && Enabled(st, s) && r == Next(st, s)
    ensures Timed(r, Noted(log, r)) && OnTime(st, s, r, Noted(log, r))
  {
    match s
    case Submit(_, _, _, _) => SubmitOnTime(st, log, s, r);
    case DataDone(_, _, _) => DataOnTime(st, log, s, r);
    case FlushDone(_) => FlushOnTime(st, log, s, r);
    case Fetch =>
      assert st.head == [st.head[0]] + st.head[1..];
      QuietOnTime(st, log, s, r);
    case _ => QuietOnTime(st, log, s, r);
  }

  // ----- every run -----

  lemma {:induction false} RunTimed(st: State, log: Log, steps: seq<Step>)
    requires Inv(st) && Timed(st, log) && IsRun(st, steps)
    ensures Inv(After(st, steps)) && Timed(After(st, steps), LogAfter(st, log, steps))
    decreases |steps|
  {
    if steps != [] {
      var r := Next(st, steps[0]);
      NextKeeps(st, steps[0]);
      StepOnTime(st, log, steps[0], r);
      RunTimed(r, Noted(log, r), steps[1..]);
    }
  }

  /** C2 and C3, at any step after any run from an idle queue. (C2) If the step puts
      the flush on the dispatch list while a sequenced request executes DATA, some
      request of that flush has waited for the timeout. (C3) After a step that
      completes part of a sequence, requests wait for a flush not in flight only
      while DATA executes and none of them has waited that long. */
  lemma {:induction false} FlushOnTimeAlways(caps: Caps, hz: nat, queueable: bool, steps: seq<Step>, s: Step,
                                             st: State, r: State, log: Log)
    requires caps.Legal() && IsRun(Init(caps, hz, queueable), steps)
    requires st == After(Init(caps, hz, queueable), steps) && Enabled(st, s) && r == Next(st, s)
    requires log == Noted(LogAfter(Init(caps, hz, queueable), map[], steps), r)
    ensures Issues(st, r) && DataThen(st, s, r) ==> exists id :: id in r.Running() && TimedOut(r, log, id)
    ensures Issues(st, r) ==> r.InFlight() && r.Running() != []
    ensures Completes(st, s, r) && !r.InFlight() && r.Pending() != [] ==>
      r.lists.data != [] && forall id :: id in r.Pending() ==> id in log && r.now < log[id] + 5 * r.hz
  {
    var i := Init(caps, hz, queueable);
    InitKeeps(caps, hz, queueable);
    RunTimed(i, map[], steps);
    StepOnTime(st, LogAfter(i, map[], steps), s, r);
    assert Timed(r, log);
  }
}
