/** The FLUSH/FUA sequencer of block/blk-flush.c as a state machine over values.

    One `State` holds what the queue lock protects: the two flush lists and the
    indexes that toggle between them, the requests executing DATA, the dispatch
    list, what the driver holds, and a device with a volatile cache. Every
    locked region of the source is one function from state to state. */
module FlushModel {
  import opened ListOps

  const SECTOR: nat := 512

  /** `q->flush_flags`: write-back cache present, FUA writes supported. */
  datatype Caps = Caps(cache: bool, fua: bool) {
    predicate Legal() { fua ==> cache }
  }

  /** The steps of a sequence, in bit order of REQ_FSEQ_*. */
  datatype Phase = PreFlush | Data | PostFlush | Done

  /** The bits of `rq->flush.seq`: which steps are already complete. */
  datatype Bits = Bits(pre: bool, data: bool, post: bool) {
    predicate Disjoint(other: Bits) {
      !(pre && other.pre) && !(data && other.data) && !(post && other.post)
    }
    function Or(other: Bits): Bits {
      Bits(pre || other.pre, data || other.data, post || other.post)
    }
    function Complement(): Bits { Bits(!pre, !data, !post) }
    /** Number of steps still to do. */
    function Unset(): nat {
      (if pre then 0 else 1) + (if data then 0 else 1) + (if post then 0 else 1)
    }
  }

  /** blk_flush_cur_seq: the first zero bit. */
  function CurSeq(b: Bits): Phase {
    if !b.pre then PreFlush else if !b.data then Data else if !b.post then PostFlush else Done
  }

  function PhaseBit(p: Phase): Bits {
    Bits(p == PreFlush, p == Data, p == PostFlush)
  }

  /** What was submitted: the flags, the size, whether there is a bio, the steps
      blk_flush_policy chose, REQ_FUA as the driver sees it, and the writes that
      had completed when the request was inserted. */
  datatype Order = Order(wantFlush: bool, wantFua: bool, sectors: nat, hasBio: bool,
                         policy: Bits, devFua: bool, before: set<nat>)

  /** The bytes of a request: `__data_len`, whether `rq->bio` points at the bio,
      and the bio's bi_size, BIO_UPTODATE and the error flag of every bio_endio. */
  datatype Transfer = Transfer(bytes: nat, linked: bool, size: nat, uptodate: bool, ended: seq<bool>)

  /** A request: `inSeq` is REQ_FLUSH_SEQ, `flushed` is `rq->flush.seq`, `done`
      and `error` record the final completion. */
  datatype Request = Request(order: Order, xfer: Transfer, flushed: Bits, inSeq: bool, done: bool, error: bool)

  /** What sits on `q->queue_head` or at the driver. */
  datatype Item = DataItem(id: nat) | FlushItem

  /** The device: completed writes, the writes the flush in flight covers, and
      the writes that would survive a power loss. */
  datatype Device = Device(written: set<nat>, covered: set<nat>, media: set<nat>)

  /** `q->flush_queue[0..1]` and `q->flush_data_in_flight`. */
  datatype Lists = Lists(queue0: seq<nat>, queue1: seq<nat>, data: seq<nat>) {
    function Queue(idx: bool): seq<nat> { if idx then queue1 else queue0 }

    /** list_del_init: off whichever list holds the request. */
    function Unlink(id: nat): Lists {
      Lists(Without(queue0, id), Without(queue1, id), Without(data, id))
    }
    function AddFlush(idx: bool, id: nat): Lists {
      if idx then this.(queue1 := queue1 + [id]) else this.(queue0 := queue0 + [id])
    }
    function AddData(id: nat): Lists { this.(data := data + [id]) }

    /** The list moves of blk_flush_complete_seq's switch. */
    function Rehome(p: Phase, id: nat, idx: bool): Lists {
      match p
      case Data => Unlink(id).AddData(id)
      case Done => Unlink(id)
      case _ => Unlink(id).AddFlush(idx, id)
    }
  }

  datatype State = State(
    caps: Caps, hz: nat, queueable: bool, now: nat,
    rqs: seq<Request>,
    lists: Lists, pendingIdx: bool, runningIdx: bool,
    pendingSince: nat, delayed: bool,
    head: seq<Item>, driver: set<Item>, dev: Device)
  {
    predicate InFlight() { pendingIdx != runningIdx }
    function Pending(): seq<nat> { lists.Queue(pendingIdx) }
    function Running(): seq<nat> { lists.Queue(runningIdx) }
  }

  function Init(caps: Caps, hz: nat, queueable: bool): State {
    State(caps, hz, queueable, 0, [], Lists([], [], []), false, false, 0, false, [], {},
          Device({}, {}, {}))
  }

  // ----- completion of one request's bytes (block/blk-core.c) -----

  /** req_bio_endio: a bio in a flush sequence (`quiet`) is not ended. */
  function BioEndio(x: Transfer, quiet: bool, n: nat, err: bool): Transfer
    requires n <= x.size
  {
    var up := x.uptodate && !err;
    x.(size := x.size - n, uptodate := up,
       ended := if x.size == n && !quiet then x.ended + [!up] else x.ended)
  }

  /** blk_update_request on a request with at most one bio; true while bytes are left. */
  function Update(x: Transfer, quiet: bool, err: bool, n: nat): (Transfer, bool) {
    if !x.linked then (x, false)
    else if n >= x.size then (BioEndio(x, quiet, x.size, err).(linked := false, bytes := 0), false)
    else if n == 0 then (x, true)
    else (BioEndio(x, quiet, n, err).(bytes := if x.bytes >= n then x.bytes - n else 0), true)
  }

  /** blk_flush_restore_request, then __blk_end_request_all. */
  function EndAll(r: Request, err: bool): Request {
    var x := r.xfer.(linked := r.order.hasBio);
    r.(xfer := Update(x, false, err, x.bytes).0, inSeq := false, done := true, error := err)
  }

  // ----- the sequencer -----

  /** blk_flush_policy. */
  function Policy(caps: Caps, wantFlush: bool, wantFua: bool, sectors: nat): Bits {
    Bits(caps.cache && wantFlush, sectors != 0, caps.cache && !caps.fua && wantFua)
  }

  /** blk_kick_flush: issue the shared flush when C1 to C3 allow it. The flush
      covers the writes that completed before this point. */
  function Kick(st: State): State {
    if st.pendingIdx != st.runningIdx || st.Pending() == [] then st
    else if st.lists.data != [] && st.now < st.pendingSince + 5 * st.hz then st
    else st.(pendingIdx := !st.pendingIdx, head := st.head + [FlushItem],
             dev := st.dev.(covered := st.dev.written))
  }

  /** Where blk_flush_complete_seq takes a request that completed `bits`. */
  function NextPhase(r: Request, bits: Bits, err: bool): Phase {
    if err then Done else CurSeq(r.flushed.Or(bits))
  }

  function NextRequest(r: Request, bits: Bits, err: bool): Request {
    var r' := r.(flushed := r.flushed.Or(bits));
    if NextPhase(r, bits, err) == Done then EndAll(r', err) else r'
  }

  /** The switch of blk_flush_complete_seq, before it kicks the queue. */
  function Route(st: State, id: nat, bits: Bits, err: bool): State
    requires id < |st.rqs|
  {
    var p := NextPhase(st.rqs[id], bits, err);
    st.(rqs := st.rqs[id := NextRequest(st.rqs[id], bits, err)],
        lists := st.lists.Rehome(p, id, st.pendingIdx),
        head := if p == Data then [DataItem(id)] + st.head else st.head,
        pendingSince := if p in {PreFlush, PostFlush} && st.Pending() == [] then st.now else st.pendingSince)
  }

  /** blk_flush_complete_seq. */
  function CompleteSeq(st: State, id: nat, bits: Bits, err: bool): (st': State)
    requires id < |st.rqs|
    ensures |st'.rqs| == |st.rqs|
  {
    Kick(Route(st, id, bits, err))
  }

  /** A request as blk_insert_flush finds it, with the chosen policy recorded. */
  function NewRequest(st: State, wantFlush: bool, wantFua: bool, sectors: nat, hasBio: bool): Request {
    var policy := Policy(st.caps, wantFlush, wantFua, sectors);
    Request(Order(wantFlush, wantFua, sectors, hasBio, policy, st.caps.fua && wantFua, st.dev.written),
            Transfer(SECTOR * sectors, hasBio, SECTOR * sectors, true, []),
            Bits(false, false, false), false, false, false)
  }

  /** An empty request that needs no flush is completed on the spot. */
  function EndEmpty(r: Request): Request {
    r.(xfer := Update(r.xfer, false, false, 0).0, done := true)
  }

  /** The three ways blk_insert_flush goes on: done at once, plain execution, or
      the flush machinery. */
  function Enqueue(st: State, rq: Request): State {
    var policy := rq.order.policy;
    if policy == Bits(false, false, false) then st.(rqs := st.rqs + [EndEmpty(rq)])
    else if policy.data && !policy.pre && !policy.post then
      st.(rqs := st.rqs + [rq], head := st.head + [DataItem(|st.rqs|)])
    else
      CompleteSeq(st.(rqs := st.rqs + [rq.(inSeq := true)]), |st.rqs|, policy.Complement(), false)
  }

  /** blk_insert_flush. */
  function Insert(st: State, wantFlush: bool, wantFua: bool, sectors: nat, hasBio: bool): State {
    Enqueue(st, NewRequest(st, wantFlush, wantFua, sectors, hasBio))
  }

  /** The loop of flush_end_io over the requests that shared the flush. */
  function Advance(st: State, ids: seq<nat>, err: bool): (st': State)
    requires forall k :: 0 <= k < |ids| ==> ids[k] < |st.rqs|
    ensures |st'.rqs| == |st.rqs|
    decreases |ids|
  {
    if ids == [] then st
    else
      var bits := PhaseBit(CurSeq(st.rqs[ids[0]].flushed));
      Advance(CompleteSeq(st, ids[0], bits, err), ids[1..], err)
  }

  /** The device and index part of flush_end_io, before its loop. */
  function FlushLanded(st: State, err: bool): State {
    st.(runningIdx := !st.runningIdx, driver := st.driver - {FlushItem},
        dev := if err then st.dev else st.dev.(media := st.dev.media + st.dev.covered))
  }

  predicate RunningKnown(st: State) {
    forall k :: 0 <= k < |st.Running()| ==> st.Running()[k] < |st.rqs|
  }

  /** flush_end_io. */
  function FlushEnd(st: State, err: bool): (st': State)
    requires RunningKnown(st)
  {
    Advance(FlushLanded(st, err), st.Running(), err).(delayed := false)
  }

  /** The device finished the data of `r`: where the write now is. */
  function Wrote(dev: Device, caps: Caps, r: Request, id: nat, err: bool): Device {
    if err || !r.xfer.uptodate then dev
    else dev.(written := dev.written + {id},
              media := if caps.cache && !r.order.devFua then dev.media else dev.media + {id})
  }

  /** The device hands a fully transferred request back. */
  function Landing(st: State, id: nat, r: Request, err: bool): State
    requires id < |st.rqs|
  {
    st.(driver := st.driver - {DataItem(id)}, dev := Wrote(st.dev, st.caps, r, id, err), rqs := st.rqs[id := r])
  }

  /** The driver completes `n` bytes of a request (blk_end_request); the last
      part runs flush_data_end_io for a sequenced request. */
  function DataEnd(st: State, id: nat, n: nat, err: bool): State
    requires id < |st.rqs|
  {
    var (x, more) := Update(st.rqs[id].xfer, st.rqs[id].inSeq, err, n);
    var r := st.rqs[id].(xfer := x);
    if more then st.(rqs := st.rqs[id := r])
    else if r.inSeq then CompleteSeq(Landing(st, id, r, err), id, PhaseBit(Data), err)
    else Landing(st, id, r.(done := true, error := err), err)
  }

  /** The driver takes the first request off the dispatch list. */
  function Dispatch(st: State): State
    requires st.head != []
  {
    st.(driver := st.driver + {st.head[0]}, head := st.head[1..])
  }

  /** __elv_next_request finding the dispatch list empty while a flush that
      cannot be queued is running. */
  function Peek(st: State): State {
    if st.head == [] && st.InFlight() && !st.queueable then st.(delayed := true) else st
  }

  // ----- runs -----

  datatype Step =
    | Submit(wantFlush: bool, wantFua: bool, sectors: nat, hasBio: bool)
    | Fetch
    | Look
    | Tick(jiffies: nat)
    | DataDone(id: nat, n: nat, err: bool)
    | FlushDone(err: bool)

  /** When a step can happen: FUA comes only with data (block/blk-flush.c:13-17);
      the device completes only what the driver holds. */
  predicate Enabled(st: State, s: Step) {
    match s
    case Submit(_, fua, sectors, _) => fua ==> sectors != 0
    case Fetch => st.head != []
    case Look => true
    case Tick(_) => true
    case DataDone(id, n, _) => id < |st.rqs| && DataItem(id) in st.driver && n != 0
    case FlushDone(_) => FlushItem in st.driver && RunningKnown(st)
  }

  function Next(st: State, s: Step): State
    requires Enabled(st, s)
  {
    match s
    case Submit(fl, fua, sectors, hasBio) => Insert(st, fl, fua, sectors, hasBio)
    case Fetch => Dispatch(st)
    case Look => Peek(st)
    case Tick(j) => st.(now := st.now + j)
    case DataDone(id, n, err) => DataEnd(st, id, n, err)
    case FlushDone(err) => FlushEnd(st, err)
  }

  /** A run: every step is enabled where it happens. */
  predicate IsRun(st: State, steps: seq<Step>)
    decreases |steps|
  {
    steps == [] || (Enabled(st, steps[0]) && IsRun(Next(st, steps[0]), steps[1..]))
  }

  function After(st: State, steps: seq<Step>): State
    requires IsRun(st, steps)
    decreases |steps|
  {
    if steps == [] then st else After(Next(st, steps[0]), steps[1..])
  }
}
