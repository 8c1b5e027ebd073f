/** The slice arithmetic of block/blk-throttle.c: one direction of one group.
    Products are taken over unbounded integers. */
module ThrottleSlice {

  /** `hz` ticks per second; the throttle slice is a tenth of a second; a round
      lets go at most about `quantum` bios, at most `group` of one group (32 and 8
      in the source). */
  datatype Config = Config(hz: nat, slice: nat, quantum: nat, group: nat) {
    predicate Ok() { 10 <= hz && slice == hz / 10 && 1 <= quantum && 2 <= group }
    /** A group's share of reads and writes in a round: 75% and 25%. */
    function MaxReads(): nat { group * 3 / 4 }
    function MaxWrites(): nat { group - group * 3 / 4 }
  }

  const NO_BPS: nat := 0xFFFF_FFFF_FFFF_FFFF
  const NO_IOPS: nat := 0xFFFF_FFFF

  /** Limits of one direction; all ones means unlimited. */
  datatype Limit = Limit(bps: nat, iops: nat) {
    predicate Ok() { 0 < bps && 0 < iops }
    predicate None() { bps == NO_BPS && iops == NO_IOPS }
  }

  /** slice_start, slice_end, bytes_disp and io_disp of one direction. */
  datatype Slice = Slice(start: nat, end: nat, bytes: nat, ios: nat)

  /** The kernel's roundup: the next multiple of s, written with the remainder. */
  function RoundUp(x: nat, s: nat): (r: nat)
    requires 0 < s
    ensures x <= r <= x + s - 1
  {
    x + s - 1 - (x + s - 1) % s
  }

  lemma {:induction false} RoundUpIsRoundup(x: nat, s: nat)
    requires 0 < s
    ensures RoundUp(x, s) == (x + s - 1) / s * s
  {
    var q, m := (x + s - 1) / s, (x + s - 1) % s;
    assert x + s - 1 == q * s + m;
  }

  /** throtl_slice_used. */
  predicate Used(now: nat, sl: Slice) { !(sl.start <= now <= sl.end) }

  /** throtl_start_new_slice. */
  function NewSlice(c: Config, now: nat): Slice { Slice(now, now + c.slice, 0, 0) }

  /** throtl_extend_slice and throtl_set_slice_end. */
  function EndAt(c: Config, sl: Slice, t: nat): Slice
    requires c.Ok()
  {
    sl.(end := RoundUp(t, c.slice))
  }

  /** The first part of tg_may_dispatch: a fresh slice, or one that lasts a while. */
  function Renew(c: Config, now: nat, sl: Slice): Slice
    requires c.Ok()
  {
    if Used(now, sl) then NewSlice(c, now)
    else if sl.end < now + c.slice then EndAt(c, sl, now + c.slice) else sl
  }

  lemma {:induction false} RoundUpSelf(s: nat)
    requires 0 < s
    ensures RoundUp(s, s) == s
  {
    assert (s - 1 + s) % s == (s - 1) % s;
  }

  /** jiffy_elapsed_rnd. */
  function Rounded(c: Config, now: nat, sl: Slice): (r: nat)
    requires c.Ok() && sl.start <= now
    ensures now - sl.start <= r <= now - sl.start + c.slice
  {
    RoundUpSelf(c.slice);
    RoundUp(if now == sl.start then c.slice else now - sl.start, c.slice)
  }

  function Scale(rate: nat, ticks: nat, hz: nat): nat
    requires 0 < hz
  {
    rate * ticks / hz
  }

  /** tg_with_in_bps_limit: the bytes fit into what the elapsed time, rounded up
      to whole slices, allows. */
  predicate WithinBps(c: Config, now: nat, lim: Limit, sl: Slice, size: nat)
    requires c.Ok() && sl.start <= now
  {
    sl.bytes + size <= Scale(lim.bps, Rounded(c, now, sl), c.hz)
  }

  /** How long it tells to wait when they do not. */
  function BpsWait(c: Config, now: nat, lim: Limit, sl: Slice, size: nat): (w: nat)
    requires c.Ok() && lim.Ok() && sl.start <= now && !WithinBps(c, now, lim, sl, size)
    ensures 1 <= w
  {
    var rnd := Rounded(c, now, sl);
    var wait := Scale(sl.bytes + size - Scale(lim.bps, rnd, c.hz), c.hz, lim.bps);
    (if wait == 0 then 1 else wait) + (rnd - (now - sl.start))
  }

  /** tg_with_in_iops_limit. */
  predicate WithinIops(c: Config, now: nat, lim: Limit, sl: Slice)
    requires c.Ok() && sl.start <= now
  {
    var n := Scale(lim.iops, Rounded(c, now, sl), c.hz);
    sl.ios + 1 <= if n > NO_IOPS then NO_IOPS else n
  }

  function IopsWait(c: Config, now: nat, lim: Limit, sl: Slice): (w: nat)
    requires c.Ok() && lim.Ok() && sl.start <= now
    ensures 1 <= w
  {
    var wait := Scale(sl.ios + 1, c.hz, lim.iops) + 1;
    if wait > now - sl.start then wait - (now - sl.start) else 1
  }

  /** The outcome of tg_may_dispatch. */
  datatype May = May(ok: bool, wait: nat, slice: Slice)

  function MayDispatch(c: Config, now: nat, lim: Limit, sl: Slice, size: nat): (m: May)
    requires c.Ok() && lim.Ok()
    ensures !m.ok ==> 1 <= m.wait
  {
    if lim.None() then May(true, 0, sl)
    else
      var s := Renew(c, now, sl);
      if WithinBps(c, now, lim, s, size) && WithinIops(c, now, lim, s) then May(true, 0, s)
      else
        var w := if !WithinBps(c, now, lim, s, size) then BpsWait(c, now, lim, s, size) else IopsWait(c, now, lim, s);
        May(false, w, if s.end < now + w then EndAt(c, s, now + w) else s)
  }

  /** throtl_charge_bio. */
  function Charge(sl: Slice, size: nat): Slice { sl.(bytes := sl.bytes + size, ios := sl.ios + 1) }

  function Minus(a: nat, b: nat): nat { if a >= b then a - b else 0 }

  /** throtl_trim_slice past its first checks: `n` whole slices have gone by. */
  function Forget(c: Config, lim: Limit, sl: Slice, n: nat): Slice
    requires c.Ok()
  {
    var bytes, ios := Scale(lim.bps, c.slice * n, c.hz), Scale(lim.iops, c.slice * n, c.hz);
    if bytes == 0 && ios == 0 then sl
    else sl.(bytes := Minus(sl.bytes, bytes), ios := Minus(sl.ios, ios), start := sl.start + c.slice * n)
  }

  /** throtl_trim_slice. */
  function Trim(c: Config, now: nat, lim: Limit, sl: Slice): Slice
    requires c.Ok() && sl.start <= sl.end
  {
    if Used(now, sl) then sl
    else
      var n := Scale(1, now - sl.start, c.slice);
      var s := EndAt(c, sl, now + c.slice);
      if n == 0 then s else Forget(c, lim, s, n)
  }
}
