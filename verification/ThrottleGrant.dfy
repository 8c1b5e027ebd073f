/** When tg_may_dispatch lets a bio go, and what the wait it tells otherwise is worth,
    in terms of the limits, the charges of the slice and the slices begun. */
module ThrottleGrant {
  import opened ThrottleSlice
  import opened ThrottleGroup
  import opened ThrottleTree

  /** k is the number of slices begun since `start`, the first counting at once. */
  predicate SlicesBegun(c: Config, start: nat, now: nat, k: nat) {
    start <= now && 1 <= k && now <= start + k * c.slice && (k == 1 || start + (k - 1) * c.slice < now)
  }

  /** One more bio keeps within both rates for the time of k slices. */
  predicate Fits(c: Config, lim: Limit, bytes: nat, ios: nat, size: nat, k: nat) {
    && (bytes + size) * c.hz <= lim.bps * (k * c.slice)
    && (ios + 1) * c.hz <= lim.iops * (k * c.slice)
    && ios + 1 <= 0xFFFF_FFFF
  }

  /** A bio may go: there is no limit, or it fits into the slices begun; a slice that
      is over counts no more, and a new one starts now. */
  ghost predicate Goes(c: Config, now: nat, lim: Limit, sl: Slice, size: nat) {
    || (lim.bps == 0xFFFF_FFFF_FFFF_FFFF && lim.iops == 0xFFFF_FFFF)
    || (if sl.start <= now <= sl.end
        then exists k: nat :: SlicesBegun(c, sl.start, now, k) && Fits(c, lim, sl.bytes, sl.ios, size, k)
        else Fits(c, lim, 0, 0, size, 1))
  }

  lemma {:induction false} DivFits(a: nat, x: nat, h: nat)
    requires 0 < h
    ensures a <= x / h <==> a * h <= x
  {
    var q := x / h;
    assert x == q * h + x % h;
    if a <= q { MulMono(h, a, q); } else { MulMono(h, q + 1, a); }
  }

  lemma {:induction false} MulMono(m: nat, a: nat, b: nat)
    requires a <= b
    ensures a * m <= b * m && m * a <= m * b
  {
  }

  lemma {:induction false} RoundUpLeast(x: nat, s: nat, k: nat)
    requires 0 < s && 1 <= k && (k - 1) * s < x <= k * s
    ensures RoundUp(x, s) == k * s
  {
    RoundUpIsRoundup(x, s);
    var y := x + s - 1;
    assert (k - 1) * s == k * s - s;
    DivFits(k, y, s);
    DivFits(k + 1, y, s);
    assert (k + 1) * s == k * s + s;
  }

  lemma {:induction false} RoundedIs(c: Config, now: nat, sl: Slice, k: nat)
    requires c.Ok() && SlicesBegun(c, sl.start, now, k)
    ensures Rounded(c, now, sl) == k * c.slice
  {
    var x := if now == sl.start then c.slice else now - sl.start;
    if k > 1 { MulMono(c.slice, 1, k - 1); }
    assert 1 * c.slice == c.slice && 0 * c.slice == 0;
    RoundUpLeast(x, c.slice, k);
  }

  /** There is such a number, and only one. */
  lemma {:induction false} BegunExists(c: Config, start: nat, now: nat) returns (k: nat)
    requires c.Ok() && start <= now
    ensures SlicesBegun(c, start, now, k)
    ensures forall j: nat :: SlicesBegun(c, start, now, j) ==> j == k
  {
    var x, s := now - start, c.slice;
    k := if x == 0 then 1 else (x + s - 1) / s;
    if x != 0 {
      var q := (x + s - 1) / s;
      DivFits(q, x + s - 1, s);
      DivFits(q + 1, x + s - 1, s);
      DivFits(1, x + s - 1, s);
      assert (q + 1) * s == q * s + s && (q - 1) * s == q * s - s;
    }
    forall j: nat | SlicesBegun(c, start, now, j) ensures j == k {
      BegunOnce(c, start, now, j, k);
      BegunOnce(c, start, now, k, j);
    }
  }

  lemma {:induction false} BegunOnce(c: Config, start: nat, now: nat, j: nat, k: nat)
    requires c.Ok() && SlicesBegun(c, start, now, j) && SlicesBegun(c, start, now, k)
    ensures j <= k
  {
    if j > k { MulMono(c.slice, k, j - 1); }
  }

  lemma {:induction false} WithinExactly(c: Config, now: nat, lim: Limit, sl: Slice, size: nat, k: nat)
    requires c.Ok() && SlicesBegun(c, sl.start, now, k)
    ensures WithinBps(c, now, lim, sl, size) <==> (sl.bytes + size) * c.hz <= lim.bps * (k * c.slice)
    ensures WithinIops(c, now, lim, sl)
            <==> (sl.ios + 1) * c.hz <= lim.iops * (k * c.slice) && sl.ios + 1 <= 0xFFFF_FFFF
  {
    RoundedIs(c, now, sl, k);
    DivFits(sl.bytes + size, lim.bps * (k * c.slice), c.hz);
    DivFits(sl.ios + 1, lim.iops * (k * c.slice), c.hz);
  }

  /** tg_may_dispatch says yes exactly when the bio may go. */
  lemma {:induction false} GoesExactly(c: Config, now: nat, lim: Limit, sl: Slice, size: nat)
    requires c.Ok() && lim.Ok()
    ensures MayDispatch(c, now, lim, sl, size).ok <==> Goes(c, now, lim, sl, size)
  {
    if !lim.None() {
      if sl.start <= now <= sl.end {
        var s := Renew(c, now, sl);
        var k := BegunExists(c, sl.start, now);
        assert s.start == sl.start && s.bytes == sl.bytes && s.ios == sl.ios;
        WithinExactly(c, now, lim, s, size, k);
      } else {
        assert SlicesBegun(c, now, now, 1);
        WithinExactly(c, now, lim, NewSlice(c, now), size, 1);
      }
    }
  }

  /** A bio waits exactly if others do already or it may not go yet. */
  lemma {:induction false} AdmitExactly(c: Config, now: nat, td: Data, id: nat, write: bool, bio: Bio)
    requires c.Ok() && id < |td.groups| && GroupOk(td.groups[id])
    ensures var d := DirOf(td.groups[id], write);
      Admit(c, now, td, id, write, bio).1 <==> d.queue != [] || !Goes(c, now, d.lim, d.slice, bio.size)
  {
    var d := DirOf(td.groups[id], write);
    GoesExactly(c, now, d.lim, d.slice, bio.size);
  }

  /** Nothing has been charged to the slice, or it is over. */
  predicate Fresh(now: nat, sl: Slice) {
    !(sl.start <= now <= sl.end) || (sl.bytes == 0 && sl.ios == 0)
  }

  /** The rates allow the bio within the time of one slice. */
  predicate OneSliceAllows(c: Config, lim: Limit, size: nat) {
    size * c.hz <= lim.bps * c.slice && c.hz <= lim.iops * c.slice
  }

  /** A bio that the rates allow for one slice passes on a fresh slice. */
  lemma {:induction false} FreshPasses(c: Config, now: nat, td: Data, id: nat, write: bool, bio: Bio)
    requires c.Ok() && id < |td.groups| && GroupOk(td.groups[id])
    requires var d := DirOf(td.groups[id], write);
      d.queue == [] && Fresh(now, d.slice) && OneSliceAllows(c, d.lim, bio.size)
    ensures !Admit(c, now, td, id, write, bio).1
  {
    var d := DirOf(td.groups[id], write);
    AdmitExactly(c, now, td, id, write, bio);
    if d.slice.start <= now <= d.slice.end {
      var k := BegunExists(c, d.slice.start, now);
      FitsFirst(c, d.lim, bio.size, k);
    } else {
      FitsFirst(c, d.lim, bio.size, 1);
    }
  }

  lemma {:induction false} AdmitTells(c: Config, now: nat, td: Data, id: nat, write: bool, bio: Bio)
    requires c.Ok() && id < |td.groups| && GroupOk(td.groups[id])
    ensures var d, waits := DirOf(td.groups[id], write), Admit(c, now, td, id, write, bio).1;
      && (waits <==> d.queue != [] || !Goes(c, now, d.lim, d.slice, bio.size))
      && (d.queue == [] && Fresh(now, d.slice) && OneSliceAllows(c, d.lim, bio.size) ==> !waits)
  {
    var d := DirOf(td.groups[id], write);
    AdmitExactly(c, now, td, id, write, bio);
    if d.queue == [] && Fresh(now, d.slice) && OneSliceAllows(c, d.lim, bio.size) {
      FreshPasses(c, now, td, id, write, bio);
    }
  }

  lemma {:induction false} FitsFirst(c: Config, lim: Limit, size: nat, k: nat)
    requires 1 <= k && OneSliceAllows(c, lim, size)
    ensures Fits(c, lim, 0, 0, size, k)
  {
    MulMono(c.slice, 1, k);
    MulMono(lim.bps, c.slice, k * c.slice);
    MulMono(lim.iops, c.slice, k * c.slice);
  }

  // ----- the wait -----

  lemma {:induction false} RoundedLater(c: Config, now: nat, sl: Slice, t: nat)
    requires c.Ok() && sl.start <= now <= t
    ensures Rounded(c, now, sl) <= Rounded(c, t, sl) && t - sl.start <= Rounded(c, t, sl)
    ensures sl.start < t ==> Rounded(c, t, sl) < t - sl.start + c.slice
  {
    var j := BegunExists(c, sl.start, now);
    var k := BegunExists(c, sl.start, t);
    RoundedIs(c, now, sl, j);
    RoundedIs(c, t, sl, k);
    if k < j { MulMono(c.slice, k, j - 1); }
    MulMono(c.slice, j, if j <= k then k else j);
    assert (k - 1) * c.slice == k * c.slice - c.slice;
  }

  /** The wait that the byte limit tells, by its parts. */
  lemma {:induction false} BpsWaitIs(c: Config, now: nat, lim: Limit, sl: Slice, size: nat, rnd: nat, extra: nat)
    requires c.Ok() && lim.Ok() && sl.start <= now && !WithinBps(c, now, lim, sl, size)
    requires rnd == Rounded(c, now, sl) && extra == sl.bytes + size - lim.bps * rnd / c.hz
    ensures now + BpsWait(c, now, lim, sl, size) ==
      sl.start + rnd + if extra * c.hz / lim.bps == 0 then 1 else extra * c.hz / lim.bps
  {
  }

  /** A tick after that wait the bytes fit. */
  lemma {:induction false} BpsWaitEnough(c: Config, now: nat, lim: Limit, sl: Slice, size: nat, t: nat)
    requires c.Ok() && lim.Ok() && sl.start <= now <= t && !WithinBps(c, now, lim, sl, size)
    requires now + BpsWait(c, now, lim, sl, size) < t
    ensures WithinBps(c, t, lim, sl, size)
  {
    var rnd, r := Rounded(c, now, sl), Rounded(c, t, sl);
    var extra := sl.bytes + size - lim.bps * rnd / c.hz;
    RoundedLater(c, now, sl, t);
    BpsWaitIs(c, now, lim, sl, size, rnd, extra);
    EnoughBytes(lim.bps, c.hz, rnd, r, extra);
  }

  /** The wait is too long by at most a slice and the time of a byte. */
  lemma {:induction false} BpsWaitNotLong(c: Config, now: nat, lim: Limit, sl: Slice, size: nat, t: nat)
    requires c.Ok() && lim.Ok() && sl.start <= now <= t && !WithinBps(c, now, lim, sl, size)
    requires t + c.slice + c.hz / lim.bps <= now + BpsWait(c, now, lim, sl, size)
    ensures !WithinBps(c, t, lim, sl, size)
  {
    var rnd, r := Rounded(c, now, sl), Rounded(c, t, sl);
    var extra := sl.bytes + size - lim.bps * rnd / c.hz;
    RoundedLater(c, now, sl, t);
    BpsWaitIs(c, now, lim, sl, size, rnd, extra);
    if t != sl.start { NotYetAt(lim.bps, c.hz, rnd, r, extra); }
  }

  lemma {:induction false} NotYetAt(bps: nat, hz: nat, rnd: nat, r: nat, extra: nat)
    requires 0 < bps && 0 < hz && 0 < extra
    requires r + 1 + hz / bps <= rnd + if extra * hz / bps == 0 then 1 else extra * hz / bps
    ensures bps * r / hz < bps * rnd / hz + extra
  {
    if extra * hz / bps == 0 {
      MulMono(bps, r, rnd);
      DivMono(bps * r, bps * rnd, hz);
    } else {
      NotYetBytes(bps, hz, rnd, r, extra);
    }
  }

  lemma {:induction false} DivMono(x: nat, y: nat, h: nat)
    requires 0 < h && x <= y
    ensures x / h <= y / h
  {
    DivFits(x / h, x, h);
    DivFits(x / h, y, h);
  }

  lemma {:induction false} EnoughBytes(bps: nat, hz: nat, rnd: nat, r: nat, extra: nat)
    requires 0 < bps && 0 < hz && r >= rnd + extra * hz / bps + 1
    ensures bps * rnd / hz + extra <= bps * r / hz
  {
    var a, w := bps * rnd / hz, extra * hz / bps;
    DivFits(a, bps * rnd, hz);
    DivFits(w + 1, extra * hz, bps);
    MulMono(bps, rnd + (w + 1), r);
    assert bps * (rnd + (w + 1)) == bps * rnd + (w + 1) * bps;
    assert (a + extra) * hz == a * hz + extra * hz;
    DivFits(a + extra, bps * r, hz);
  }

  lemma {:induction false} NotYetBytes(bps: nat, hz: nat, rnd: nat, r: nat, extra: nat)
    requires 0 < bps && 0 < hz && r + 1 + hz / bps <= rnd + extra * hz / bps
    ensures bps * r / hz < bps * rnd / hz + extra
  {
    var a, w, b := bps * rnd / hz, extra * hz / bps, hz / bps;
    assert bps * rnd < (a + 1) * hz by { DivFits(a + 1, bps * rnd, hz); }
    assert w * bps <= extra * hz by { DivFits(w, extra * hz, bps); }
    assert hz < (b + 1) * bps by { DivFits(b + 1, hz, bps); }
    LessBytes(bps, hz, rnd, r, extra, a, w, b);
    DivFits(a + extra, bps * r, hz);
  }

  lemma {:induction false} LessBytes(bps: nat, hz: nat, rnd: nat, r: nat, extra: nat, a: nat, w: nat, b: nat)
    requires r + (1 + b) <= rnd + w
    requires bps * rnd < (a + 1) * hz && w * bps <= extra * hz && hz < (b + 1) * bps
    ensures bps * r < (a + extra) * hz
  {
    MulMono(bps, r + (1 + b), rnd + w);
    assert bps * (r + (1 + b)) == bps * r + (b + 1) * bps;
    assert bps * (rnd + w) == bps * rnd + w * bps;
    assert (a + 1) * hz == a * hz + hz && (a + extra) * hz == a * hz + extra * hz;
  }

  lemma {:induction false} EnoughBios(iops: nat, hz: nat, n: nat, r: nat)
    requires 0 < iops && 0 < hz && n * hz / iops < r
    ensures n <= iops * r / hz
  {
    var w := n * hz / iops;
    DivFits(w + 1, n * hz, iops);
    MulMono(iops, w + 1, r);
    DivFits(n, iops * r, hz);
  }

  lemma {:induction false} NotYetBios(iops: nat, hz: nat, n: nat, r: nat)
    requires 0 < iops && 0 < hz && r < n * hz / iops
    ensures iops * r / hz < n
  {
    var w := n * hz / iops;
    DivFits(w, n * hz, iops);
    MulMono(iops, r + 1, w);
    assert iops * (r + 1) == iops * r + iops;
    DivFits(n, iops * r, hz);
  }

  /** The wait that the bio limit tells ends a tick after as many ticks of the slice as
      the bios need. */
  lemma {:induction false} IopsWaitIs(c: Config, now: nat, lim: Limit, sl: Slice, n: nat)
    requires c.Ok() && lim.Ok() && sl.start <= now && !WithinIops(c, now, lim, sl) && n == sl.ios + 1 <= 0xFFFF_FFFF
    ensures now + IopsWait(c, now, lim, sl) == sl.start + n * c.hz / lim.iops + 1
  {
    if n * c.hz / lim.iops < now - sl.start { EnoughBios(lim.iops, c.hz, n, Rounded(c, now, sl)); }
  }

  /** After that wait one more bio fits, unless the 32-bit cap is reached. */
  lemma {:induction false} IopsWaitEnough(c: Config, now: nat, lim: Limit, sl: Slice, t: nat)
    requires c.Ok() && lim.Ok() && sl.start <= now <= t && !WithinIops(c, now, lim, sl) && sl.ios + 1 <= 0xFFFF_FFFF
    requires now + IopsWait(c, now, lim, sl) <= t
    ensures WithinIops(c, t, lim, sl)
  {
    RoundedLater(c, now, sl, t);
    IopsWaitIs(c, now, lim, sl, sl.ios + 1);
    EnoughBios(lim.iops, c.hz, sl.ios + 1, Rounded(c, t, sl));
  }

  /** The wait is too long by at most a slice. */
  lemma {:induction false} IopsWaitNotLong(c: Config, now: nat, lim: Limit, sl: Slice, t: nat)
    requires c.Ok() && lim.Ok() && sl.start <= now <= t && !WithinIops(c, now, lim, sl) && sl.ios + 1 <= 0xFFFF_FFFF
    requires t + c.slice < now + IopsWait(c, now, lim, sl)
    ensures !WithinIops(c, t, lim, sl)
  {
    RoundedLater(c, now, sl, t);
    IopsWaitIs(c, now, lim, sl, sl.ios + 1);
    if t != sl.start { NotYetBios(lim.iops, c.hz, sl.ios + 1, Rounded(c, t, sl)); }
  }

  /** In the slice s the bytes, or one more bio, fit at time t. */
  ghost predicate BytesFitAt(c: Config, lim: Limit, s: Slice, size: nat, t: nat) {
    exists k: nat :: SlicesBegun(c, s.start, t, k) && (s.bytes + size) * c.hz <= lim.bps * (k * c.slice)
  }

  ghost predicate BioFitsAt(c: Config, lim: Limit, s: Slice, t: nat) {
    exists k: nat :: SlicesBegun(c, s.start, t, k) && (s.ios + 1) * c.hz <= lim.iops * (k * c.slice)
                && s.ios + 1 <= 0xFFFF_FFFF
  }

  lemma {:induction false} FitAtExactly(c: Config, lim: Limit, s: Slice, size: nat, t: nat)
    requires c.Ok() && s.start <= t
    ensures BytesFitAt(c, lim, s, size, t) <==> WithinBps(c, t, lim, s, size)
    ensures BioFitsAt(c, lim, s, t) <==> WithinIops(c, t, lim, s)
  {
    var k := BegunExists(c, s.start, t);
    WithinExactly(c, t, lim, s, size, k);
  }

  /** What a refusal tells. The slice lasts through the wait. If the bytes do not fit,
      they do a tick after it, and did not a slice and the time of a byte before; if
      only the bio does not, it does after it, and did not a slice before. */
  lemma {:induction false} WaitTells(c: Config, now: nat, lim: Limit, sl: Slice, size: nat, t: nat, m: May)
    requires c.Ok() && lim.Ok() && m == MayDispatch(c, now, lim, sl, size) && !m.ok && now <= t
    ensures m.slice.start <= now && now + m.wait <= m.slice.end
    ensures !BytesFitAt(c, lim, m.slice, size, now) ==>
      && (now + m.wait < t ==> BytesFitAt(c, lim, m.slice, size, t))
      && (t + c.slice + c.hz / lim.bps <= now + m.wait ==> !BytesFitAt(c, lim, m.slice, size, t))
    ensures BytesFitAt(c, lim, m.slice, size, now) && m.slice.ios + 1 <= 0xFFFF_FFFF ==>
      && (now + m.wait <= t ==> BioFitsAt(c, lim, m.slice, t))
      && (t + c.slice < now + m.wait ==> !BioFitsAt(c, lim, m.slice, t))
  {
    var s := Renew(c, now, sl);
    assert m.slice == s.(end := m.slice.end);
    FitAtExactly(c, lim, m.slice, size, now);
    FitAtExactly(c, lim, m.slice, size, t);
    SameWithin(c, now, lim, s, m.slice, size);
    if !WithinBps(c, now, lim, s, size) {
      SameBpsWait(c, now, lim, s, m.slice, size);
      BytesTell(c, now, lim, m.slice, size, t);
    } else if s.ios + 1 <= 0xFFFF_FFFF {
      SameIopsWait(c, now, lim, s, m.slice);
      BiosTell(c, now, lim, m.slice, t);
    }
  }

  lemma {:induction false} SameBpsWait(c: Config, now: nat, lim: Limit, s: Slice, e: Slice, size: nat)
    requires c.Ok() && lim.Ok() && s.start <= now && e == s.(end := e.end) && !WithinBps(c, now, lim, s, size)
    ensures !WithinBps(c, now, lim, e, size) && BpsWait(c, now, lim, s, size) == BpsWait(c, now, lim, e, size)
  {
  }

  lemma {:induction false} SameIopsWait(c: Config, now: nat, lim: Limit, s: Slice, e: Slice)
    requires c.Ok() && lim.Ok() && s.start <= now && e == s.(end := e.end)
    ensures WithinIops(c, now, lim, s) == WithinIops(c, now, lim, e)
    ensures IopsWait(c, now, lim, s) == IopsWait(c, now, lim, e)
  {
  }

  lemma {:induction false} BytesTell(c: Config, now: nat, lim: Limit, s: Slice, size: nat, t: nat)
    requires c.Ok() && lim.Ok() && s.start <= now <= t && !WithinBps(c, now, lim, s, size)
    ensures now + BpsWait(c, now, lim, s, size) < t ==> WithinBps(c, t, lim, s, size)
    ensures t + c.slice + c.hz / lim.bps <= now + BpsWait(c, now, lim, s, size) ==> !WithinBps(c, t, lim, s, size)
  {
    if now + BpsWait(c, now, lim, s, size) < t { BpsWaitEnough(c, now, lim, s, size, t); }
    if t + c.slice + c.hz / lim.bps <= now + BpsWait(c, now, lim, s, size) { BpsWaitNotLong(c, now, lim, s, size, t); }
  }

  lemma {:induction false} BiosTell(c: Config, now: nat, lim: Limit, s: Slice, t: nat)
    requires c.Ok() && lim.Ok() && s.start <= now <= t && !WithinIops(c, now, lim, s) && s.ios + 1 <= 0xFFFF_FFFF
    ensures now + IopsWait(c, now, lim, s) <= t ==> WithinIops(c, t, lim, s)
    ensures t + c.slice < now + IopsWait(c, now, lim, s) ==> !WithinIops(c, t, lim, s)
  {
    if now + IopsWait(c, now, lim, s) <= t { IopsWaitEnough(c, now, lim, s, t); }
    if t + c.slice < now + IopsWait(c, now, lim, s) { IopsWaitNotLong(c, now, lim, s, t); }
  }

  // ----- slices -----

  /** r is the least multiple of s not below x. */
  predicate LeastMultiple(r: nat, s: nat, x: nat)
    requires 0 < s
  {
    r % s == 0 && x <= r < x + s
  }

  lemma {:induction false} RoundUpMultiple(x: nat, s: nat)
    requires 0 < s
    ensures LeastMultiple(RoundUp(x, s), s, x)
  {
    RoundUpIsRoundup(x, s);
    ZeroRest((x + s - 1) / s, s);
  }

  lemma {:induction false} ZeroRest(q: nat, s: nat)
    requires 0 < s
    ensures q * s % s == 0
  {
    DivFits(q, q * s, s);
    DivFits(q + 1, q * s, s);
    assert (q + 1) * s == q * s + s;
    assert q * s == (q * s) / s * s + q * s % s;
  }

  /** The slice tg_may_dispatch leaves: the one that is still on with what is charged to
      it, or a new one; long enough for a slice and for the wait, and no longer than
      it was unless it has to be, and then to a multiple of a slice. */
  lemma {:induction false} AskedSlice(c: Config, now: nat, lim: Limit, sl: Slice, size: nat, m: May)
    requires c.Ok() && lim.Ok() && !lim.None() && m == MayDispatch(c, now, lim, sl, size)
    ensures m.ok ==> m.wait == 0
    ensures if sl.start <= now <= sl.end then m.slice == sl.(end := m.slice.end)
            else m.slice == Slice(now, m.slice.end, 0, 0)
    ensures var was := if sl.start <= now <= sl.end then sl.end else now + c.slice;
      var need := now + if m.wait > c.slice then m.wait else c.slice;
      if was >= need then m.slice.end == was else m.slice.end % c.slice == 0 && need <= m.slice.end < need + c.slice
  {
    RoundUpMultiple(now + c.slice, c.slice);
    RoundUpMultiple(now + m.wait, c.slice);
  }

  /** A trim after n whole slices: the bytes and bios that the rates allow for them, in
      whole numbers, are forgotten, and so is their time, unless both are none. */
  lemma {:induction false} TrimExactly(c: Config, now: nat, lim: Limit, sl: Slice, n: nat, bytes: nat, ios: nat,
                                       r: Slice)
    requires c.Ok() && sl.start <= now <= sl.end && n * c.slice <= now - sl.start < (n + 1) * c.slice
    requires bytes * c.hz <= lim.bps * (n * c.slice) < (bytes + 1) * c.hz
    requires ios * c.hz <= lim.iops * (n * c.slice) < (ios + 1) * c.hz
    requires r == Trim(c, now, lim, sl)
    ensures LeastMultiple(r.end, c.slice, now + c.slice)
    ensures if bytes == 0 && ios == 0 then r == sl.(end := r.end)
      else r.start == sl.start + n * c.slice && r.bytes == (if sl.bytes >= bytes then sl.bytes - bytes else 0)
           && r.ios == if sl.ios >= ios then sl.ios - ios else 0
  {
    RoundUpMultiple(now + c.slice, c.slice);
    QuotientIs(now - sl.start, c.slice, n);
    assert 1 * (now - sl.start) == now - sl.start;
    if n == 0 {
      NoSlices(lim.bps, c.hz, c.slice, bytes);
      NoSlices(lim.iops, c.hz, c.slice, ios);
    } else {
      ForgetExactly(c, lim, EndAt(c, sl, now + c.slice), n, bytes, ios);
    }
  }

  lemma {:induction false} NoSlices(rate: nat, hz: nat, slice: nat, cut: nat)
    requires 0 < hz && cut * hz <= rate * (0 * slice)
    ensures cut == 0
  {
    if cut > 0 { MulMono(hz, 1, cut); }
  }

  lemma {:induction false} ForgetExactly(c: Config, lim: Limit, sl: Slice, n: nat, bytes: nat, ios: nat)
    requires c.Ok()
    requires bytes * c.hz <= lim.bps * (n * c.slice) < (bytes + 1) * c.hz
    requires ios * c.hz <= lim.iops * (n * c.slice) < (ios + 1) * c.hz
    ensures Forget(c, lim, sl, n) == if bytes == 0 && ios == 0 then sl
      else Slice(sl.start + n * c.slice, sl.end, if sl.bytes >= bytes then sl.bytes - bytes else 0,
                 if sl.ios >= ios then sl.ios - ios else 0)
  {
    assert n * c.slice == c.slice * n;
    QuotientIs(lim.bps * (n * c.slice), c.hz, bytes);
    QuotientIs(lim.iops * (n * c.slice), c.hz, ios);
  }

  lemma {:induction false} QuotientIs(x: nat, h: nat, q: nat)
    requires 0 < h && q * h <= x < (q + 1) * h
    ensures x / h == q
  {
    DivFits(q, x, h);
    DivFits(q + 1, x, h);
  }

  lemma {:induction false} CutKeepsPace(rate: nat, hz: nat, used: nat, cut: nat, size: nat, passed: nat, begun: nat)
    requires cut * hz <= rate * passed < (cut + 1) * hz
    ensures used <= cut && size * hz <= rate * begun ==> (used + size) * hz <= rate * (begun + passed)
    ensures cut <= used ==>
      && ((used - cut + size) * hz <= rate * begun ==> (used + size) * hz <= rate * (begun + passed))
      && ((used + size + 1) * hz <= rate * (begun + passed) ==> (used - cut + size) * hz <= rate * begun)
  {
    assert rate * (begun + passed) == rate * begun + rate * passed;
    assert (used + size) * hz == used * hz + size * hz;
    if used <= cut { MulMono(hz, used, cut); }
    if cut <= used {
      assert (used + size) * hz == (used - cut + size) * hz + cut * hz;
      assert (used + size + 1) * hz == (used - cut + size) * hz + (cut + 1) * hz;
    }
  }

  lemma {:induction false} BegunLater(c: Config, start: nat, n: nat, t: nat, k: nat)
    requires c.Ok() && SlicesBegun(c, start + n * c.slice, t, k) && start + n * c.slice < t
    ensures SlicesBegun(c, start, t, n + k) && (n + k) * c.slice == k * c.slice + n * c.slice
  {
    assert (n + k) * c.slice == k * c.slice + n * c.slice;
    assert (n + k - 1) * c.slice == (k - 1) * c.slice + n * c.slice;
    if k == 1 { assert (k - 1) * c.slice == 0; }
  }

  lemma {:induction false} WholeSlices(c: Config, x: nat) returns (n: nat)
    requires c.Ok()
    ensures n * c.slice <= x < (n + 1) * c.slice
  {
    n := Quotient(x, c.slice);
  }

  lemma {:induction false} Quotient(x: nat, h: nat) returns (q: nat)
    requires 0 < h
    ensures q * h <= x < (q + 1) * h
  {
    q := x / h;
    DivFits(q, x, h);
    DivFits(q + 1, x, h);
  }

  /** What throtl_trim_slice leaves, with the parts it has cut. */
  lemma {:induction false} TrimParts(c: Config, now: nat, lim: Limit, sl: Slice, r: Slice)
    returns (n: nat, bytes: nat, ios: nat)
    requires c.Ok() && sl.start <= now <= sl.end && r == Trim(c, now, lim, sl)
    ensures r.start == sl.start + n * c.slice <= now
    ensures r.bytes == (if sl.bytes >= bytes then sl.bytes - bytes else 0)
    ensures r.ios == if sl.ios >= ios then sl.ios - ios else 0
    ensures bytes * c.hz <= lim.bps * (n * c.slice) < (bytes + 1) * c.hz
    ensures ios * c.hz <= lim.iops * (n * c.slice) < (ios + 1) * c.hz
  {
    n := WholeSlices(c, now - sl.start);
    bytes := Quotient(lim.bps * (n * c.slice), c.hz);
    ios := Quotient(lim.iops * (n * c.slice), c.hz);
    TrimExactly(c, now, lim, sl, n, bytes, ios, r);
    if bytes == 0 && ios == 0 {
      n := 0;
      assert 0 * c.slice == 0 && lim.bps * (0 * c.slice) == 0 && lim.iops * (0 * c.slice) == 0;
    }
  }

  /** A trim gives nothing away: bytes that fit after it fitted before. It costs less than
      a byte: bytes that fitted with one to spare fit after it, unless nothing is left
      charged, for then allowance that was not used is forgotten too. The slice it
      leaves begins at r.start, and at that tick the first one counts, as without the
      trim it would at the next. */
  lemma {:induction false} TrimKeepsPace(c: Config, now: nat, lim: Limit, sl: Slice, r: Slice, size: nat, t: nat)
    requires c.Ok() && sl.start <= now <= sl.end && r == Trim(c, now, lim, sl) && now <= t
    ensures BytesFitAt(c, lim, r, size, t) ==> BytesFitAt(c, lim, sl, size, if t == r.start then t + 1 else t)
    ensures BytesFitAt(c, lim, sl, size + 1, t) && r.bytes > 0 ==> BytesFitAt(c, lim, r, size, t)
  {
    var n, bytes, ios := TrimParts(c, now, lim, sl, r);
    var k := BegunExists(c, r.start, t);
    var j := BegunExists(c, sl.start, t);
    var u := if t == r.start then t + 1 else t;
    assert SlicesBegun(c, r.start, u, k);
    BegunLater(c, sl.start, n, u, k);
    BegunGrows(c, sl.start, t, j, u, n + k);
    FitIs(c, lim, r, size, t, k);
    FitIs(c, lim, sl, size, u, n + k);
    FitIs(c, lim, sl, size + 1, t, j);
    CutPays(lim.bps, c.hz, sl.bytes, bytes, r.bytes, size, n * c.slice, k * c.slice, j * c.slice);
  }

  lemma {:induction false} CutPays(rate: nat, hz: nat, used: nat, cut: nat, left: nat, size: nat, passed: nat,
                                   begun: nat, was: nat)
    requires cut * hz <= rate * passed < (cut + 1) * hz && left == (if used >= cut then used - cut else 0)
    requires was <= begun + passed
    ensures (left + size) * hz <= rate * begun ==> (used + size) * hz <= rate * (begun + passed)
    ensures (used + (size + 1)) * hz <= rate * was && left > 0 ==> (left + size) * hz <= rate * begun
  {
    CutKeepsPace(rate, hz, used, cut, size, passed, begun);
    MulMono(rate, was, begun + passed);
    assert used + (size + 1) == used + size + 1;
  }

  lemma {:induction false} FitIs(c: Config, lim: Limit, s: Slice, size: nat, t: nat, k: nat)
    requires c.Ok() && SlicesBegun(c, s.start, t, k)
    ensures BytesFitAt(c, lim, s, size, t) <==> (s.bytes + size) * c.hz <= lim.bps * (k * c.slice)
  {
    var i := BegunExists(c, s.start, t);
  }

  lemma {:induction false} BegunGrows(c: Config, start: nat, t: nat, j: nat, u: nat, k: nat)
    requires c.Ok() && t <= u && SlicesBegun(c, start, t, j) && SlicesBegun(c, start, u, k)
    ensures j <= k && j * c.slice <= k * c.slice
  {
    if j > k { MulMono(c.slice, k, j - 1); } else { MulMono(c.slice, j, k); }
  }

  // ----- rounds -----

  /** A direction is drained of its share, or of all it holds, or until the first bio may
      not go. */
  lemma {:induction false} DrainMost(c: Config, now: nat, d: Dir, budget: nat, r: (Dir, nat))
    requires c.Ok() && DirOk(d) && r == Drain(c, now, d, budget)
    ensures r.1 == budget || r.0.queue == [] || !Goes(c, now, r.0.lim, r.0.slice, r.0.queue[0].size)
    ensures |r.0.released| == |d.released| + r.1
    decreases budget
  {
    if budget > 0 && d.queue != [] {
      var (e, go) := Turn(c, now, d);
      if go {
        DrainMost(c, now, e, budget - 1, Drain(c, now, e, budget - 1));
      } else {
        AskAgain(c, now, d.lim, d.slice, d.queue[0].size);
        GoesExactly(c, now, e.lim, e.slice, e.queue[0].size);
      }
    }
  }

  /** One direction of a group after a round that lets at most n of its bios go. */
  ghost predicate Drained(c: Config, now: nat, d: Dir, e: Dir, n: nat) {
    && |d.released| <= |e.released| <= |d.released| + n
    && (|e.released| == |d.released| + n || e.queue == [] || !Goes(c, now, e.lim, e.slice, e.queue[0].size))
  }

  /** throtl_dispatch_tg: three quarters of the quantum go to reads and the rest to
      writes, and neither share is left unused while a bio may go. */
  lemma {:induction false} RoundShares(c: Config, now: nat, g: Group, h: Group)
    requires c.Ok() && GroupOk(g) && h == Round(c, now, g).0
    ensures Drained(c, now, g.read, h.read, c.group * 3 / 4)
    ensures Drained(c, now, g.write, h.write, c.group - c.group * 3 / 4)
  {
    DrainMost(c, now, g.read, c.MaxReads(), Drain(c, now, g.read, c.MaxReads()));
    DrainMost(c, now, g.write, c.MaxWrites(), Drain(c, now, g.write, c.MaxWrites()));
  }

  /** tg_update_disptime: the earlier of the times told for the two directions. */
  lemma {:induction false} DatedEarliest(c: Config, now: nat, g: Group, r: Group, write: bool)
    requires c.Ok() && GroupOk(g) && Holds(g) && r == Dated(c, now, g)
    ensures DirOf(g, write).queue != [] ==> r.disptime <= now + Ask(c, now, DirOf(g, write)).wait
    ensures || (g.read.queue != [] && r.disptime == now + Ask(c, now, g.read).wait)
            || (g.write.queue != [] && r.disptime == now + Ask(c, now, g.write).wait)
  {
  }
}
