/** The rate bound of the bandwidth throttle, over every run of one direction of
    one group with a constant limit. */
module ThrottleRate {
  import opened ThrottleSlice

  // ----- one resource: bytes or bios -----

  /** `total` units since `t0`, of which `used` are charged to the present slice,
      never exceed what the rate allows up to the slice's start, and up to one
      slice past the last charge. */
  predicate Account(rate: nat, c: Config, t0: nat, start: nat, last: nat, used: nat, total: nat) {
    && t0 <= start && t0 <= last
    && total * c.hz <= used * c.hz + rate * (start - t0)
    && total * c.hz <= rate * (last - t0 + c.slice)
  }

  lemma {:induction false} MulLe(r: nat, a: nat, b: nat)
    requires a <= b
    ensures r * a <= r * b
  {
  }

  lemma {:induction false} ScaleLe(rate: nat, ticks: nat, hz: nat)
    requires 0 < hz
    ensures Scale(rate, ticks, hz) * hz <= rate * ticks
  {
  }

  /** A new slice may forget what it charged: it starts late enough. */
  lemma {:induction false} FreshAccount(rate: nat, c: Config, t0: nat, start: nat, last: nat, used: nat, total: nat,
                                        now: nat)
    requires Account(rate, c, t0, start, last, used, total) && last + c.slice <= now
    ensures Account(rate, c, t0, now, last, 0, total)
  {
    MulLe(rate, last - t0 + c.slice, now - t0);
  }

  /** A charge within the limit keeps the account. */
  lemma {:induction false} ChargeAccount(rate: nat, c: Config, t0: nat, start: nat, last: nat, used: nat, total: nat,
                                         now: nat, n: nat, rnd: nat)
    requires c.Ok() && Account(rate, c, t0, start, last, used, total) && start <= now
    requires used + n <= Scale(rate, rnd, c.hz) && rnd <= now - start + c.slice
    ensures Account(rate, c, t0, start, now, used + n, total + n)
  {
    ScaleLe(rate, rnd, c.hz);
    MulLe(c.hz, used + n, Scale(rate, rnd, c.hz));
    MulLe(rate, rnd, now - start + c.slice);
    assert (total + n) * c.hz == total * c.hz + n * c.hz;
    assert (used + n) * c.hz == used * c.hz + n * c.hz;
    assert rate * (now - start + c.slice) + rate * (start - t0) == rate * (now - t0 + c.slice);
  }

  /** Trimming forgets no more than the rate allowed for the time trimmed. */
  lemma {:induction false} TrimAccount(rate: nat, c: Config, t0: nat, start: nat, last: nat, used: nat, total: nat,
                                       ticks: nat)
    requires c.Ok() && Account(rate, c, t0, start, last, used, total)
    ensures Account(rate, c, t0, start + ticks, last, Minus(used, Scale(rate, ticks, c.hz)), total)
  {
    var t := Scale(rate, ticks, c.hz);
    ScaleLe(rate, ticks, c.hz);
    assert rate * (start + ticks - t0) == rate * (start - t0) + rate * ticks;
    if used >= t {
      assert used * c.hz == (used - t) * c.hz + t * c.hz;
    } else {
      MulLe(c.hz, used, t);
    }
  }

  // ----- the meter of one direction -----

  /** The slice, all bytes and bios charged so far, the last charge and the start
      of the present slice before any trimming. */
  datatype Meter = Meter(now: nat, sl: Slice, bytes: nat, ios: nat, last: nat, born: nat)

  /** A limited direction whose first slice starts at t0. */
  function Start(c: Config, t0: nat): Meter { Meter(t0, NewSlice(c, t0), 0, 0, t0, t0) }

  datatype Step =
    | Tick(jiffies: nat)
    | Probe(size: nat)     // tg_update_disptime asks when the first bio may go
    | Offer(size: nat)     // a bio goes if tg_may_dispatch lets it

  function Next(c: Config, lim: Limit, m: Meter, s: Step): Meter
    requires c.Ok() && lim.Ok() && m.sl.start <= m.sl.end
  {
    match s
    case Tick(j) => m.(now := m.now + j)
    case Probe(size) =>
      m.(sl := MayDispatch(c, m.now, lim, m.sl, size).slice, born := Born(lim, m))
    case Offer(size) =>
      var may := MayDispatch(c, m.now, lim, m.sl, size);
      if !may.ok then m.(sl := may.slice, born := Born(lim, m))
      else
        var charged := Charge(may.slice, size);
        Meter(m.now, if charged.start <= charged.end then Trim(c, m.now, lim, charged) else charged,
              m.bytes + size, m.ios + 1, m.now, Born(lim, m))
  }

  function Born(lim: Limit, m: Meter): nat {
    if !lim.None() && Used(m.now, m.sl) then m.now else m.born
  }

  /** Holds in every state of a run. */
  predicate Sound(c: Config, lim: Limit, t0: nat, m: Meter) {
    && m.sl.start <= m.now && m.last <= m.now && m.sl.start <= m.sl.end
    && m.last + c.slice <= m.sl.end && m.born + c.slice <= m.sl.end
    && m.sl.bytes <= m.bytes && m.sl.ios <= m.ios
    && Account(lim.bps, c, t0, m.sl.start, m.last, m.sl.bytes, m.bytes)
    && Account(lim.iops, c, t0, m.sl.start, m.last, m.sl.ios, m.ios)
  }

  lemma {:induction false} RenewSound(c: Config, lim: Limit, t0: nat, m: Meter)
    requires c.Ok() && Sound(c, lim, t0, m) && !lim.None()
    ensures var r := m.(sl := Renew(c, m.now, m.sl), born := Born(lim, m));
      Sound(c, lim, t0, r) && r.now <= r.sl.end && r.now + c.slice <= r.sl.end
  {
    if Used(m.now, m.sl) {
      FreshAccount(lim.bps, c, t0, m.sl.start, m.last, m.sl.bytes, m.bytes, m.now);
      FreshAccount(lim.iops, c, t0, m.sl.start, m.last, m.sl.ios, m.ios, m.now);
    }
  }

  lemma {:induction false} MaySound(c: Config, lim: Limit, t0: nat, m: Meter, size: nat)
    requires c.Ok() && lim.Ok() && Sound(c, lim, t0, m) && !lim.None()
    ensures var r := m.(sl := MayDispatch(c, m.now, lim, m.sl, size).slice, born := Born(lim, m));
      Sound(c, lim, t0, r) && r.now <= r.sl.end
  {
    RenewSound(c, lim, t0, m);
  }

  /** What tg_may_dispatch has checked when it says yes. */
  lemma {:induction false} Allowed(c: Config, now: nat, lim: Limit, sl: Slice, size: nat)
    requires c.Ok() && lim.Ok() && !lim.None() && MayDispatch(c, now, lim, sl, size).ok
    ensures var s := Renew(c, now, sl);
      && s == MayDispatch(c, now, lim, sl, size).slice && s.start <= now
      && WithinBps(c, now, lim, s, size) && WithinIops(c, now, lim, s)
  {
  }

  lemma {:induction false} OfferSound(c: Config, lim: Limit, t0: nat, m: Meter, size: nat)
    requires c.Ok() && lim.Ok() && Sound(c, lim, t0, m) && !lim.None()
    requires MayDispatch(c, m.now, lim, m.sl, size).ok
    ensures var charged := Charge(MayDispatch(c, m.now, lim, m.sl, size).slice, size);
      && charged.start <= charged.end && m.now <= charged.end
      && Sound(c, lim, t0, Meter(m.now, charged, m.bytes + size, m.ios + 1, m.now, Born(lim, m)))
  {
    RenewSound(c, lim, t0, m);
    Allowed(c, m.now, lim, m.sl, size);
    var s := Renew(c, m.now, m.sl);
    ChargeBytes(c, m.now, lim, t0, s, m.last, m.bytes, size);
    ChargeIos(c, m.now, lim, t0, s, m.last, m.ios);
  }

  lemma {:induction false} ChargeBytes(c: Config, now: nat, lim: Limit, t0: nat, s: Slice, last: nat, total: nat,
                                       size: nat)
    requires c.Ok() && s.start <= now && WithinBps(c, now, lim, s, size)
    requires Account(lim.bps, c, t0, s.start, last, s.bytes, total)
    ensures Account(lim.bps, c, t0, s.start, now, s.bytes + size, total + size)
  {
    ChargeAccount(lim.bps, c, t0, s.start, last, s.bytes, total, now, size, Rounded(c, now, s));
  }

  lemma {:induction false} ChargeIos(c: Config, now: nat, lim: Limit, t0: nat, s: Slice, last: nat, total: nat)
    requires c.Ok() && s.start <= now && WithinIops(c, now, lim, s)
    requires Account(lim.iops, c, t0, s.start, last, s.ios, total)
    ensures Account(lim.iops, c, t0, s.start, now, s.ios + 1, total + 1)
  {
    ChargeAccount(lim.iops, c, t0, s.start, last, s.ios, total, now, 1, Rounded(c, now, s));
  }

  /** throtl_trim_slice moves the start by some ticks that have passed, and
      forgets what the limits allow for them. */
  lemma {:induction false} TrimShape(c: Config, now: nat, lim: Limit, sl: Slice) returns (ticks: nat)
    requires c.Ok() && sl.start <= now <= sl.end
    ensures ticks <= now - sl.start
    ensures Trim(c, now, lim, sl) == Slice(sl.start + ticks, RoundUp(now + c.slice, c.slice),
              Minus(sl.bytes, Scale(lim.bps, ticks, c.hz)), Minus(sl.ios, Scale(lim.iops, ticks, c.hz)))
  {
    var n := Scale(1, now - sl.start, c.slice);
    ScaleLe(1, now - sl.start, c.slice);
    if n == 0 {
      ticks := 0;
      ScaleZero(lim.bps, c.hz);
      ScaleZero(lim.iops, c.hz);
    } else {
      ticks := ForgetShape(c, lim, EndAt(c, sl, now + c.slice), n);
    }
  }

  lemma {:induction false} ForgetShape(c: Config, lim: Limit, sl: Slice, n: nat) returns (ticks: nat)
    requires c.Ok()
    ensures ticks == 0 || ticks == c.slice * n
    ensures Forget(c, lim, sl, n) == Slice(sl.start + ticks, sl.end,
              Minus(sl.bytes, Scale(lim.bps, ticks, c.hz)), Minus(sl.ios, Scale(lim.iops, ticks, c.hz)))
  {
    if Scale(lim.bps, c.slice * n, c.hz) == 0 && Scale(lim.iops, c.slice * n, c.hz) == 0 {
      ticks := 0;
      ScaleZero(lim.bps, c.hz);
      ScaleZero(lim.iops, c.hz);
    } else {
      ticks := c.slice * n;
    }
  }

  lemma {:induction false} ScaleZero(rate: nat, hz: nat)
    requires 0 < hz
    ensures Scale(rate, 0, hz) == 0
  {
    assert rate * 0 == 0;
  }

  lemma {:induction false} TrimSound(c: Config, lim: Limit, t0: nat, m: Meter)
    requires c.Ok() && Sound(c, lim, t0, m) && m.now <= m.sl.end && m.last == m.now && m.born <= m.now
    ensures Sound(c, lim, t0, m.(sl := Trim(c, m.now, lim, m.sl)))
  {
    var ticks := TrimShape(c, m.now, lim, m.sl);
    TrimAccount(lim.bps, c, t0, m.sl.start, m.last, m.sl.bytes, m.bytes, ticks);
    TrimAccount(lim.iops, c, t0, m.sl.start, m.last, m.sl.ios, m.ios, ticks);
  }

  // ----- runs -----

  lemma {:induction false} NextSound(c: Config, lim: Limit, t0: nat, m: Meter, s: Step)
    requires c.Ok() && lim.Ok() && !lim.None() && Sound(c, lim, t0, m) && m.born <= m.now
    ensures Sound(c, lim, t0, Next(c, lim, m, s)) && Next(c, lim, m, s).born <= Next(c, lim, m, s).now
    ensures Next(c, lim, m, s).born != m.born ==> m.born + c.slice < Next(c, lim, m, s).born
  {
    match s
    case Tick(_) =>
    case Probe(size) => MaySound(c, lim, t0, m, size);
    case Offer(size) =>
      MaySound(c, lim, t0, m, size);
      var may := MayDispatch(c, m.now, lim, m.sl, size);
      if may.ok {
        OfferSound(c, lim, t0, m, size);
        TrimSound(c, lim, t0, Meter(m.now, Charge(may.slice, size), m.bytes + size, m.ios + 1, m.now, Born(lim, m)));
      }
  }

  /** The state after a run. */
  function After(c: Config, lim: Limit, m: Meter, steps: seq<Step>): Meter
    requires c.Ok() && lim.Ok()
    decreases |steps|
  {
    if steps == [] || m.sl.start > m.sl.end then m else After(c, lim, Next(c, lim, m, steps[0]), steps[1..])
  }

  lemma {:induction false} RunSound(c: Config, lim: Limit, t0: nat, m: Meter, steps: seq<Step>)
    requires c.Ok() && lim.Ok() && !lim.None() && Sound(c, lim, t0, m) && m.born <= m.now
    ensures Sound(c, lim, t0, After(c, lim, m, steps))
    decreases |steps|
  {
    if steps != [] {
      NextSound(c, lim, t0, m, steps[0]);
      RunSound(c, lim, t0, Next(c, lim, m, steps[0]), steps[1..]);
    }
  }

  /** The rate bound: whatever slices, extensions and trims a run goes through, the
      bytes and bios charged since t0 never exceed the limit for the time elapsed
      plus one slice; slice_end never falls behind slice_start; and nothing is held
      against the slice that did not go. */
  lemma {:induction false} RateBound(c: Config, lim: Limit, t0: nat, steps: seq<Step>)
    requires c.Ok() && lim.Ok() && !lim.None()
    ensures var m := After(c, lim, Start(c, t0), steps);
      && t0 <= m.now
      && m.bytes * c.hz <= lim.bps * (m.now - t0 + c.slice)
      && m.ios * c.hz <= lim.iops * (m.now - t0 + c.slice)
      && m.sl.start <= m.sl.end && m.sl.bytes <= m.bytes && m.sl.ios <= m.ios
  {
    assert Sound(c, lim, t0, Start(c, t0));
    RunSound(c, lim, t0, Start(c, t0), steps);
    var m := After(c, lim, Start(c, t0), steps);
    MulLe(lim.bps, m.last - t0 + c.slice, m.now - t0 + c.slice);
    MulLe(lim.iops, m.last - t0 + c.slice, m.now - t0 + c.slice);
  }
}
