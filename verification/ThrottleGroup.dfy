/** Throttled groups of block/blk-throttle.c: what one group holds, and how a
    round takes bios out of it. */
module ThrottleGroup {
  import opened ThrottleSlice

  datatype Bio = Bio(id: nat, size: nat)

  /** One direction of a group. `arrived` and `released` log every bio that came
      while the direction had a limit and every bio let go, in order. */
  datatype Dir = Dir(queue: seq<Bio>, nr: nat, slice: Slice, lim: Limit, arrived: seq<Bio>, released: seq<Bio>)

  /** A group: `linked` is its place on the queue's group list, `onRr` its flag
      that it is on the service tree. */
  datatype Group = Group(read: Dir, write: Dir, ref: nat, linked: bool, onRr: bool, disptime: nat)

  predicate DirOk(d: Dir) {
    && d.nr == |d.queue| && d.arrived == d.released + d.queue
    && d.lim.Ok() && d.slice.start <= d.slice.end
  }

  /** Bios held. */
  function Held(g: Group): nat { |g.read.queue| + |g.write.queue| }

  predicate Holds(g: Group) { g.read.nr != 0 || g.write.nr != 0 }

  /** The counts match the lists, and every queued bio and the group list each
      hold a reference. */
  predicate GroupOk(g: Group) {
    DirOk(g.read) && DirOk(g.write) && g.ref == Held(g) + if g.linked then 1 else 0
  }

  /** Ask tg_may_dispatch about the first bio queued. */
  function Ask(c: Config, now: nat, d: Dir): May
    requires c.Ok() && DirOk(d) && d.queue != []
  {
    MayDispatch(c, now, d.lim, d.slice, d.queue[0].size)
  }

  /** The slice stays well formed through tg_may_dispatch. */
  lemma {:induction false} AskSlice(c: Config, now: nat, lim: Limit, sl: Slice, size: nat)
    requires c.Ok() && lim.Ok() && sl.start <= sl.end
    ensures var m := MayDispatch(c, now, lim, sl, size);
      && m.slice.start <= m.slice.end && (lim.None() ==> m.slice == sl)
      && (!lim.None() ==> m.slice.start <= now <= m.slice.end && m.slice.start == Renew(c, now, sl).start
                          && m.slice.bytes == Renew(c, now, sl).bytes && m.slice.ios == Renew(c, now, sl).ios)
  {
  }

  lemma {:induction false} TrimOrder(c: Config, now: nat, lim: Limit, sl: Slice)
    requires c.Ok() && sl.start <= sl.end
    ensures Trim(c, now, lim, sl).start <= Trim(c, now, lim, sl).end
  {
    if !Used(now, sl) { SliceScale(now - sl.start, c.slice); }
  }

  lemma {:induction false} SliceScale(x: nat, s: nat)
    requires 0 < s
    ensures s * Scale(1, x, s) <= x
  {
    assert 1 * x == x;
  }

  /** tg_dispatch_one_bio on one direction. */
  function Release(c: Config, now: nat, d: Dir): (r: Dir)
    requires c.Ok() && DirOk(d) && d.queue != []
    ensures DirOk(r) && r.queue == d.queue[1..] && r.arrived == d.arrived && r.lim == d.lim
    ensures r.released == d.released + d.queue[..1]
  {
    var s := Charge(d.slice, d.queue[0].size);
    TrimOrder(c, now, d.lim, s);
    assert d.queue == [d.queue[0]] + d.queue[1..];
    Dir(d.queue[1..], d.nr - 1, Trim(c, now, d.lim, s), d.lim, d.arrived, d.released + [d.queue[0]])
  }

  /** Ask about the first bio and let it go if it may. */
  function Turn(c: Config, now: nat, d: Dir): (r: (Dir, bool))
    requires c.Ok() && DirOk(d) && d.queue != []
    ensures DirOk(r.0) && r.0.arrived == d.arrived && r.0.lim == d.lim
    ensures r.1 == Ask(c, now, d).ok
    ensures if r.1 then |r.0.queue| == |d.queue| - 1 && d.released <= r.0.released
            else r.0 == d.(slice := Ask(c, now, d).slice)
  {
    AskSlice(c, now, d.lim, d.slice, d.queue[0].size);
    var m := Ask(c, now, d);
    var d' := d.(slice := m.slice);
    if m.ok then (Release(c, now, d'), true) else (d', false)
  }

  /** One loop of throtl_dispatch_tg: release while the limits allow, at most
      `budget` bios. */
  function Drain(c: Config, now: nat, d: Dir, budget: nat): (r: (Dir, nat))
    requires c.Ok() && DirOk(d)
    ensures DirOk(r.0) && r.1 <= budget && |r.0.queue| + r.1 == |d.queue|
    ensures r.0.arrived == d.arrived && d.released <= r.0.released && r.0.lim == d.lim
    decreases budget
  {
    if budget == 0 || d.queue == [] then (d, 0)
    else
      var (e, go) := Turn(c, now, d);
      if !go then (e, 0)
      else
        var (f, n) := Drain(c, now, e, budget - 1);
        (f, n + 1)
  }

  /** Nothing may go: the first bio, if any, is over the limit now. */
  predicate Blocked(c: Config, now: nat, d: Dir)
    requires c.Ok() && DirOk(d)
  {
    d.queue != [] ==> !Ask(c, now, d).ok
  }

  /** Asking twice at the same time gives the same answer. */
  lemma {:induction false} AskAgain(c: Config, now: nat, lim: Limit, sl: Slice, size: nat)
    requires c.Ok() && lim.Ok() && sl.start <= sl.end
    ensures var m := MayDispatch(c, now, lim, sl, size);
      MayDispatch(c, now, lim, m.slice, size).ok == m.ok
  {
    AskSlice(c, now, lim, sl, size);
    if !lim.None() {
      var m := MayDispatch(c, now, lim, sl, size);
      SameWithin(c, now, lim, Renew(c, now, sl), Renew(c, now, m.slice), size);
    }
  }

  /** Only the start and the charges decide. */
  lemma {:induction false} SameWithin(c: Config, now: nat, lim: Limit, s: Slice, t: Slice, size: nat)
    requires c.Ok() && s.start <= now && t == s.(end := t.end)
    ensures WithinBps(c, now, lim, s, size) == WithinBps(c, now, lim, t, size)
    ensures WithinIops(c, now, lim, s) == WithinIops(c, now, lim, t)
  {
  }

  /** A round that lets nothing go has found the first bio over the limit. */
  lemma {:induction false} DrainBlocked(c: Config, now: nat, d: Dir, budget: nat)
    requires c.Ok() && DirOk(d) && 0 < budget && Drain(c, now, d, budget).1 == 0
    ensures Blocked(c, now, Drain(c, now, d, budget).0)
  {
    if d.queue != [] { AskAgain(c, now, d.lim, d.slice, d.queue[0].size); }
  }

  // ----- the group -----

  /** A group whose directions let a and b bios go. */
  function Rejoined(g: Group, rd: Dir, a: nat, wr: Dir, b: nat): (h: Group)
    requires GroupOk(g) && DirOk(rd) && DirOk(wr)
    requires |rd.queue| + a == |g.read.queue| && |wr.queue| + b == |g.write.queue|
    ensures GroupOk(h) && Held(h) + a + b == Held(g)
  {
    g.(read := rd, write := wr, ref := g.ref - a - b)
  }

  /** throtl_dispatch_tg: the group after a round, and how many bios went. */
  function Round(c: Config, now: nat, g: Group): (r: (Group, nat))
    requires c.Ok() && GroupOk(g)
    ensures GroupOk(r.0) && r.1 <= c.group && Held(r.0) + r.1 == Held(g)
    ensures r.0.onRr == g.onRr && r.0.linked == g.linked && r.0.disptime == g.disptime
  {
    var (rd, a) := Drain(c, now, g.read, c.MaxReads());
    var (wr, b) := Drain(c, now, g.write, c.MaxWrites());
    (Rejoined(g, rd, a, wr, b), a + b)
  }

  /** The wait tg_update_disptime finds in one direction; none without bios. */
  function Wait(c: Config, now: nat, d: Dir): (w: nat)
    requires c.Ok() && DirOk(d) && d.queue != []
    ensures Blocked(c, now, d) ==> 1 <= w
  {
    Ask(c, now, d).wait
  }

  function Asked(c: Config, now: nat, d: Dir): (r: Dir)
    requires c.Ok() && DirOk(d)
    ensures DirOk(r) && r.queue == d.queue && r.arrived == d.arrived && r.lim == d.lim
  {
    if d.queue == [] then d
    else
      AskSlice(c, now, d.lim, d.slice, d.queue[0].size);
      d.(slice := Ask(c, now, d).slice)
  }

  function Min(a: nat, b: nat): nat { if a < b then a else b }

  /** tg_update_disptime on a group that holds bios: when it may go on. */
  function Dated(c: Config, now: nat, g: Group): (r: Group)
    requires c.Ok() && GroupOk(g) && Holds(g)
    ensures GroupOk(r) && Held(r) == Held(g) && r.onRr == g.onRr && r.linked == g.linked && now <= r.disptime
    ensures Blocked(c, now, g.read) && Blocked(c, now, g.write) ==> now < r.disptime
  {
    var w := if g.read.queue == [] then Wait(c, now, g.write)
             else if g.write.queue == [] then Wait(c, now, g.read)
             else Min(Wait(c, now, g.read), Wait(c, now, g.write));
    g.(read := Asked(c, now, g.read), write := Asked(c, now, g.write), disptime := now + w)
  }

  /** A round that lets nothing go moves the group's time past now. */
  lemma {:induction false} IdleRoundWaits(c: Config, now: nat, g: Group)
    requires c.Ok() && GroupOk(g) && Holds(g) && Round(c, now, g).1 == 0
    ensures Holds(Round(c, now, g).0) && now < Dated(c, now, Round(c, now, g).0).disptime
  {
    DrainBlocked(c, now, g.read, c.MaxReads());
    DrainBlocked(c, now, g.write, c.MaxWrites());
  }

  // ----- new bios and draining -----

  function DirOf(g: Group, write: bool): Dir { if write then g.write else g.read }

  function WithDir(g: Group, write: bool, d: Dir): Group { if write then g.(write := d) else g.(read := d) }

  /** A bio that passes without being queued: the direction holds none. */
  function Passed(c: Config, now: nat, d: Dir, bio: Bio): (r: Dir)
    requires c.Ok() && DirOk(d) && d.queue == []
    ensures DirOk(r) && r.queue == [] && r.arrived == d.arrived + [bio] && r.released == d.released + [bio]
      && r.lim == d.lim
  {
    AskSlice(c, now, d.lim, d.slice, bio.size);
    var s := Charge(MayDispatch(c, now, d.lim, d.slice, bio.size).slice, bio.size);
    TrimOrder(c, now, d.lim, s);
    d.(slice := Trim(c, now, d.lim, s), arrived := d.arrived + [bio], released := d.released + [bio])
  }

  /** The slice as a denied check leaves it. */
  function Denied(c: Config, now: nat, d: Dir, bio: Bio): (r: Dir)
    requires c.Ok() && DirOk(d)
    ensures DirOk(r) && r == d.(slice := r.slice)
  {
    AskSlice(c, now, d.lim, d.slice, bio.size);
    d.(slice := MayDispatch(c, now, d.lim, d.slice, bio.size).slice)
  }

  /** Everything queued is let go, whatever the limits. */
  function Emptied(c: Config, now: nat, d: Dir): (r: Dir)
    requires c.Ok() && DirOk(d)
    ensures DirOk(r) && r.queue == [] && r.released == d.arrived == r.arrived && r.lim == d.lim
    decreases |d.queue|
  {
    if d.queue == [] then d else Emptied(c, now, Release(c, now, d))
  }

  /** A group of which everything queued has been let go. */
  function EmptiedGroup(c: Config, now: nat, g: Group): (h: Group)
    requires c.Ok() && GroupOk(g)
    ensures GroupOk(h) && Held(h) == 0 && !Holds(h) && h.onRr == g.onRr && h.linked == g.linked
    ensures h.read.released == g.read.arrived && h.write.released == g.write.arrived
  {
    Rejoined(g, Emptied(c, now, g.read), |g.read.queue|, Emptied(c, now, g.write), |g.write.queue|)
  }
}
