/** The rate bound carried over to the groups of throtl_data: every bio that a
    limited direction lets go, by a round or on arrival, is charged to a meter of
    ThrottleRate. */
module ThrottleMetered {
  import opened ThrottleSlice
  import opened ThrottleRate
  import opened ThrottleGroup
  import opened ThrottleTree

  function Bytes(bios: seq<Bio>): nat {
    if bios == [] then 0 else Bytes(bios[..|bios| - 1]) + bios[|bios| - 1].size
  }

  lemma {:induction false} BytesSnoc(bios: seq<Bio>, b: Bio)
    ensures Bytes(bios + [b]) == Bytes(bios) + b.size
  {
    assert (bios + [b])[..|bios|] == bios;
  }

  /** The meter m has charged exactly what direction d released since t0. */
  predicate Reads(c: Config, t0: nat, now: nat, d: Dir, m: Meter) {
    && Sound(c, d.lim, t0, m) && m.born <= m.now && m.now == now && m.sl == d.slice
    && m.bytes == Bytes(d.released) && m.ios == |d.released|
  }

  /** A direction of a group made at `born` that no bio has come to. */
  predicate Unused(d: Dir) { d.slice == Slice(0, 0, 0, 0) && d.released == [] }

  /** Unused, or metered since a first slice that started at `born` or later. */
  ghost predicate Metered(c: Config, born: nat, now: nat, d: Dir) {
    born <= now && (Unused(d) || exists t0: nat, m :: born <= t0 && Reads(c, t0, now, d, m))
  }

  /** What was released since t0 is within the rate times the time since, and one slice more. */
  predicate WithinRate(c: Config, t0: nat, now: nat, d: Dir) {
    && t0 <= now && Bytes(d.released) * c.hz <= d.lim.bps * (now - t0 + c.slice)
    && |d.released| * c.hz <= d.lim.iops * (now - t0 + c.slice)
  }

  lemma {:induction false} ReadsBound(c: Config, t0: nat, now: nat, d: Dir, m: Meter)
    requires c.Ok() && Reads(c, t0, now, d, m)
    ensures WithinRate(c, t0, now, d)
  {
    MulLe(d.lim.bps, m.last - t0 + c.slice, now - t0 + c.slice);
    MulLe(d.lim.iops, m.last - t0 + c.slice, now - t0 + c.slice);
  }

  lemma {:induction false} FromEarlier(c: Config, t0: nat, now: nat, d: Dir, born: nat)
    requires WithinRate(c, t0, now, d) && born <= t0
    ensures WithinRate(c, born, now, d)
  {
    MulLe(d.lim.bps, now - t0 + c.slice, now - born + c.slice);
    MulLe(d.lim.iops, now - t0 + c.slice, now - born + c.slice);
  }

  /** The bound, counted from the start of the first slice and so from the making of the group. */
  lemma {:induction false} MeteredBound(c: Config, born: nat, now: nat, d: Dir) returns (t0: nat)
    requires c.Ok() && Metered(c, born, now, d)
    ensures born <= t0 && WithinRate(c, t0, now, d) && WithinRate(c, born, now, d)
    ensures d.slice.bytes <= Bytes(d.released) && d.slice.ios <= |d.released|
  {
    t0 := now;
    if !Unused(d) {
      var m;
      t0, m :| born <= t0 && Reads(c, t0, now, d, m);
      ReadsBound(c, t0, now, d, m);
    }
    FromEarlier(c, t0, now, d, born);
  }

  /** A check finds an unused direction as if its first slice had just started. */
  lemma {:induction false} UnusedAsks(c: Config, now: nat, lim: Limit, size: nat)
    requires c.Ok() && lim.Ok() && !lim.None()
    ensures MayDispatch(c, now, lim, Slice(0, 0, 0, 0), size) == MayDispatch(c, now, lim, NewSlice(c, now), size)
  {
    RoundUpSelf(c.slice);
    assert Renew(c, now, Slice(0, 0, 0, 0)) == NewSlice(c, now) == Renew(c, now, NewSlice(c, now));
  }

  /** A meter that a check at this time takes the direction for. */
  lemma {:induction false} Meet(c: Config, born: nat, now: nat, d: Dir, size: nat) returns (t0: nat, m: Meter)
    requires c.Ok() && d.lim.Ok() && !d.lim.None() && Metered(c, born, now, d)
    ensures born <= t0 && Sound(c, d.lim, t0, m) && m.born <= m.now && m.now == now
    ensures m.bytes == Bytes(d.released) && m.ios == |d.released|
    ensures MayDispatch(c, now, d.lim, m.sl, size) == MayDispatch(c, now, d.lim, d.slice, size)
  {
    if Unused(d) {
      t0, m := now, Start(c, now);
      UnusedAsks(c, now, d.lim, size);
      StartSound(c, d.lim, now);
    } else {
      t0, m :| born <= t0 && Reads(c, t0, now, d, m);
    }
  }

  lemma {:induction false} StartSound(c: Config, lim: Limit, now: nat)
    requires c.Ok()
    ensures Sound(c, lim, now, Start(c, now))
  {
  }

  lemma {:induction false} Later(c: Config, born: nat, now: nat, d: Dir, later: nat)
    requires c.Ok() && d.lim.Ok() && !d.lim.None() && Metered(c, born, now, d) && now <= later
    ensures Metered(c, born, later, d)
  {
    if !Unused(d) {
      var t0: nat, m :| born <= t0 && Reads(c, t0, now, d, m);
      NextSound(c, d.lim, t0, m, Tick(later - now));
      assert Reads(c, t0, later, d, Next(c, d.lim, m, Tick(later - now)));
    }
  }

  /** A bio that the limits let go is charged. */
  lemma {:induction false} LetGo(c: Config, born: nat, now: nat, d: Dir, bio: Bio, e: Dir)
    requires c.Ok() && d.lim.Ok() && !d.lim.None() && Metered(c, born, now, d) && d.slice.start <= d.slice.end
    requires MayDispatch(c, now, d.lim, d.slice, bio.size).ok
    requires var s := Charge(MayDispatch(c, now, d.lim, d.slice, bio.size).slice, bio.size);
             s.start <= s.end && e.slice == Trim(c, now, d.lim, s)
    requires e.lim == d.lim && e.released == d.released + [bio]
    ensures Metered(c, born, now, e)
  {
    var t0, m := Meet(c, born, now, d, bio.size);
    NextSound(c, d.lim, t0, m, Offer(bio.size));
    BytesSnoc(d.released, bio);
    assert Reads(c, t0, now, e, Next(c, d.lim, m, Offer(bio.size)));
  }

  /** A check that says no leaves the meter sound. */
  lemma {:induction false} HeldBack(c: Config, born: nat, now: nat, d: Dir, size: nat, e: Dir)
    requires c.Ok() && d.lim.Ok() && !d.lim.None() && Metered(c, born, now, d)
    requires e.slice == MayDispatch(c, now, d.lim, d.slice, size).slice && e.lim == d.lim && e.released == d.released
    ensures Metered(c, born, now, e)
  {
    var t0, m := Meet(c, born, now, d, size);
    NextSound(c, d.lim, t0, m, Probe(size));
    assert Reads(c, t0, now, e, Next(c, d.lim, m, Probe(size)));
  }

  /** What is queued does not matter. */
  lemma {:induction false} SameMetered(c: Config, born: nat, now: nat, d: Dir, e: Dir)
    requires Metered(c, born, now, d) && e.slice == d.slice && e.lim == d.lim && e.released == d.released
    ensures Metered(c, born, now, e)
  {
    if !Unused(d) {
      var t0: nat, m :| born <= t0 && Reads(c, t0, now, d, m);
      assert Reads(c, t0, now, e, m);
    }
  }

  // ----- one direction of a group -----

  lemma {:induction false} TurnMetered(c: Config, born: nat, now: nat, d: Dir)
    requires c.Ok() && DirOk(d) && !d.lim.None() && d.queue != [] && Metered(c, born, now, d)
    ensures Metered(c, born, now, Turn(c, now, d).0)
  {
    var e := Turn(c, now, d).0;
    AskSlice(c, now, d.lim, d.slice, d.queue[0].size);
    if Ask(c, now, d).ok {
      LetGo(c, born, now, d, d.queue[0], e);
    } else {
      HeldBack(c, born, now, d, d.queue[0].size, e);
    }
  }

  lemma {:induction false} DrainMetered(c: Config, born: nat, now: nat, d: Dir, budget: nat)
    requires c.Ok() && DirOk(d) && !d.lim.None() && Metered(c, born, now, d)
    ensures Metered(c, born, now, Drain(c, now, d, budget).0)
    decreases budget
  {
    if budget > 0 && d.queue != [] {
      TurnMetered(c, born, now, d);
      if Turn(c, now, d).1 { DrainMetered(c, born, now, Turn(c, now, d).0, budget - 1); }
    }
  }

  lemma {:induction false} PassedMetered(c: Config, born: nat, now: nat, d: Dir, bio: Bio)
    requires c.Ok() && DirOk(d) && !d.lim.None() && d.queue == [] && Metered(c, born, now, d)
    requires MayDispatch(c, now, d.lim, d.slice, bio.size).ok
    ensures Metered(c, born, now, Passed(c, now, d, bio))
  {
    AskSlice(c, now, d.lim, d.slice, bio.size);
    LetGo(c, born, now, d, bio, Passed(c, now, d, bio));
  }

  lemma {:induction false} AskedMetered(c: Config, born: nat, now: nat, d: Dir)
    requires c.Ok() && DirOk(d) && !d.lim.None() && Metered(c, born, now, d)
    ensures Metered(c, born, now, Asked(c, now, d))
  {
    if d.queue != [] {
      HeldBack(c, born, now, d, d.queue[0].size, Asked(c, now, d));
    }
  }

  // ----- a group -----

  /** A direction with a limit is metered; one without is not bounded. */
  ghost predicate DirMetered(c: Config, born: nat, now: nat, d: Dir) { d.lim.None() || Metered(c, born, now, d) }

  ghost predicate GroupMetered(c: Config, born: nat, now: nat, g: Group) {
    DirMetered(c, born, now, g.read) && DirMetered(c, born, now, g.write)
  }

  /** A round of throtl_dispatch_tg keeps each limited direction within its rate. */
  lemma {:induction false} RoundMetered(c: Config, born: nat, now: nat, g: Group)
    requires c.Ok() && GroupOk(g) && GroupMetered(c, born, now, g)
    ensures GroupMetered(c, born, now, Round(c, now, g).0)
  {
    if !g.read.lim.None() { DrainMetered(c, born, now, g.read, c.MaxReads()); }
    if !g.write.lim.None() { DrainMetered(c, born, now, g.write, c.MaxWrites()); }
  }

  /** So do the checks that set the next time to look. */
  lemma {:induction false} DatedMetered(c: Config, born: nat, now: nat, g: Group)
    requires c.Ok() && GroupOk(g) && Holds(g) && GroupMetered(c, born, now, g)
    ensures GroupMetered(c, born, now, Dated(c, now, g))
  {
    if !g.read.lim.None() { AskedMetered(c, born, now, g.read); }
    if !g.write.lim.None() { AskedMetered(c, born, now, g.write); }
  }

  lemma {:induction false} ServedMetered(c: Config, born: nat, now: nat, g: Group)
    requires c.Ok() && GroupOk(g) && GroupMetered(c, born, now, g)
    ensures GroupMetered(c, born, now, Served(c, now, g).0)
  {
    RoundMetered(c, born, now, g);
    var h := Round(c, now, g).0;
    if Holds(h) { DatedMetered(c, born, now, h); }
  }

  // ----- all groups -----

  ghost predicate AllMetered(c: Config, born: seq<nat>, now: nat, gs: seq<Group>) {
    |born| == |gs| &&
    forall id {:trigger GroupMetered(c, born[id], now, gs[id])} :: 0 <= id < |gs| ==>
      GroupMetered(c, born[id], now, gs[id])
  }

  lemma {:induction false} PutMetered(c: Config, born: seq<nat>, now: nat, gs: seq<Group>, id: nat, g: Group,
                                      hs: seq<Group>)
    requires AllMetered(c, born, now, gs) && id < |gs| && GroupMetered(c, born[id], now, g) && hs == gs[id := g]
    ensures AllMetered(c, born, now, hs)
  {
    forall k | 0 <= k < |hs| ensures GroupMetered(c, born[k], now, hs[k]) {
      assert k != id ==> GroupMetered(c, born[k], now, gs[k]);
    }
  }

  lemma {:induction false} TickMetered(c: Config, born: seq<nat>, now: nat, gs: seq<Group>, later: nat)
    requires c.Ok() && GroupsOk(gs) && AllMetered(c, born, now, gs) && now <= later
    ensures AllMetered(c, born, later, gs)
  {
    forall k | 0 <= k < |gs| ensures GroupMetered(c, born[k], later, gs[k]) {
      assert GroupOk(gs[k]) && GroupMetered(c, born[k], now, gs[k]);
      if !gs[k].read.lim.None() { Later(c, born[k], now, gs[k].read, later); }
      if !gs[k].write.lim.None() { Later(c, born[k], now, gs[k].write, later); }
    }
  }

  /** A group that goes has kept to its rate, and goes on to. */
  lemma {:induction false} UnlinkMetered(c: Config, born: seq<nat>, now: nat, td: Data, id: nat)
    requires id < |td.groups| && td.groups[id].ref > 0 && AllMetered(c, born, now, td.groups)
    ensures AllMetered(c, born, now, Unlink(td, id).groups)
  {
    assert GroupMetered(c, born[id], now, td.groups[id]);
    PutMetered(c, born, now, td.groups, id, Unlink(td, id).groups[id], Unlink(td, id).groups);
  }

  /** One round of throtl_select_dispatch. */
  lemma {:induction false} ServeMetered(c: Config, born: seq<nat>, now: nat, td: Data, id: nat)
    requires c.Ok() && Ok(td) && id < |td.groups| && GroupOk(td.groups[id]) && AllMetered(c, born, now, td.groups)
    ensures AllMetered(c, born, now, Serve(c, now, td, id).0.groups)
  {
    var was := td.groups[id].(onRr := false);
    assert GroupMetered(c, born[id], now, td.groups[id]);
    ServedMetered(c, born[id], now, was);
    var g := Served(c, now, was).0;
    ReplaceIs(td, id, g);
    PutMetered(c, born, now, td.groups, id, g.(onRr := Holds(g)), Serve(c, now, td, id).0.groups);
  }

  lemma {:induction false} GrownMetered(c: Config, born: nat, now: nat, g: Group, write: bool, bio: Bio)
    requires GroupOk(g) && GroupMetered(c, born, now, g)
    ensures GroupMetered(c, born, now, Grown(g, write, bio))
  {
    var d := DirOf(g, write);
    if !d.lim.None() { SameMetered(c, born, now, d, GrownDir(d, bio)); }
  }

  lemma {:induction false} WithDirMetered(c: Config, born: nat, now: nat, g: Group, write: bool, d: Dir)
    requires GroupMetered(c, born, now, g) && DirMetered(c, born, now, d)
    ensures GroupMetered(c, born, now, WithDir(g, write, d))
  {
  }

  /** blk_throtl_bio on its group: the bio waits behind others, or passes, or is the first to wait. */
  lemma {:induction false} AdmitMetered(c: Config, born: seq<nat>, now: nat, td: Data, id: nat, write: bool, bio: Bio)
    requires c.Ok() && Ok(td) && id < |td.groups| && GroupOk(td.groups[id]) && AllMetered(c, born, now, td.groups)
    ensures AllMetered(c, born, now, Admit(c, now, td, id, write, bio).0.groups)
  {
    var g := td.groups[id];
    var d := DirOf(g, write);
    var hs := Admit(c, now, td, id, write, bio).0.groups;
    assert GroupMetered(c, born[id], now, g);
    if d.nr != 0 {
      AddBioIs(td, id, write, bio);
      GrownMetered(c, born[id], now, g, write, bio);
      PutMetered(c, born, now, td.groups, id, Grown(g, write, bio).(onRr := true), hs);
    } else if MayDispatch(c, now, d.lim, d.slice, bio.size).ok {
      if !d.lim.None() { PassedMetered(c, born[id], now, d, bio); }
      WithDirMetered(c, born[id], now, g, write, Passed(c, now, d, bio));
      PutMetered(c, born, now, td.groups, id, WithDir(g, write, Passed(c, now, d, bio)), hs);
    } else {
      FirstWaitMetered(c, born, now, td, id, write, bio);
    }
  }

  /** A new group starts within its rate. */
  lemma {:induction false} AddGroupMetered(c: Config, born: seq<nat>, now: nat, td: Data, read: Limit, write: Limit)
    requires AllMetered(c, born, now, td.groups)
    ensures AllMetered(c, born + [now], now, AddGroup(td, read, write).groups)
  {
    var gs := AddGroup(td, read, write).groups;
    forall k | 0 <= k < |gs| ensures GroupMetered(c, (born + [now])[k], now, gs[k]) {
      assert k < |td.groups| ==> GroupMetered(c, born[k], now, td.groups[k]);
    }
  }

  /** The group of a bio that is the first to wait in its direction. */
  function Waiting(c: Config, now: nat, g: Group, write: bool, bio: Bio): Group
    requires c.Ok() && GroupOk(g)
  {
    var w := Grown(WithDir(g, write, Denied(c, now, DirOf(g, write), bio)), write, bio);
    Dated(c, now, w.(onRr := false)).(onRr := true)
  }

  lemma {:induction false} WaitingMetered(c: Config, born: nat, now: nat, g: Group, write: bool, bio: Bio)
    requires c.Ok() && GroupOk(g) && GroupMetered(c, born, now, g) && !DirOf(g, write).lim.None()
    ensures GroupMetered(c, born, now, Waiting(c, now, g, write, bio))
  {
    var d := DirOf(g, write);
    HeldBack(c, born, now, d, bio.size, Denied(c, now, d, bio));
    var h := WithDir(g, write, Denied(c, now, d, bio));
    WithDirMetered(c, born, now, g, write, Denied(c, now, d, bio));
    GrownMetered(c, born, now, h, write, bio);
    DatedMetered(c, born, now, Grown(h, write, bio).(onRr := false));
  }

  lemma {:induction false} AddDatedIs(c: Config, now: nat, td: Data, id: nat, write: bool, bio: Bio)
    requires c.Ok() && Ok(td) && id < |td.groups| && GroupOk(td.groups[id])
    ensures AddDated(c, now, td, id, write, bio).groups ==
            td.groups[id := Dated(c, now, Grown(td.groups[id], write, bio).(onRr := false)).(onRr := true)]
  {
    var t := AddBio(td, id, write, bio);
    AddBioOk(td, id, write, bio);
    AddBioIs(td, id, write, bio);
    RedatedIs(c, now, td.groups, t, id, Grown(td.groups[id], write, bio));
  }

  lemma {:induction false} RedatedIs(c: Config, now: nat, gs: seq<Group>, t: Data, id: nat, g: Group)
    requires c.Ok() && Ok(t) && id < |gs| && GroupOk(g) && Holds(g) && t.groups == gs[id := g.(onRr := true)]
    ensures Redated(c, now, t, id).groups == gs[id := Dated(c, now, g.(onRr := false)).(onRr := true)]
  {
    RedatedOk(c, now, t, id);
  }

  lemma {:induction false} FirstWaitIs(c: Config, now: nat, td: Data, id: nat, write: bool, bio: Bio)
    requires c.Ok() && Ok(td) && id < |td.groups| && GroupOk(td.groups[id])
    ensures FirstWait(c, now, td, id, write, bio).groups == td.groups[id := Waiting(c, now, td.groups[id], write, bio)]
  {
    var g := td.groups[id];
    var h := WithDir(g, write, Denied(c, now, DirOf(g, write), bio));
    TouchOk(td, id, h);
    AddDatedIs(c, now, td.(groups := td.groups[id := h]), id, write, bio);
  }

  lemma {:induction false} FirstWaitMetered(c: Config, born: seq<nat>, now: nat, td: Data, id: nat, write: bool,
                                            bio: Bio)
    requires c.Ok() && Ok(td) && id < |td.groups| && GroupOk(td.groups[id]) && AllMetered(c, born, now, td.groups)
    requires !DirOf(td.groups[id], write).lim.None()
    ensures AllMetered(c, born, now, FirstWait(c, now, td, id, write, bio).groups)
  {
    var g := td.groups[id];
    assert GroupMetered(c, born[id], now, g);
    WaitingMetered(c, born[id], now, g, write, bio);
    FirstWaitIs(c, now, td, id, write, bio);
    PutMetered(c, born, now, td.groups, id, Waiting(c, now, g, write, bio),
               FirstWait(c, now, td, id, write, bio).groups);
  }

  /** A bio that comes changes no group but its own, and takes none off the list. */
  lemma {:induction false} AdmitLinked(c: Config, now: nat, td: Data, id: nat, write: bool, bio: Bio)
    requires c.Ok() && Ok(td) && id < |td.groups| && GroupOk(td.groups[id])
    ensures var gs := Admit(c, now, td, id, write, bio).0.groups;
      |gs| == |td.groups| && gs == td.groups[id := gs[id]] && gs[id].linked == td.groups[id].linked
  {
    var d := DirOf(td.groups[id], write);
    if d.nr != 0 {
      AddBioIs(td, id, write, bio);
    } else if !MayDispatch(c, now, d.lim, d.slice, bio.size).ok {
      FirstWaitIs(c, now, td, id, write, bio);
    }
  }
}
