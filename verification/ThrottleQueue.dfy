/** struct throtl_data of block/blk-throttle.c with its operations as they update
    it in place under the queue lock. Time stands still inside one operation. */
module ThrottleQueue {
  import opened ThrottleSlice
  import opened ThrottleGroup
  import opened ServiceTree
  import opened Options
  import opened ThrottleTree
  import opened ThrottleMetered
  import ThrottleRun
  import opened ThrottleGrant

  /** tg_may_dispatch and tg_dispatch_one_bio for the first bio of a direction. */
  method TurnOnce(c: Config, now: nat, d: Dir) returns (e: Dir, go: bool)
    requires c.Ok() && DirOk(d) && d.queue != []
    ensures (e, go) == Turn(c, now, d)
  {
    AskSlice(c, now, d.lim, d.slice, d.queue[0].size);
    var m := Ask(c, now, d);
    e, go := d.(slice := m.slice), m.ok;
    if go { e := Release(c, now, e); }
  }

  /** n bios are gone and what the rest of the loop does makes up `goal`. */
  ghost predicate Toward(c: Config, now: nat, d: Dir, left: nat, n: nat, go: bool, goal: (Dir, nat))
    requires c.Ok()
  {
    && DirOk(d) && (go ==> 0 < left)
    && goal == if go then (Drain(c, now, d, left).0, Drain(c, now, d, left).1 + n) else (d, n)
  }

  method Turned(c: Config, now: nat, d: Dir, left: nat, n: nat, ghost goal: (Dir, nat))
    returns (e: Dir, left': nat, n': nat, go: bool)
    requires c.Ok() && Toward(c, now, d, left, n, true, goal) && d.queue != []
    ensures Toward(c, now, e, left', n', go, goal)
    ensures go ==> |e.queue| < |d.queue|
    ensures |e.queue| <= |d.queue|
  {
    e, go := TurnOnce(c, now, d);
    left', n' := left, n;
    if go {
      left', n' := left - 1, n + 1;
      if left' == 0 { go := false; }
    }
  }

  /** One loop of throtl_dispatch_tg. */
  method DrainLoop(c: Config, now: nat, d0: Dir, budget: nat) returns (d: Dir, n: nat)
    requires c.Ok() && DirOk(d0) && 0 < budget
    ensures (d, n) == Drain(c, now, d0, budget)
  {
    ghost var goal := Drain(c, now, d0, budget);
    d, n := d0, 0;
    var go, left := true, budget;
    while go && d.queue != []
      invariant Toward(c, now, d, left, n, go, goal)
      decreases |d.queue|, go
    {
      d, left, n, go := Turned(c, now, d, left, n, goal);
    }
  }

  /** throtl_dispatch_tg. */
  method RoundLoop(c: Config, now: nat, g: Group) returns (h: Group, n: nat)
    requires c.Ok() && GroupOk(g)
    ensures (h, n) == Round(c, now, g)
  {
    var rd, a := DrainLoop(c, now, g.read, c.MaxReads());
    var wr, b := DrainLoop(c, now, g.write, c.MaxWrites());
    h, n := Rejoined(g, rd, a, wr, b), a + b;
  }

  /** tg_update_disptime up to its requeueing: ask both directions, take the
      shorter wait. */
  method UpdateTime(c: Config, now: nat, g: Group) returns (h: Group)
    requires c.Ok() && GroupOk(g) && Holds(g)
    ensures h == Dated(c, now, g)
  {
    var wait: Option<nat> := None;
    h := g;
    if g.read.queue != [] {
      var m := Ask(c, now, g.read);
      h := h.(read := g.read.(slice := m.slice));
      wait := Some(m.wait);
    }
    if g.write.queue != [] {
      var m := Ask(c, now, g.write);
      h := h.(write := g.write.(slice := m.slice));
      wait := if wait.Some? && wait.value < m.wait then wait else Some(m.wait);
    }
    h := h.(disptime := now + wait.value);
  }

  method ServeGroup(c: Config, now: nat, g: Group) returns (h: Group, n: nat)
    requires c.Ok() && GroupOk(g)
    ensures (h, n) == Served(c, now, g)
  {
    h, n := RoundLoop(c, now, g);
    if Holds(h) { h := UpdateTime(c, now, h); }
  }

  /** One loop of blk_throtl_drain. */
  method EmptyLoop(c: Config, now: nat, d0: Dir) returns (d: Dir)
    requires c.Ok() && DirOk(d0)
    ensures d == Emptied(c, now, d0)
  {
    d := d0;
    while d.queue != []
      invariant DirOk(d) && Emptied(c, now, d) == Emptied(c, now, d0)
      decreases |d.queue|
    {
      d := Release(c, now, d);
    }
  }

  class ThrotlData {
    const cfg: Config
    var now: nat
    var groups: seq<Group>
    var tree: Tree
    var count: nat
    var nrRead: nat
    var nrWrite: nat

    /** The group of each control group, number 0 being the root. */
    var groupOf: map<nat, nat>
    /** When each group was made. */
    ghost var born: seq<nat>

    ghost function View(): Data
      reads this
    {
      Data(groups, tree, count, nrRead, nrWrite)
    }

    ghost function State(): ThrottleRun.State
      reads this
    {
      ThrottleRun.State(now, View(), groupOf, born)
    }

    ghost predicate Valid()
      reads this
    {
      cfg.Ok() && Ok(View()) && groups != [] && forall cg :: cg in groupOf ==> groupOf[cg] < |groups|
    }

    /** Every limited direction has kept to its rate since its group was made. */
    ghost predicate WithinRates()
      reads this
    {
      AllMetered(cfg, born, now, groups)
    }

    /** blk_throtl_init, with the limits of the root group. */
    constructor (cfg: Config, now: nat, read: Limit, write: Limit)
      requires cfg.Ok() && read.Ok() && write.Ok()
      ensures Valid() && WithinRates() && groups == [NewGroup(read, write)] && this.cfg == cfg && this.now == now
    {
      this.cfg, this.now, groups, tree, count, nrRead, nrWrite := cfg, now, [NewGroup(read, write)], EMPTY, 0, 0, 0;
      groupOf, born := map[0 := 0], [now];
      new;
      ThrottleRun.StartOk(cfg, now, read, write);
      assert [] + [NewGroup(read, write)] == groups;
    }

    /** Time passes. */
    method Wait(ticks: nat)
      requires Valid()
      modifies this`now
      ensures Valid() && now == old(now) + ticks && (old(WithinRates()) ==> WithinRates())
    {
      if WithinRates() { TickMetered(cfg, born, now, groups, now + ticks); }
      now := now + ticks;
    }

    /** throtl_get_tg on a live queue, from where the lock is taken again: a group
        that is not found is made, with the limits of its control group, unless
        memory is short. */
    method FindTg(a: ThrottleRun.Arrival) returns (id: nat)
      requires Valid() && a.rl.Ok() && a.wl.Ok()
      modifies this`groups, this`groupOf, this`born
      ensures Valid() && id < |groups| && GroupOk(groups[id]) && (old(WithinRates()) ==> WithinRates())
      ensures (State(), id) == old(ThrottleRun.GetTg(State(), a))
    {
      if a.cgroup in groupOf {
        id := groupOf[a.cgroup];
      } else if !a.memory {
        id := 0;
      } else {
        AddGroupOk(View(), a.rl, a.wl);
        if WithinRates() { AddGroupMetered(cfg, born, now, View(), a.rl, a.wl); }
        id := |groups|;
        groups := groups + [NewGroup(a.rl, a.wl)];
        groupOf := groupOf[a.cgroup := id];
        born := born + [now];
      }
      assert GroupOk(groups[id]);
    }

    /** throtl_destroy_tg; its check and that of throtl_put_tg hold. */
    method DestroyTg(id: nat)
      requires Valid() && id < |groups| && groups[id].linked
      modifies this`groups, this`groupOf
      ensures Valid() && (old(WithinRates()) ==> WithinRates())
      ensures old(groups)[id].ref > 0 && State() == ThrottleRun.Destroyed(old(State()), id)
    {
      UnlinkOk(View(), id);
      if WithinRates() { UnlinkMetered(cfg, born, now, View(), id); }
      assert groups[id].ref > 0;
      groups := groups[id := groups[id].(linked := false, ref := groups[id].ref - 1)];
      groupOf := map cg | cg in groupOf && groupOf[cg] != id :: groupOf[cg];
    }

    /** throtl_rb_first: through the cache, which it fills. */
    method First() returns (id: Option<nat>)
      requires Valid()
      modifies this`tree
      ensures Valid() && tree.nodes == old(tree).nodes
      ensures id == if tree.nodes == [] then None else Some(tree.nodes[0].id)
    {
      FirstIsLeast(tree);
      if count == 0 { return None; }
      if tree.left.None? && tree.nodes != [] { tree := tree.(left := Some(tree.nodes[0].id)); }
      id := tree.left;
    }

    /** throtl_dequeue_tg. */
    method DequeueTg(id: nat)
      requires id < |groups|
      modifies this`groups, this`tree, this`count
      ensures View() == Dequeue(old(View()), id)
    {
      if groups[id].onRr {
        tree := Erase(tree, id);
        count := if count > 0 then count - 1 else 0;
        groups := groups[id := groups[id].(onRr := false)];
      }
    }

    /** throtl_enqueue_tg. */
    method EnqueueTg(id: nat)
      requires id < |groups|
      modifies this`groups, this`tree, this`count
      ensures View() == Enqueue(old(View()), id)
    {
      if !groups[id].onRr {
        tree := Add(tree, id, groups[id].disptime);
        groups := groups[id := groups[id].(onRr := true)];
        count := count + 1;
      }
    }

    /** Store a group that is off the tree, and put it back if it holds bios. */
    method StoreTg(id: nat, g: Group)
      requires id < |groups|
      modifies this`groups, this`tree, this`count, this`nrRead, this`nrWrite
      ensures View() == PutBack(old(View()), id, g)
    {
      var was := groups[id];
      nrRead := Minus(nrRead, HeldDir(was, false)) + HeldDir(g, false);
      nrWrite := Minus(nrWrite, HeldDir(was, true)) + HeldDir(g, true);
      groups := groups[id := g];
      if Holds(g) { EnqueueTg(id); }
    }

    /** One round of throtl_select_dispatch for a group. */
    method ServeTg(id: nat) returns (n: nat)
      requires cfg.Ok() && id < |groups| && GroupOk(groups[id])
      modifies this`groups, this`tree, this`count, this`nrRead, this`nrWrite
      ensures (View(), n) == Serve(cfg, now, old(View()), id)
    {
      DequeueTg(id);
      var g;
      g, n := ServeGroup(cfg, now, groups[id]);
      StoreTg(id, g);
    }

    /** One round for the first group, whose time has come: something goes, or fewer groups are due. */
    method ServeDue(id: nat) returns (n: nat)
      requires Valid() && tree.nodes != [] && id == tree.nodes[0].id && tree.nodes[0].key <= now
      modifies this`groups, this`tree, this`count, this`nrRead, this`nrWrite
      ensures Valid() && AllOnward(old(groups), groups) && n <= cfg.group
      ensures n + nrRead + nrWrite == old(nrRead + nrWrite)
      ensures n == 0 ==> Due(tree.nodes, now) < Due(old(tree).nodes, now)
      ensures old(WithinRates()) ==> WithinRates()
    {
      ServeLowers(cfg, now, View(), id);
      ServeKeeps(cfg, born, now, View(), id);
      n := ServeTg(id);
    }

    /** throtl_select_dispatch: it ends, lets at most a quantum less one plus a
        group's quantum go, each group in order, and stops early only when no
        group is due. */
    method SelectDispatch() returns (nr: nat)
      requires Valid()
      modifies this`groups, this`tree, this`count, this`nrRead, this`nrWrite
      ensures Valid()
      ensures nr <= cfg.quantum - 1 + cfg.group
      ensures nr + nrRead + nrWrite == old(nrRead + nrWrite)
      ensures AllOnward(old(groups), groups) && (old(WithinRates()) ==> WithinRates())
      ensures nr < cfg.quantum ==> tree.nodes == [] || now < tree.nodes[0].key
    {
      nr := 0;
      var stop := false;
      OnwardSelf(groups);
      while !stop
        invariant Valid() && AllOnward(old(groups), groups)
        invariant old(WithinRates()) ==> WithinRates()
        invariant nr + nrRead + nrWrite == old(nrRead + nrWrite)
        invariant if stop then nr <= cfg.quantum - 1 + cfg.group else nr < cfg.quantum
        invariant stop && nr < cfg.quantum ==> tree.nodes == [] || now < tree.nodes[0].key
        decreases nrRead + nrWrite, Due(tree.nodes, now), !stop
      {
        var first := First();
        if first.None? || now < groups[first.value].disptime {
          stop := true;
        } else {
          ghost var gs := groups;
          var n := ServeDue(first.value);
          OnwardTwice(old(groups), gs, groups);
          nr := nr + n;
          if nr >= cfg.quantum { stop := true; }
        }
      }
    }

    /** blk_throtl_bio: true if the bio waits. A bio marked as throttled passes, so
        does any on a dead queue, and a direction without a limit is left alone when
        its group is found without the lock; `missed` says that it was not. */
    method ThrotlBio(marked: bool, dead: bool, a: ThrottleRun.Arrival) returns (throttled: bool)
      requires Valid() && a.rl.Ok() && a.wl.Ok()
      modifies this`groups, this`tree, this`count, this`nrRead, this`nrWrite, this`groupOf, this`born
      ensures Valid() && (old(WithinRates()) ==> WithinRates())
      ensures marked || dead || old(ThrottleRun.LeftAlone(State(), a)) ==>
        !throttled && State() == old(State())
      ensures !(marked || dead || old(ThrottleRun.LeftAlone(State(), a))) ==>
                var (s, id) := old(ThrottleRun.GetTg(State(), a));
                id < |s.td.groups| && GroupOk(s.td.groups[id]) && groupOf == s.groupOf && born == s.born
                && (View(), throttled) == Admit(cfg, now, s.td, id, a.write, a.bio)
      ensures !(marked || dead || old(ThrottleRun.LeftAlone(State(), a))) ==>
                var (s, id) := old(ThrottleRun.GetTg(State(), a));
                var d := DirOf(s.td.groups[id], a.write);
                && (throttled <==> d.queue != [] || !Goes(cfg, now, d.lim, d.slice, a.bio.size))
                && (d.queue == [] && Fresh(now, d.slice) && OneSliceAllows(cfg, d.lim, a.bio.size) ==> !throttled)
    {
      if marked { return false; }
      if a.cgroup in groupOf && !a.missed && DirOf(groups[groupOf[a.cgroup]], a.write).lim.None() { return false; }
      if dead { return false; }
      var id := FindTg(a);
      AdmitTells(cfg, now, View(), id, a.write, a.bio);
      throttled := AdmitBio(id, a.write, a.bio);
    }

    /** blk_throtl_bio under the queue lock, with the group found. */
    method AdmitBio(id: nat, write: bool, bio: Bio) returns (throttled: bool)
      requires Valid() && id < |groups| && GroupOk(groups[id])
      modifies this`groups, this`tree, this`count, this`nrRead, this`nrWrite
      ensures Valid() && (old(WithinRates()) ==> WithinRates())
      ensures (View(), throttled) == Admit(cfg, now, old(View()), id, write, bio)
    {
      AdmitKeeps(cfg, born, now, View(), id, write, bio);
      if DirOf(groups[id], write).nr != 0 {
        QueueBio(id, write, bio);
        throttled := true;
      } else {
        throttled := Offer(id, write, bio);
      }
    }

    /** The part of blk_throtl_bio for a direction that holds nothing. */
    method Offer(id: nat, write: bool, bio: Bio) returns (waits: bool)
      requires cfg.Ok() && id < |groups| && GroupOk(groups[id]) && DirOf(groups[id], write).queue == []
      modifies this`groups, this`tree, this`count, this`nrRead, this`nrWrite
      ensures var d := DirOf(old(groups)[id], write);
        waits == !MayDispatch(cfg, now, d.lim, d.slice, bio.size).ok
      ensures View() == if waits then FirstWait(cfg, now, old(View()), id, write, bio)
                        else Pass(cfg, now, old(View()), id, write, bio)
    {
      var ok := MayGo(id, write, bio);
      if ok { ChargeBio(id, write, bio); } else { QueueDated(id, write, bio); }
      waits := !ok;
    }

    /** tg_may_dispatch for a bio that came: the slice of its direction is renewed. */
    method MayGo(id: nat, write: bool, bio: Bio) returns (ok: bool)
      requires cfg.Ok() && id < |groups| && GroupOk(groups[id])
      modifies this`groups
      ensures |groups| == |old(groups)| && GroupOk(groups[id])
      ensures var d := DirOf(old(groups)[id], write);
        && ok == MayDispatch(cfg, now, d.lim, d.slice, bio.size).ok
        && groups == old(groups)[id := WithDir(old(groups)[id], write, Denied(cfg, now, d, bio))]
    {
      var d := DirOf(groups[id], write);
      AskSlice(cfg, now, d.lim, d.slice, bio.size);
      var m := MayDispatch(cfg, now, d.lim, d.slice, bio.size);
      d := d.(slice := m.slice);
      groups := groups[id := WithDir(groups[id], write, d)];
      ok := m.ok;
    }

    /** throtl_charge_bio and throtl_trim_slice for a bio that passes. */
    method ChargeBio(id: nat, write: bool, bio: Bio)
      requires cfg.Ok() && id < |groups| && GroupOk(groups[id])
      modifies this`groups
      ensures var d := DirOf(old(groups)[id], write);
        groups == old(groups)[id := WithDir(old(groups)[id], write, ChargedDir(cfg, now, d, bio))]
    {
      var d := DirOf(groups[id], write);
      d := d.(slice := d.slice.(bytes := d.slice.bytes + bio.size, ios := d.slice.ios + 1));
      d := d.(slice := Trim(cfg, now, d.lim, d.slice));
      d := d.(arrived := d.arrived + [bio], released := d.released + [bio]);
      groups := groups[id := WithDir(groups[id], write, d)];
    }

    method QueueDated(id: nat, write: bool, bio: Bio)
      requires cfg.Ok() && id < |groups| && GroupOk(groups[id])
      modifies this`groups, this`tree, this`count, this`nrRead, this`nrWrite
      ensures View() == AddDated(cfg, now, old(View()), id, write, bio)
    {
      AddBioIs(View(), id, write, bio);
      QueueBio(id, write, bio);
      Redate(id);
    }

    /** blk_throtl_drain: everything that waits goes, each direction of each group
        in order. */
    method DrainAll()
      requires Valid()
      modifies this`groups, this`tree, this`count, this`nrRead, this`nrWrite
      ensures Valid() && tree.nodes == [] && nrRead == 0 && nrWrite == 0
      ensures AllOnward(old(groups), groups)
      ensures forall id {:trigger groups[id]} :: 0 <= id < |groups| ==>
        groups[id].read.released == groups[id].read.arrived && groups[id].write.released == groups[id].write.arrived
    {
      OnwardSelf(groups);
      var first := First();
      while first.Some?
        invariant Valid() && AllOnward(old(groups), groups)
        invariant first == if tree.nodes == [] then None else Some(tree.nodes[0].id)
        decreases |tree.nodes|
      {
        ghost var gs := groups;
        EmptyTg(first.value);
        OnwardTwice(old(groups), gs, groups);
        first := First();
      }
      AllGone(View());
    }

    method EmptyTg(id: nat)
      requires Valid() && tree.nodes != [] && id == tree.nodes[0].id
      modifies this`groups, this`tree, this`count, this`nrRead, this`nrWrite
      ensures Valid() && |tree.nodes| < |old(tree).nodes| && AllOnward(old(groups), groups)
    {
      EmptyOk(cfg, now, View(), id);
      DequeueTg(id);
      var g := groups[id];
      var rd := EmptyLoop(cfg, now, g.read);
      var wr := EmptyLoop(cfg, now, g.write);
      StoreTg(id, Rejoined(g, rd, |g.read.queue|, wr, |g.write.queue|));
    }

    /** throtl_add_bio_tg. */
    method QueueBio(id: nat, write: bool, bio: Bio)
      requires id < |groups| && GroupOk(groups[id])
      modifies this`groups, this`tree, this`count, this`nrRead, this`nrWrite
      ensures View() == AddBio(old(View()), id, write, bio)
    {
      groups := groups[id := Grown(groups[id], write, bio)];
      if write { nrWrite := nrWrite + 1; } else { nrRead := nrRead + 1; }
      EnqueueTg(id);
    }

    /** tg_update_disptime. */
    method Redate(id: nat)
      requires cfg.Ok() && id < |groups| && GroupOk(groups[id]) && Holds(groups[id])
      modifies this`groups, this`tree, this`count, this`nrRead, this`nrWrite
      ensures View() == Redated(cfg, now, old(View()), id)
    {
      DequeueTg(id);
      var g := UpdateTime(cfg, now, groups[id]);
      StoreTg(id, g);
    }
  }

  /** A direction that has let a bio pass after it was asked about. */
  function ChargedDir(c: Config, now: nat, d: Dir, bio: Bio): Dir
    requires c.Ok() && DirOk(d)
  {
    d.(slice := Trim(c, now, d.lim, Charge(d.slice, bio.size)), arrived := d.arrived + [bio],
          released := d.released + [bio])
  }

  lemma {:induction false} ServeKeeps(c: Config, born: seq<nat>, now: nat, td: Data, id: nat)
    requires c.Ok() && id < |td.groups| && GroupOk(td.groups[id]) && Ok(td)
    ensures var (td', n) := Serve(c, now, td, id);
      && Ok(td') && AllOnward(td.groups, td'.groups) && n <= c.group
      && td'.nrRead + td'.nrWrite + n == td.nrRead + td.nrWrite
    ensures AllMetered(c, born, now, td.groups) ==> AllMetered(c, born, now, Serve(c, now, td, id).0.groups)
  {
    ServeOk(c, now, td, id);
    if AllMetered(c, born, now, td.groups) { ServeMetered(c, born, now, td, id); }
  }

  lemma {:induction false} AdmitKeeps(c: Config, born: seq<nat>, now: nat, td: Data, id: nat, write: bool, bio: Bio)
    requires c.Ok() && Ok(td) && id < |td.groups| && GroupOk(td.groups[id])
    ensures Ok(Admit(c, now, td, id, write, bio).0) && |Admit(c, now, td, id, write, bio).0.groups| == |td.groups|
    ensures AllMetered(c, born, now, td.groups) ==> AllMetered(c, born, now, Admit(c, now, td, id, write, bio).0.groups)
  {
    AdmitOk(c, now, td, id, write, bio);
    AdmitInOrder(c, now, td, id, write, bio);
    if AllMetered(c, born, now, td.groups) { AdmitMetered(c, born, now, td, id, write, bio); }
  }

  lemma {:induction false} OnwardSelf(gs: seq<Group>)
    ensures AllOnward(gs, gs)
  {
  }
}
