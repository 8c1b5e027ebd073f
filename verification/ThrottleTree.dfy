/** The service tree and the counters of block/blk-throttle.c against the groups:
    what every operation keeps. */
module ThrottleTree {
  import opened ThrottleSlice
  import opened ThrottleGroup
  import opened ServiceTree

  function HeldDir(g: Group, write: bool): nat { if write then |g.write.queue| else |g.read.queue| }

  /** Bios queued over all groups, one direction. */
  function Sum(gs: seq<Group>, write: bool): nat {
    if gs == [] then 0 else HeldDir(gs[0], write) + Sum(gs[1..], write)
  }

  lemma {:induction false} SumAt(gs: seq<Group>, id: nat, g: Group, write: bool)
    requires id < |gs|
    ensures Sum(gs[id := g], write) + HeldDir(gs[id], write) == Sum(gs, write) + HeldDir(g, write)
  {
    if id == 0 {
      assert gs[0 := g][1..] == gs[1..];
    } else {
      assert gs[id := g][1..] == gs[1..][id - 1 := g];
      SumAt(gs[1..], id - 1, g, write);
    }
  }

  lemma {:induction false} SumZero(gs: seq<Group>, id: nat, write: bool)
    requires id < |gs|
    ensures HeldDir(gs[id], write) <= Sum(gs, write)
  {
    if id > 0 { SumZero(gs[1..], id - 1, write); }
  }

  /** Everything under the queue lock that the tree and the counters mirror. */
  datatype Data = Data(groups: seq<Group>, tree: Tree, count: nat, nrRead: nat, nrWrite: nat)

  ghost predicate GroupsOk(gs: seq<Group>) {
    forall id {:trigger GroupOk(gs[id])} :: 0 <= id < |gs| ==> GroupOk(gs[id])
  }

  /** The tree holds exactly the groups flagged, under their dispatch times. */
  ghost predicate TreeMatches(gs: seq<Group>, nodes: seq<Node>) {
    && (forall n :: n in nodes ==> n.id < |gs| && gs[n.id].onRr && n.key == gs[n.id].disptime)
    && (forall id :: 0 <= id < |gs| && gs[id].onRr ==> Node(id, gs[id].disptime) in nodes)
  }

  /** A group is flagged exactly while it holds bios, `x` excepted. */
  ghost predicate FlagsBut(gs: seq<Group>, x: int) {
    forall id :: 0 <= id < |gs| && id != x ==> (gs[id].onRr <==> Holds(gs[id]))
  }

  ghost predicate CountsOk(td: Data) {
    td.count == |td.tree.nodes| && td.nrRead == Sum(td.groups, false) && td.nrWrite == Sum(td.groups, true)
  }

  ghost predicate OkBut(td: Data, x: int) {
    GroupsOk(td.groups) && TreeOk(td.tree) && TreeMatches(td.groups, td.tree.nodes) && FlagsBut(td.groups, x)
      && CountsOk(td)
  }

  /** Holds whenever the queue lock is free. */
  ghost predicate Ok(td: Data) { OkBut(td, -1) }

  // ----- enqueue and dequeue -----

  /** throtl_dequeue_tg. */
  function Dequeue(td: Data, id: nat): Data
    requires id < |td.groups|
  {
    if !td.groups[id].onRr then td
    else td.(groups := td.groups[id := td.groups[id].(onRr := false)], tree := Erase(td.tree, id),
             count := if td.count > 0 then td.count - 1 else 0)
  }

  /** throtl_enqueue_tg. */
  function Enqueue(td: Data, id: nat): Data
    requires id < |td.groups|
  {
    if td.groups[id].onRr then td
    else td.(groups := td.groups[id := td.groups[id].(onRr := true)],
             tree := Add(td.tree, id, td.groups[id].disptime), count := td.count + 1)
  }

  lemma {:induction false} NotMember(gs: seq<Group>, nodes: seq<Node>, id: nat)
    requires TreeMatches(gs, nodes) && id < |gs| && !gs[id].onRr
    ensures !Member(nodes, id)
  {
    forall k | 0 <= k < |nodes| ensures nodes[k].id != id { assert nodes[k] in nodes; }
  }

  lemma {:induction false} EnqueueMatches(gs: seq<Group>, t: Tree, id: nat)
    requires TreeMatches(gs, t.nodes) && id < |gs| && !gs[id].onRr
    ensures TreeMatches(gs[id := gs[id].(onRr := true)], Add(t, id, gs[id].disptime).nodes)
  {
    var gs', nodes' := gs[id := gs[id].(onRr := true)], Add(t, id, gs[id].disptime).nodes;
    forall n ensures n in nodes' <==> n in t.nodes || n == Node(id, gs[id].disptime) {
      AddMembers(t, id, gs[id].disptime, n);
    }
  }

  lemma {:induction false} DequeueMatches(gs: seq<Group>, t: Tree, id: nat)
    requires TreeMatches(gs, t.nodes) && TreeOk(t) && id < |gs| && gs[id].onRr
    ensures TreeMatches(gs[id := gs[id].(onRr := false)], Erase(t, id).nodes) && Member(t.nodes, id)
  {
    var gs', nodes' := gs[id := gs[id].(onRr := false)], Erase(t, id).nodes;
    assert Node(id, gs[id].disptime) in t.nodes;
    forall n ensures n in nodes' <==> n in t.nodes && n.id != id {
      EraseMembers(t, id, n);
    }
  }

  lemma {:induction false} FlagGroups(gs: seq<Group>, id: nat, on: bool)
    requires GroupsOk(gs) && id < |gs|
    ensures GroupsOk(gs[id := gs[id].(onRr := on)])
    ensures Sum(gs[id := gs[id].(onRr := on)], false) == Sum(gs, false)
    ensures Sum(gs[id := gs[id].(onRr := on)], true) == Sum(gs, true)
  {
    var g := gs[id].(onRr := on);
    assert GroupOk(gs[id]);
    SumAt(gs, id, g, false);
    SumAt(gs, id, g, true);
    var gs' := gs[id := g];
    forall k | 0 <= k < |gs| ensures GroupOk(gs'[k]) { assert GroupOk(gs[k]); }
  }

  lemma {:induction false} EnqueueOk(td: Data, id: nat)
    requires OkBut(td, id) && id < |td.groups|
    ensures OkBut(Enqueue(td, id), id)
    ensures Holds(td.groups[id]) ==> Ok(Enqueue(td, id))
  {
    if !td.groups[id].onRr {
      NotMember(td.groups, td.tree.nodes, id);
      AddOk(td.tree, id, td.groups[id].disptime);
      EnqueueMatches(td.groups, td.tree, id);
      FlagGroups(td.groups, id, true);
    }
  }

  lemma {:induction false} DequeueOk(td: Data, id: nat)
    requires OkBut(td, id) && id < |td.groups|
    ensures OkBut(Dequeue(td, id), id) && !Dequeue(td, id).groups[id].onRr
    ensures !Holds(td.groups[id]) ==> Ok(Dequeue(td, id))
  {
    if td.groups[id].onRr {
      EraseOk(td.tree, id);
      DequeueMatches(td.groups, td.tree, id);
      EraseMembers(td.tree, id, Node(id, td.groups[id].disptime));
      FlagGroups(td.groups, id, false);
    }
  }

  /** Changing a group without moving it on the tree. */
  function Put(td: Data, id: nat, g: Group, nrRead: nat, nrWrite: nat): Data
    requires id < |td.groups|
  {
    td.(groups := td.groups[id := g], nrRead := nrRead, nrWrite := nrWrite)
  }

  lemma {:induction false} PutOk(td: Data, id: nat, g: Group, nrRead: nat, nrWrite: nat)
    requires OkBut(td, id) && id < |td.groups| && GroupOk(g)
    requires g.onRr == td.groups[id].onRr && (g.onRr ==> g.disptime == td.groups[id].disptime)
    requires nrRead + HeldDir(td.groups[id], false) == td.nrRead + HeldDir(g, false)
    requires nrWrite + HeldDir(td.groups[id], true) == td.nrWrite + HeldDir(g, true)
    ensures OkBut(Put(td, id, g, nrRead, nrWrite), id)
  {
    SumAt(td.groups, id, g, false);
    SumAt(td.groups, id, g, true);
    var gs := td.groups[id := g];
    forall k | 0 <= k < |gs| ensures GroupOk(gs[k]) { assert k != id ==> GroupOk(td.groups[k]); }
    assert TreeMatches(gs, td.tree.nodes);
  }

  // ----- logs -----

  /** Every bio keeps its place: nothing arrived in between, and what was let go
      before is still the beginning of what has been let go. */
  predicate DirOnward(d: Dir, e: Dir) { e.arrived == d.arrived && d.released <= e.released && e.lim == d.lim }

  predicate Onward(g: Group, h: Group) {
    DirOnward(g.read, h.read) && DirOnward(g.write, h.write) && h.linked == g.linked
  }

  ghost predicate AllOnward(gs: seq<Group>, hs: seq<Group>) {
    |gs| == |hs| && forall id {:trigger Onward(gs[id], hs[id])} :: 0 <= id < |gs| ==> Onward(gs[id], hs[id])
  }

  lemma {:induction false} OnwardTwice(gs: seq<Group>, hs: seq<Group>, ks: seq<Group>)
    requires AllOnward(gs, hs) && AllOnward(hs, ks)
    ensures AllOnward(gs, ks)
  {
    forall id | 0 <= id < |gs| ensures Onward(gs[id], ks[id]) {
      assert Onward(gs[id], hs[id]) && Onward(hs[id], ks[id]);
      PrefixTwice(gs[id].read.released, hs[id].read.released, ks[id].read.released);
      PrefixTwice(gs[id].write.released, hs[id].write.released, ks[id].write.released);
    }
  }

  lemma {:induction false} PrefixTwice(a: seq<Bio>, b: seq<Bio>, c: seq<Bio>)
    requires a <= b <= c
    ensures a <= c
  {
  }

  lemma {:induction false} OnwardAt(gs: seq<Group>, id: nat, g: Group)
    requires id < |gs| && Onward(gs[id], g)
    ensures AllOnward(gs, gs[id := g])
  {
  }

  // ----- one round of throtl_select_dispatch -----

  /** The group after its round, off the tree; dated anew if it still holds bios. */
  function Served(c: Config, now: nat, g: Group): (r: (Group, nat))
    requires c.Ok() && GroupOk(g)
    ensures GroupOk(r.0) && r.1 <= c.group && Held(r.0) + r.1 == Held(g) && r.0.onRr == g.onRr && Onward(g, r.0)
  {
    var (h, n) := Round(c, now, g);
    (if Holds(h) then Dated(c, now, h) else h, n)
  }

  /** Change a group that is off the tree, and put it back if it then holds bios. */
  function PutBack(off: Data, id: nat, g: Group): Data
    requires id < |off.groups|
  {
    var was := off.groups[id];
    var back := Put(off, id, g, Minus(off.nrRead, HeldDir(was, false)) + HeldDir(g, false),
                    Minus(off.nrWrite, HeldDir(was, true)) + HeldDir(g, true));
    if Holds(g) then Enqueue(back, id) else back
  }

  function Replace(td: Data, id: nat, g: Group): Data
    requires id < |td.groups|
  {
    PutBack(Dequeue(td, id), id, g)
  }

  lemma {:induction false} ReplaceOk(td: Data, id: nat, g: Group)
    requires id < |td.groups| && Ok(td) && GroupOk(g) && !g.onRr
    ensures Ok(Replace(td, id, g))
  {
    SumZero(td.groups, id, false);
    SumZero(td.groups, id, true);
    DequeueOk(td, id);
    BackOk(Dequeue(td, id), id, g);
  }

  lemma {:induction false} BackOk(off: Data, id: nat, g: Group)
    requires id < |off.groups| && OkBut(off, id) && !off.groups[id].onRr && GroupOk(g) && !g.onRr
    requires HeldDir(off.groups[id], false) <= off.nrRead && HeldDir(off.groups[id], true) <= off.nrWrite
    ensures Ok(PutBack(off, id, g))
  {
    var was := off.groups[id];
    var nr := off.nrRead - HeldDir(was, false) + HeldDir(g, false);
    var nw := off.nrWrite - HeldDir(was, true) + HeldDir(g, true);
    PutOk(off, id, g, nr, nw);
    if Holds(g) { EnqueueOk(Put(off, id, g, nr, nw), id); }
  }

  lemma {:induction false} ReplaceIs(td: Data, id: nat, g: Group)
    requires id < |td.groups| && Ok(td) && !g.onRr
    ensures Replace(td, id, g).groups == td.groups[id := g.(onRr := Holds(g))]
    ensures Replace(td, id, g).nrRead + HeldDir(td.groups[id], false) == td.nrRead + HeldDir(g, false)
    ensures Replace(td, id, g).nrWrite + HeldDir(td.groups[id], true) == td.nrWrite + HeldDir(g, true)
  {
    SumZero(td.groups, id, false);
    SumZero(td.groups, id, true);
  }

  /** One round of throtl_select_dispatch for a group. */
  function Serve(c: Config, now: nat, td: Data, id: nat): (Data, nat)
    requires c.Ok() && id < |td.groups| && GroupOk(td.groups[id])
  {
    var (g, n) := Served(c, now, td.groups[id].(onRr := false));
    (Replace(td, id, g), n)
  }

  lemma {:induction false} ServeOk(c: Config, now: nat, td: Data, id: nat)
    requires c.Ok() && id < |td.groups| && GroupOk(td.groups[id]) && Ok(td)
    ensures var (td', n) := Serve(c, now, td, id);
      && Ok(td') && AllOnward(td.groups, td'.groups) && n <= c.group
      && td'.nrRead + td'.nrWrite + n == td.nrRead + td.nrWrite
  {
    assert GroupOk(td.groups[id]);
    var (g, n) := Served(c, now, td.groups[id].(onRr := false));
    ReplaceOk(td, id, g);
    ReplaceIs(td, id, g);
    OnwardAt(td.groups, id, g.(onRr := Holds(g)));
  }

  /** Groups whose time has come. */
  function Due(nodes: seq<Node>, now: nat): nat {
    if nodes == [] then 0 else Due(nodes[1..], now) + if nodes[0].key <= now then 1 else 0
  }

  lemma {:induction false} DueInsert(nodes: seq<Node>, p: nat, n: Node, now: nat)
    requires p <= |nodes| && now < n.key
    ensures Due(Insert(nodes, p, n), now) == Due(nodes, now)
  {
    var r := Insert(nodes, p, n);
    if p == 0 {
      assert r[1..] == nodes;
    } else {
      assert r[1..] == Insert(nodes[1..], p - 1, n);
      DueInsert(nodes[1..], p - 1, n, now);
    }
  }

  /** A group that is due but lets nothing go is put back behind the present. */
  lemma {:induction false} ServeLowers(c: Config, now: nat, td: Data, id: nat)
    requires c.Ok() && Ok(td) && td.tree.nodes != [] && id == td.tree.nodes[0].id && td.tree.nodes[0].key <= now
    ensures id < |td.groups| && GroupOk(td.groups[id])
    ensures Serve(c, now, td, id).1 == 0 ==> Due(Serve(c, now, td, id).0.tree.nodes, now) < Due(td.tree.nodes, now)
  {
    assert td.tree.nodes[0] in td.tree.nodes;
    assert GroupOk(td.groups[id]) && Holds(td.groups[id]);
    var was := td.groups[id].(onRr := false);
    if Served(c, now, was).1 == 0 {
      IdleRoundWaits(c, now, was);
      ReplaceLowers(td, id, Served(c, now, was).0, now);
    }
  }

  lemma {:induction false} ReplaceLowers(td: Data, id: nat, g: Group, now: nat)
    requires Ok(td) && td.tree.nodes != [] && id == td.tree.nodes[0].id && td.tree.nodes[0].key <= now
    requires id < |td.groups| && td.groups[id].onRr && !g.onRr && Holds(g) && now < g.disptime
    ensures Due(Replace(td, id, g).tree.nodes, now) < Due(td.tree.nodes, now)
  {
    var nodes := td.tree.nodes;
    ReplaceNodes(td, id, g);
    DueInsert(nodes[1..], Place(nodes[1..], g.disptime), Node(id, g.disptime), now);
  }

  lemma {:induction false} ReplaceNodes(td: Data, id: nat, g: Group)
    requires td.tree.nodes != [] && id == td.tree.nodes[0].id && id < |td.groups| && td.groups[id].onRr
    requires !g.onRr && Holds(g)
    ensures Replace(td, id, g).tree.nodes ==
            Insert(td.tree.nodes[1..], Place(td.tree.nodes[1..], g.disptime), Node(id, g.disptime))
  {
    FirstErased(td.tree, id);
  }

  lemma {:induction false} FirstErased(t: Tree, id: nat)
    requires t.nodes != [] && t.nodes[0].id == id
    ensures Erase(t, id).nodes == t.nodes[1..]
  {
  }

  // ----- new bios -----

  function GrownDir(d: Dir, bio: Bio): (r: Dir)
    requires DirOk(d)
    ensures DirOk(r)
  {
    d.(queue := d.queue + [bio], nr := d.nr + 1, arrived := d.arrived + [bio])
  }

  function Grown(g: Group, write: bool, bio: Bio): (r: Group)
    requires GroupOk(g)
    ensures GroupOk(r) && Holds(r) && r.onRr == g.onRr && r.disptime == g.disptime
  {
    if write then g.(write := GrownDir(g.write, bio), ref := g.ref + 1)
    else g.(read := GrownDir(g.read, bio), ref := g.ref + 1)
  }

  /** throtl_add_bio_tg. */
  function AddBio(td: Data, id: nat, write: bool, bio: Bio): Data
    requires id < |td.groups| && GroupOk(td.groups[id])
  {
    Enqueue(Put(td, id, Grown(td.groups[id], write, bio), td.nrRead + (if write then 0 else 1),
                td.nrWrite + (if write then 1 else 0)), id)
  }

  lemma {:induction false} AddBioOk(td: Data, id: nat, write: bool, bio: Bio)
    requires Ok(td) && id < |td.groups| && GroupOk(td.groups[id])
    ensures Ok(AddBio(td, id, write, bio))
  {
    var g := Grown(td.groups[id], write, bio);
    var nr, nw := td.nrRead + (if write then 0 else 1), td.nrWrite + (if write then 1 else 0);
    PutOk(td, id, g, nr, nw);
    EnqueueOk(Put(td, id, g, nr, nw), id);
  }

  lemma {:induction false} AddBioIs(td: Data, id: nat, write: bool, bio: Bio)
    requires id < |td.groups| && GroupOk(td.groups[id])
    ensures AddBio(td, id, write, bio).groups == td.groups[id := Grown(td.groups[id], write, bio).(onRr := true)]
  {
  }

  /** If bios are queued anywhere, some group is on the tree. */
  lemma {:induction false} QueuedMeansTree(td: Data)
    requires Ok(td) && td.nrRead + td.nrWrite != 0
    ensures td.tree.nodes != [] && td.count != 0
  {
    var id := SomeHeld(td.groups);
    assert GroupOk(td.groups[id]) && td.groups[id].onRr;
  }

  lemma {:induction false} SomeHeld(gs: seq<Group>) returns (id: nat)
    requires Sum(gs, false) + Sum(gs, true) != 0
    ensures id < |gs| && Held(gs[id]) != 0
  {
    if Held(gs[0]) != 0 {
      id := 0;
    } else {
      id := SomeHeld(gs[1..]);
      id := id + 1;
    }
  }

  /** A change of a group that holds the same bios and stays where it is. */
  lemma {:induction false} TouchOk(td: Data, id: nat, g: Group)
    requires Ok(td) && id < |td.groups| && GroupOk(g)
    requires g.onRr == td.groups[id].onRr && g.disptime == td.groups[id].disptime
    requires |g.read.queue| == |td.groups[id].read.queue| && |g.write.queue| == |td.groups[id].write.queue|
    ensures Ok(td.(groups := td.groups[id := g]))
  {
    assert GroupOk(td.groups[id]);
    PutOk(td, id, g, td.nrRead, td.nrWrite);
  }

  // ----- blk_throtl_bio -----

  /** tg_update_disptime on a group that holds bios: off the tree, a new time, and back. */
  function Redated(c: Config, now: nat, td: Data, id: nat): Data
    requires c.Ok() && id < |td.groups| && GroupOk(td.groups[id]) && Holds(td.groups[id])
  {
    Replace(td, id, Dated(c, now, td.groups[id].(onRr := false)))
  }

  /** The bio passes: its direction holds none and the limits allow it. */
  function Pass(c: Config, now: nat, td: Data, id: nat, write: bool, bio: Bio): Data
    requires c.Ok() && id < |td.groups| && GroupOk(td.groups[id]) && DirOf(td.groups[id], write).queue == []
  {
    var g := td.groups[id];
    td.(groups := td.groups[id := WithDir(g, write, Passed(c, now, DirOf(g, write), bio))])
  }

  /** The bio is queued and the group's time set from it. */
  function AddDated(c: Config, now: nat, td: Data, id: nat, write: bool, bio: Bio): Data
    requires c.Ok() && id < |td.groups| && GroupOk(td.groups[id])
  {
    AddBioIs(td, id, write, bio);
    Redated(c, now, AddBio(td, id, write, bio), id)
  }

  /** The bio is the first to wait in its direction. */
  function FirstWait(c: Config, now: nat, td: Data, id: nat, write: bool, bio: Bio): Data
    requires c.Ok() && id < |td.groups| && GroupOk(td.groups[id])
  {
    var g := td.groups[id];
    var g' := WithDir(g, write, Denied(c, now, DirOf(g, write), bio));
    AddDated(c, now, td.(groups := td.groups[id := g']), id, write, bio)
  }

  /** blk_throtl_bio under the queue lock: the new state, and whether the bio waits. */
  function Admit(c: Config, now: nat, td: Data, id: nat, write: bool, bio: Bio): (Data, bool)
    requires c.Ok() && id < |td.groups| && GroupOk(td.groups[id])
  {
    var d := DirOf(td.groups[id], write);
    if d.nr != 0 then (AddBio(td, id, write, bio), true)
    else if MayDispatch(c, now, d.lim, d.slice, bio.size).ok then (Pass(c, now, td, id, write, bio), false)
    else (FirstWait(c, now, td, id, write, bio), true)
  }

  lemma {:induction false} PassOk(c: Config, now: nat, td: Data, id: nat, write: bool, bio: Bio)
    requires c.Ok() && Ok(td) && id < |td.groups| && GroupOk(td.groups[id]) && DirOf(td.groups[id], write).queue == []
    ensures Ok(Pass(c, now, td, id, write, bio))
  {
    var g := td.groups[id];
    TouchOk(td, id, WithDir(g, write, Passed(c, now, DirOf(g, write), bio)));
  }

  lemma {:induction false} RedatedOk(c: Config, now: nat, td: Data, id: nat)
    requires c.Ok() && Ok(td) && id < |td.groups| && GroupOk(td.groups[id]) && Holds(td.groups[id])
    ensures Ok(Redated(c, now, td, id))
    ensures Redated(c, now, td, id).groups ==
            td.groups[id := Dated(c, now, td.groups[id].(onRr := false)).(onRr := true)]
  {
    var g := Dated(c, now, td.groups[id].(onRr := false));
    assert Holds(g);
    ReplaceOk(td, id, g);
    ReplaceIs(td, id, g);
  }

  lemma {:induction false} FirstWaitOk(c: Config, now: nat, td: Data, id: nat, write: bool, bio: Bio)
    requires c.Ok() && Ok(td) && id < |td.groups| && GroupOk(td.groups[id])
    ensures Ok(FirstWait(c, now, td, id, write, bio))
  {
    var g := td.groups[id];
    var mid := td.(groups := td.groups[id := WithDir(g, write, Denied(c, now, DirOf(g, write), bio))]);
    TouchOk(td, id, mid.groups[id]);
    AddBioOk(mid, id, write, bio);
    AddBioIs(mid, id, write, bio);
    RedatedOk(c, now, AddBio(mid, id, write, bio), id);
  }

  /** blk_throtl_bio keeps everything consistent. */
  lemma {:induction false} AdmitOk(c: Config, now: nat, td: Data, id: nat, write: bool, bio: Bio)
    requires c.Ok() && Ok(td) && id < |td.groups| && GroupOk(td.groups[id])
    ensures Ok(Admit(c, now, td, id, write, bio).0)
  {
    var d := DirOf(td.groups[id], write);
    if d.nr != 0 {
      AddBioOk(td, id, write, bio);
    } else if MayDispatch(c, now, d.lim, d.slice, bio.size).ok {
      PassOk(c, now, td, id, write, bio);
    } else {
      FirstWaitOk(c, now, td, id, write, bio);
    }
  }

  /** A bio is logged as arrived, and it either joins the end of the queue or goes
      past an empty one: none overtakes another. */
  lemma {:induction false} AdmitInOrder(c: Config, now: nat, td: Data, id: nat, write: bool, bio: Bio)
    requires c.Ok() && Ok(td) && id < |td.groups| && GroupOk(td.groups[id])
    ensures var (td', waits) := Admit(c, now, td, id, write, bio);
      && |td'.groups| == |td.groups|
      && var d, e := DirOf(td.groups[id], write), DirOf(td'.groups[id], write);
         && e.arrived == d.arrived + [bio] && e.lim == d.lim
         && (if waits then e.queue == d.queue + [bio] && e.released == d.released
             else d.queue == [] && e.queue == [] && e.released == d.released + [bio])
  {
    var d := DirOf(td.groups[id], write);
    if d.nr != 0 {
      AddBioIs(td, id, write, bio);
    } else if !MayDispatch(c, now, d.lim, d.slice, bio.size).ok {
      var g := td.groups[id];
      var mid := td.(groups := td.groups[id := WithDir(g, write, Denied(c, now, d, bio))]);
      TouchOk(td, id, mid.groups[id]);
      AddBioOk(mid, id, write, bio);
      AddBioIs(mid, id, write, bio);
      RedatedOk(c, now, AddBio(mid, id, write, bio), id);
      DatedKeeps(c, now, AddBio(mid, id, write, bio).groups[id].(onRr := false), write);
    }
  }

  lemma {:induction false} DatedKeeps(c: Config, now: nat, g: Group, write: bool)
    requires c.Ok() && GroupOk(g) && Holds(g)
    ensures var d, e := DirOf(g, write), DirOf(Dated(c, now, g), write); e == d.(slice := e.slice)
  {
  }

  // ----- new groups -----

  /** A group as throtl_alloc_tg and throtl_init_add_tg_lists make it: all zero but
      for its limits, on the list of groups and not on the tree. */
  function NewDir(lim: Limit): Dir { Dir([], 0, Slice(0, 0, 0, 0), lim, [], []) }

  function NewGroup(read: Limit, write: Limit): Group { Group(NewDir(read), NewDir(write), 1, true, false, 0) }

  function AddGroup(td: Data, read: Limit, write: Limit): Data { td.(groups := td.groups + [NewGroup(read, write)]) }

  lemma {:induction false} SumSnoc(gs: seq<Group>, g: Group, write: bool)
    ensures Sum(gs + [g], write) == Sum(gs, write) + HeldDir(g, write)
  {
    if gs == [] {
      assert [g][1..] == [];
    } else {
      assert (gs + [g])[1..] == gs[1..] + [g];
      SumSnoc(gs[1..], g, write);
    }
  }

  lemma {:induction false} AddGroupOk(td: Data, read: Limit, write: Limit)
    requires Ok(td) && read.Ok() && write.Ok()
    ensures Ok(AddGroup(td, read, write))
  {
    var g := NewGroup(read, write);
    var gs := td.groups + [g];
    SumSnoc(td.groups, g, false);
    SumSnoc(td.groups, g, true);
    forall k | 0 <= k < |gs| ensures GroupOk(gs[k]) { assert k < |td.groups| ==> GroupOk(td.groups[k]); }
  }

  // ----- groups that go -----

  /** throtl_destroy_tg: off the list of groups, which gives up its reference. */
  function Unlink(td: Data, id: nat): Data
    requires id < |td.groups| && td.groups[id].ref > 0
  {
    var g := td.groups[id];
    td.(groups := td.groups[id := g.(linked := false, ref := g.ref - 1)])
  }

  /** A group on the list has a reference to give up, and what is left of it is consistent. */
  lemma {:induction false} UnlinkOk(td: Data, id: nat)
    requires Ok(td) && id < |td.groups| && td.groups[id].linked
    ensures td.groups[id].ref > 0 && Ok(Unlink(td, id))
  {
    assert GroupOk(td.groups[id]);
    var g := td.groups[id].(linked := false, ref := td.groups[id].ref - 1);
    TouchOk(td, id, g);
  }

  /** A group is freed, its last reference gone, exactly when it is off the list and
      holds no bio; then it is off the tree as well. */
  lemma {:induction false} FreedIsIdle(td: Data, id: nat)
    requires Ok(td) && id < |td.groups|
    ensures td.groups[id].ref == 0 <==> !td.groups[id].linked && Held(td.groups[id]) == 0
    ensures td.groups[id].ref == 0 ==> !td.groups[id].onRr && !Member(td.tree.nodes, id)
  {
    assert GroupOk(td.groups[id]);
    if td.groups[id].ref == 0 { NotMember(td.groups, td.tree.nodes, id); }
  }

  // ----- blk_throtl_drain -----

  /** A group is taken off the tree for good with all its bios let go. */
  lemma {:induction false} EmptyOk(c: Config, now: nat, td: Data, id: nat)
    requires c.Ok() && Ok(td) && td.tree.nodes != [] && id == td.tree.nodes[0].id
    ensures id < |td.groups| && GroupOk(td.groups[id])
    ensures var td' := Replace(td, id, EmptiedGroup(c, now, td.groups[id].(onRr := false)));
      Ok(td') && |td'.tree.nodes| < |td.tree.nodes| && AllOnward(td.groups, td'.groups)
  {
    assert td.tree.nodes[0] in td.tree.nodes;
    assert GroupOk(td.groups[id]);
    var g := EmptiedGroup(c, now, td.groups[id].(onRr := false));
    ReplaceOk(td, id, g);
    ReplaceIs(td, id, g);
    FirstErased(td.tree, id);
    OnwardAt(td.groups, id, g.(onRr := false));
  }

  /** With nothing on the tree nothing is queued, and all that arrived has gone. */
  lemma {:induction false} AllGone(td: Data)
    requires Ok(td) && td.tree.nodes == []
    ensures td.nrRead == 0 && td.nrWrite == 0
    ensures forall id {:trigger td.groups[id]} :: 0 <= id < |td.groups| ==>
      td.groups[id].read.released == td.groups[id].read.arrived
        && td.groups[id].write.released == td.groups[id].write.arrived
  {
    if td.nrRead + td.nrWrite != 0 {
      QueuedMeansTree(td);
      assert false;
    }
    forall id | 0 <= id < |td.groups|
      ensures td.groups[id].read.released == td.groups[id].read.arrived
           && td.groups[id].write.released == td.groups[id].write.arrived
    {
      assert GroupOk(td.groups[id]) && !td.groups[id].onRr;
    }
  }
}
