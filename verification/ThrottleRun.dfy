/** Runs of throtl_data: time passes, bios come from control groups and the group
    whose time has come is served. The rate bound holds in every state reached. */
module ThrottleRun {
  import opened ThrottleSlice
  import opened ThrottleGroup
  import opened ThrottleTree
  import opened ThrottleMetered
  import ServiceTree

  /** `groupOf` finds the group of a control group, number 0 being the root; `born`
      records when each group was made. */
  datatype State = State(now: nat, td: Data, groupOf: map<nat, nat>, born: seq<nat>)

  /** A bio and where it comes from: `memory` says that a group can be made, with
      limits rl and wl, and `missed` that the first lookup, without the lock, did not
      find the group although it is there when the lock is taken. */
  datatype Arrival = Arrival(cgroup: nat, write: bool, bio: Bio, memory: bool, missed: bool, rl: Limit, wl: Limit)

  datatype Event =
    | Tick(ticks: nat)
    | Submit(arrival: Arrival)
    | Serve(id: nat)
    | Destroy(id: nat)

  /** blk_throtl_init: the root group. */
  function Start(now: nat, rl: Limit, wl: Limit): State {
    State(now, AddGroup(Data([], ServiceTree.EMPTY, 0, 0, 0), rl, wl), map[0 := 0], [now])
  }

  /** throtl_get_tg: the group of a control group, made with the limits given if
      there is none; the root's when memory is short. */
  function GetTg(s: State, a: Arrival): (State, nat) {
    if a.cgroup in s.groupOf then (s, s.groupOf[a.cgroup])
    else if !a.memory then (s, 0)
    else (s.(td := AddGroup(s.td, a.rl, a.wl), groupOf := s.groupOf[a.cgroup := |s.td.groups|],
          born := s.born + [s.now]),
          |s.td.groups|)
  }

  /** A direction without a limit is left alone if its group is found at the first lookup. */
  predicate LeftAlone(s: State, a: Arrival) {
    && a.cgroup in s.groupOf && !a.missed && s.groupOf[a.cgroup] < |s.td.groups|
    && DirOf(s.td.groups[s.groupOf[a.cgroup]], a.write).lim.None()
  }

  predicate Enabled(s: State, e: Event) {
    match e
    case Tick(ticks) => true
    case Submit(a) => a.rl.Ok() && a.wl.Ok()
    case Serve(id) => s.td.tree.nodes != [] && id == s.td.tree.nodes[0].id && s.td.tree.nodes[0].key <= s.now
    case Destroy(id) => 0 < id < |s.td.groups| && s.td.groups[id].linked
  }

  /** The groups that a lookup finds are on the list. */
  ghost predicate Found(gs: seq<Group>, groupOf: map<nat, nat>) {
    && gs != [] && gs[0].linked
    && forall cg :: cg in groupOf ==> groupOf[cg] < |gs| && gs[groupOf[cg]].linked
  }

  ghost predicate Inv(c: Config, s: State) {
    c.Ok() && Ok(s.td) && AllMetered(c, s.born, s.now, s.td.groups) && Found(s.td.groups, s.groupOf)
  }

  lemma {:induction false} StartOk(c: Config, now: nat, rl: Limit, wl: Limit)
    requires c.Ok() && rl.Ok() && wl.Ok()
    ensures Inv(c, Start(now, rl, wl))
  {
    var none := Data([], ServiceTree.EMPTY, 0, 0, 0);
    AddGroupOk(none, rl, wl);
    AddGroupMetered(c, [], now, none, rl, wl);
    assert [] + [now] == [now];
  }

  lemma {:induction false} GetTgOk(c: Config, s: State, a: Arrival)
    requires Inv(c, s) && a.rl.Ok() && a.wl.Ok()
    ensures var (t, id) := GetTg(s, a);
      Inv(c, t) && id < |t.td.groups| && GroupOk(t.td.groups[id]) && t.td.groups[id].linked
  {
    AddGroupOk(s.td, a.rl, a.wl);
    AddGroupMetered(c, s.born, s.now, s.td, a.rl, a.wl);
    var (t, id) := GetTg(s, a);
    assert Inv(c, t);
    assert GroupOk(t.td.groups[id]);
  }

  /** A control group has one group; one made for it has the limits given and holds nothing,
      and the root's serves when there is no memory. */
  lemma {:induction false} GetTgExactly(s: State, a: Arrival, t: State, id: nat)
    requires (t, id) == GetTg(s, a)
    ensures a.cgroup in s.groupOf ==> t == s && id == s.groupOf[a.cgroup]
    ensures a.cgroup !in s.groupOf && !a.memory ==> t == s && id == 0
    ensures a.cgroup !in s.groupOf && a.memory ==>
      && id == |s.td.groups| && t.groupOf == s.groupOf[a.cgroup := id] && t.born == s.born + [s.now]
      && |t.td.groups| == id + 1 && t.td.groups[..id] == s.td.groups && t.td.tree == s.td.tree
      && var g := t.td.groups[id];
         g.read.lim == a.rl && g.write.lim == a.wl && g.read.queue == [] && g.write.queue == [] && g.linked && !g.onRr
  {
  }

  /** A bio is left alone exactly if its group is found at once and both limits of its
      direction are all ones. */
  lemma {:induction false} LeftAloneExactly(s: State, a: Arrival)
    ensures LeftAlone(s, a) <==>
      && a.cgroup in s.groupOf && !a.missed && s.groupOf[a.cgroup] < |s.td.groups|
      && var g := s.td.groups[s.groupOf[a.cgroup]];
         var lim := if a.write then g.write.lim else g.read.lim;
         lim.bps == 0xFFFF_FFFF_FFFF_FFFF && lim.iops == 0xFFFF_FFFF
  {
  }

  /** blk_throtl_bio: the new state, and whether the bio waits. */
  function Submitted(c: Config, s: State, a: Arrival): (State, bool)
    requires c.Ok()
    requires var (t, id) := GetTg(s, a); id < |t.td.groups| && GroupOk(t.td.groups[id])
  {
    if LeftAlone(s, a) then (s, false)
    else
      var (t, id) := GetTg(s, a);
      var (td, waits) := Admit(c, t.now, t.td, id, a.write, a.bio);
      (t.(td := td), waits)
  }

  /** The control group of group id is gone, and the group with it once its bios are. */
  function Destroyed(s: State, id: nat): State
    requires id < |s.td.groups| && s.td.groups[id].ref > 0
  {
    s.(td := Unlink(s.td, id), groupOf := map cg | cg in s.groupOf && s.groupOf[cg] != id :: s.groupOf[cg])
  }

  ghost function Next(c: Config, s: State, e: Event): State
    requires Inv(c, s) && Enabled(s, e)
  {
    match e
    case Tick(ticks) => s.(now := s.now + ticks)
    case Submit(a) =>
      GetTgOk(c, s, a);
      Submitted(c, s, a).0
    case Serve(id) =>
      ServeLowers(c, s.now, s.td, id);
      s.(td := ThrottleTree.Serve(c, s.now, s.td, id).0)
    case Destroy(id) =>
      UnlinkOk(s.td, id);
      Destroyed(s, id)
  }

  lemma {:induction false} SubmitKeeps(c: Config, s: State, a: Arrival)
    requires Inv(c, s) && a.rl.Ok() && a.wl.Ok()
    ensures Inv(c, Next(c, s, Submit(a)))
  {
    GetTgOk(c, s, a);
    var (t, id) := GetTg(s, a);
    AdmitOk(c, t.now, t.td, id, a.write, a.bio);
    AdmitMetered(c, t.born, t.now, t.td, id, a.write, a.bio);
    AdmitLinked(c, t.now, t.td, id, a.write, a.bio);
  }

  lemma {:induction false} ServeFound(gs: seq<Group>, hs: seq<Group>, groupOf: map<nat, nat>)
    requires Found(gs, groupOf) && AllOnward(gs, hs)
    ensures Found(hs, groupOf)
  {
    forall k | 0 <= k < |gs| ensures hs[k].linked == gs[k].linked { assert Onward(gs[k], hs[k]); }
  }

  lemma {:induction false} NextKeeps(c: Config, s: State, e: Event)
    requires Inv(c, s) && Enabled(s, e)
    ensures Inv(c, Next(c, s, e))
  {
    match e
    case Tick(ticks) => TickMetered(c, s.born, s.now, s.td.groups, s.now + ticks);
    case Submit(a) => SubmitKeeps(c, s, a);
    case Serve(id) =>
      ServeLowers(c, s.now, s.td, id);
      ServeOk(c, s.now, s.td, id);
      ServeMetered(c, s.born, s.now, s.td, id);
      ServeFound(s.td.groups, Next(c, s, e).td.groups, s.groupOf);
    case Destroy(id) =>
      UnlinkOk(s.td, id);
      UnlinkMetered(c, s.born, s.now, s.td, id);
  }

  /** The state after a run. */
  ghost function After(c: Config, s: State, es: seq<Event>): State
    requires Inv(c, s) && IsRun(c, s, es)
    decreases |es|
  {
    if es == [] then s else NextKeeps(c, s, es[0]); After(c, Next(c, s, es[0]), es[1..])
  }

  ghost predicate IsRun(c: Config, s: State, es: seq<Event>)
    requires Inv(c, s)
    decreases |es|
  {
    es == [] || (Enabled(s, es[0]) && (NextKeeps(c, s, es[0]); IsRun(c, Next(c, s, es[0]), es[1..])))
  }

  lemma {:induction false} RunKeeps(c: Config, s: State, es: seq<Event>)
    requires Inv(c, s) && IsRun(c, s, es)
    ensures Inv(c, After(c, s, es))
    decreases |es|
  {
    if es != [] {
      NextKeeps(c, s, es[0]);
      RunKeeps(c, Next(c, s, es[0]), es[1..]);
    }
  }

  /** After any run from a new queue every limited direction of every group has
      released no more bytes and bios than its rate allows for its age and one slice,
      counted even from the start of its first slice; and what it released is the
      beginning of what arrived, in order. */
  lemma {:induction false} RunWithinRate(c: Config, s: State, es: seq<Event>, id: nat, write: bool) returns (t0: nat)
    requires Inv(c, s) && IsRun(c, s, es) && id < |After(c, s, es).td.groups|
    requires !DirOf(After(c, s, es).td.groups[id], write).lim.None()
    ensures var t := After(c, s, es);
      var d := DirOf(t.td.groups[id], write);
      && id < |t.born| && t.born[id] <= t0 && WithinRate(c, t0, t.now, d) && WithinRate(c, t.born[id], t.now, d)
      && d.arrived == d.released + d.queue && d.slice.bytes <= Bytes(d.released) && d.slice.ios <= |d.released|
  {
    RunKeeps(c, s, es);
    var t := After(c, s, es);
    assert GroupMetered(c, t.born[id], t.now, t.td.groups[id]) && GroupOk(t.td.groups[id]);
    t0 := MeteredBound(c, t.born[id], t.now, DirOf(t.td.groups[id], write));
  }
}
