/** CFQ's groups on their service tree (block/cfq-iosched.c): each group is charged
    for its service in virtual disk time, scaled by its weight. */
module Cfq {

  import opened ServiceTree
  import opened Options

  /** A shift by CFQ_SERVICE_SHIFT, 12, times BLKIO_WEIGHT_DEFAULT, 500. */
  const SCALE: nat := 4096 * 500

  /** `wanted` is a weight asked for and not yet in force. */
  datatype Group = Group(vd: nat, weight: nat, wanted: Option<nat>, nr: nat, onTree: bool)

  /** `delay` is CFQ_IDLE_DELAY. */
  datatype Service = Service(groups: seq<Group>, tree: Tree, min: nat, total: int, delay: nat)

  /** cfq_scale_slice. */
  function Scaled(charge: nat, weight: nat): nat
    requires weight > 0
  {
    charge * SCALE / weight
  }

  // ----- the sum of the weights on the tree -----

  function Share(g: Group): nat { if g.onTree then g.weight else 0 }

  function Total(gs: seq<Group>): nat { if gs == [] then 0 else Share(gs[0]) + Total(gs[1..]) }

  lemma {:induction false} TotalAt(gs: seq<Group>, id: nat, g: Group)
    requires id < |gs|
    ensures Total(gs[id := g]) + Share(gs[id]) == Total(gs) + Share(g)
  {
    if id == 0 {
      assert gs[0 := g][1..] == gs[1..];
    } else {
      assert gs[id := g][1..] == gs[1..][id - 1 := g];
      TotalAt(gs[1..], id - 1, g);
    }
  }

  // ----- the invariant -----

  ghost predicate GroupOk(g: Group) { g.weight > 0 && (g.wanted.Some? ==> g.wanted.value > 0) }

  ghost predicate GroupsOk(gs: seq<Group>) {
    forall id {:trigger GroupOk(gs[id])} :: 0 <= id < |gs| ==> GroupOk(gs[id])
  }

  /** The tree holds exactly the groups flagged, under their vdisktime. */
  ghost predicate Matches(gs: seq<Group>, nodes: seq<Node>) {
    && (forall n :: n in nodes ==> n.id < |gs| && gs[n.id].onTree && n.key == gs[n.id].vd)
    && (forall id: nat :: id < |gs| && gs[id].onTree ==> Node(id, gs[id].vd) in nodes)
  }

  ghost predicate AtLeast(nodes: seq<Node>, min: nat) { forall n :: n in nodes ==> min <= n.key }

  ghost predicate TreeSound(s: Service) {
    GroupsOk(s.groups) && TreeOk(s.tree) && Matches(s.groups, s.tree.nodes)
    && AtLeast(s.tree.nodes, s.min) && s.total == Total(s.groups)
  }

  /** A group has queues exactly while it is on the tree. */
  ghost predicate BusyBut(gs: seq<Group>, x: int) {
    forall id {:trigger gs[id].onTree} :: 0 <= id < |gs| && id != x ==> (gs[id].onTree <==> gs[id].nr > 0)
  }

  ghost predicate Ok(s: Service) { TreeSound(s) && BusyBut(s.groups, -1) }

  // ----- on and off the tree -----

  /** cfq_update_group_weight. */
  function Reweighed(g: Group): Group {
    if g.wanted.Some? then g.(weight := g.wanted.value, wanted := None) else g
  }

  /** cfq_group_service_tree_add of a group at vdisktime vd. */
  function TreeAdd(s: Service, id: nat, vd: nat): Service
    requires id < |s.groups|
  {
    var g := Reweighed(s.groups[id]).(vd := vd, onTree := true);
    s.(groups := s.groups[id := g], tree := Add(s.tree, id, vd), total := s.total + g.weight)
  }

  /** cfq_group_service_tree_del. */
  function TreeDel(s: Service, id: nat): Service
    requires id < |s.groups|
  {
    var g := s.groups[id];
    s.(groups := s.groups[id := g.(onTree := false)],
       tree := if g.onTree then Erase(s.tree, id) else s.tree, total := s.total - g.weight)
  }

  lemma {:induction false} OffTree(gs: seq<Group>, nodes: seq<Node>, id: nat)
    requires Matches(gs, nodes) && id < |gs| && !gs[id].onTree
    ensures !Member(nodes, id)
  {
    forall k | 0 <= k < |nodes| ensures nodes[k].id != id { assert nodes[k] in nodes; }
  }

  lemma {:induction false} AddMatches(gs: seq<Group>, t: Tree, id: nat, g: Group, gs': seq<Group>)
    requires Matches(gs, t.nodes) && id < |gs| && !gs[id].onTree && g.onTree && gs' == gs[id := g]
    ensures Matches(gs', Add(t, id, g.vd).nodes)
  {
    forall n: Node ensures n in Add(t, id, g.vd).nodes <==> n in t.nodes || n == Node(id, g.vd) {
      AddMembers(t, id, g.vd, n);
    }
  }

  lemma {:induction false} DelMatches(gs: seq<Group>, t: Tree, id: nat, g: Group, gs': seq<Group>)
    requires Matches(gs, t.nodes) && Distinct(t.nodes) && id < |gs| && !g.onTree && gs' == gs[id := g]
    ensures Matches(gs', Erase(t, id).nodes)
  {
    forall n: Node ensures n in Erase(t, id).nodes <==> n in t.nodes && n.id != id { EraseMembers(t, id, n); }
  }

  lemma {:induction false} PutOk(gs: seq<Group>, id: nat, g: Group, gs': seq<Group>)
    requires GroupsOk(gs) && id < |gs| && GroupOk(g) && gs' == gs[id := g]
    ensures GroupsOk(gs')
  {
    forall k | 0 <= k < |gs| ensures GroupOk(gs'[k]) { assert GroupOk(gs[k]); }
  }

  lemma {:induction false} TreeAddSound(s: Service, id: nat, vd: nat)
    requires TreeSound(s) && id < |s.groups| && !s.groups[id].onTree && s.min <= vd
    ensures TreeSound(TreeAdd(s, id, vd))
  {
    assert GroupOk(s.groups[id]);
    var g := Reweighed(s.groups[id]).(vd := vd, onTree := true);
    OffTree(s.groups, s.tree.nodes, id);
    AddOk(s.tree, id, vd);
    AddMatches(s.groups, s.tree, id, g, s.groups[id := g]);
    PutOk(s.groups, id, g, s.groups[id := g]);
    TotalAt(s.groups, id, g);
    forall n | n in Add(s.tree, id, vd).nodes ensures s.min <= n.key { AddMembers(s.tree, id, vd, n); }
  }

  lemma {:induction false} TreeDelSound(s: Service, id: nat)
    requires TreeSound(s) && id < |s.groups| && s.groups[id].onTree
    ensures TreeSound(TreeDel(s, id))
  {
    assert GroupOk(s.groups[id]);
    var g := s.groups[id].(onTree := false);
    EraseOk(s.tree, id);
    DelMatches(s.groups, s.tree, id, g, s.groups[id := g]);
    PutOk(s.groups, id, g, s.groups[id := g]);
    TotalAt(s.groups, id, g);
    forall n | n in Erase(s.tree, id).nodes ensures s.min <= n.key { EraseMembers(s.tree, id, n); }
  }

  // ----- the operations -----

  /** Where a group that joins is placed: behind the last one. */
  function JoinAt(s: Service): nat {
    if s.tree.nodes != [] then s.tree.nodes[|s.tree.nodes| - 1].key + s.delay else s.min
  }

  function WithNr(s: Service, id: nat, nr: nat): Service
    requires id < |s.groups|
  {
    s.(groups := s.groups[id := s.groups[id].(nr := nr)])
  }

  /** cfq_group_notify_queue_add. */
  function QueueAdd(s: Service, id: nat): Service
    requires id < |s.groups|
  {
    var t := WithNr(s, id, s.groups[id].nr + 1);
    if s.groups[id].onTree then t else TreeAdd(t, id, JoinAt(t))
  }

  /** cfq_group_notify_queue_del. */
  function QueueDel(s: Service, id: nat): Service
    requires id < |s.groups| && s.groups[id].nr >= 1
  {
    var t := WithNr(s, id, s.groups[id].nr - 1);
    if s.groups[id].nr > 1 then t else TreeDel(t, id)
  }

  /** cfq_group_served: charge the group off the tree and put it back. */
  function Served(s: Service, id: nat, charge: nat): Service
    requires id < |s.groups| && s.groups[id].weight > 0
  {
    TreeAdd(TreeDel(s, id), id, s.groups[id].vd + Scaled(charge, s.groups[id].weight))
  }

  /** cfq_get_next_cfqg: the leftmost group, and min_vdisktime follows it. */
  function Choose(s: Service): (Service, Option<nat>) {
    if s.tree.nodes == [] then (s, None)
    else
      var (t, left) := First(s.tree);
      var vd := t.nodes[0].key;
      (s.(tree := t, min := if vd > s.min then vd else s.min), left)
  }

  /** cfq_update_blkio_group_weight. */
  function SetWeight(s: Service, id: nat, weight: nat): Service
    requires id < |s.groups|
  {
    s.(groups := s.groups[id := s.groups[id].(wanted := Some(weight))])
  }

  lemma {:induction false} EditSound(s: Service, id: nat, g: Group)
    requires TreeSound(s) && id < |s.groups| && GroupOk(g)
    requires g.vd == s.groups[id].vd && g.weight == s.groups[id].weight && g.onTree == s.groups[id].onTree
    ensures TreeSound(s.(groups := s.groups[id := g]))
  {
    PutOk(s.groups, id, g, s.groups[id := g]);
    TotalAt(s.groups, id, g);
  }

  lemma {:induction false} JoinAtLeast(s: Service)
    requires TreeSound(s)
    ensures s.min <= JoinAt(s)
  {
    if s.tree.nodes != [] { assert s.tree.nodes[|s.tree.nodes| - 1] in s.tree.nodes; }
  }

  lemma {:induction false} BusyAt(gs: seq<Group>, id: nat, gs': seq<Group>)
    requires BusyBut(gs, id) && id < |gs| == |gs'| && gs'[id].onTree == (gs'[id].nr > 0)
    requires forall k :: 0 <= k < |gs| && k != id ==> gs'[k] == gs[k]
    ensures BusyBut(gs', -1)
  {
  }

  lemma {:induction false} JoinSound(s: Service, id: nat, t: Service)
    requires TreeSound(s) && id < |s.groups| && !s.groups[id].onTree && t == TreeAdd(s, id, JoinAt(s))
    ensures TreeSound(t)
  {
    JoinAtLeast(s);
    TreeAddSound(s, id, JoinAt(s));
  }

  lemma {:induction false} QueueAddSound(s: Service, id: nat, t: Service)
    requires TreeSound(s) && id < |s.groups| && t == QueueAdd(s, id)
    ensures TreeSound(t)
  {
    var u := WithNr(s, id, s.groups[id].nr + 1);
    assert TreeSound(u) by {
      assert GroupOk(s.groups[id]);
      EditSound(s, id, u.groups[id]);
    }
    if !s.groups[id].onTree { JoinSound(u, id, t); }
  }

  lemma {:induction false} QueueAddOk(s: Service, id: nat, t: Service)
    requires Ok(s) && id < |s.groups| && t == QueueAdd(s, id)
    ensures Ok(t)
  {
    QueueAddSound(s, id, t);
    BusyAt(s.groups, id, t.groups);
  }

  lemma {:induction false} QueueDelOk(s: Service, id: nat)
    requires Ok(s) && id < |s.groups| && s.groups[id].nr >= 1
    ensures Ok(QueueDel(s, id))
  {
    assert GroupOk(s.groups[id]);
    var t := WithNr(s, id, s.groups[id].nr - 1);
    EditSound(s, id, t.groups[id]);
    assert s.groups[id].onTree;
    if s.groups[id].nr == 1 { TreeDelSound(t, id); }
  }

  lemma {:induction false} OnTreeKey(s: Service, id: nat)
    requires TreeSound(s) && id < |s.groups| && s.groups[id].onTree
    ensures s.min <= s.groups[id].vd && Node(id, s.groups[id].vd) in s.tree.nodes
  {
  }

  lemma {:induction false} MoveSound(s: Service, id: nat, vd: nat, t: Service)
    requires TreeSound(s) && id < |s.groups| && s.groups[id].onTree && vd >= s.min
    requires t == TreeAdd(TreeDel(s, id), id, vd)
    ensures TreeSound(t)
  {
    TreeDelSound(s, id);
    TreeAddSound(TreeDel(s, id), id, vd);
  }

  lemma {:induction false} ServedOk(s: Service, id: nat, charge: nat, t: Service)
    requires Ok(s) && id < |s.groups| && s.groups[id].nr >= 1 && GroupOk(s.groups[id])
    requires t == Served(s, id, charge)
    ensures Ok(t)
  {
    assert s.groups[id].onTree;
    OnTreeKey(s, id);
    var vd := s.groups[id].vd + Scaled(charge, s.groups[id].weight);
    assert t == TreeAdd(TreeDel(s, id), id, vd);
    MovedOk(s, id, vd, t);
  }

  lemma {:induction false} MovedOk(s: Service, id: nat, vd: nat, t: Service)
    requires Ok(s) && id < |s.groups| && s.groups[id].onTree && vd >= s.min && t == TreeAdd(TreeDel(s, id), id, vd)
    ensures Ok(t)
  {
    MoveSound(s, id, vd, t);
    BusyAt(s.groups, id, t.groups);
  }

  lemma {:induction false} SetWeightOk(s: Service, id: nat, weight: nat)
    requires Ok(s) && id < |s.groups| && weight > 0
    ensures Ok(SetWeight(s, id, weight))
  {
    assert GroupOk(s.groups[id]);
    EditSound(s, id, s.groups[id].(wanted := Some(weight)));
  }

  /** What is chosen is the group with the least vdisktime, and min_vdisktime becomes that. */
  lemma {:induction false} ChooseOk(s: Service)
    requires Ok(s)
    ensures Ok(Choose(s).0) && s.min <= Choose(s).0.min
    ensures Choose(s).1.None? <==> s.tree.nodes == []
    ensures Choose(s).1.Some? ==> var id := Choose(s).1.value;
              id < |s.groups| && s.groups[id].onTree && Choose(s).0.min == s.groups[id].vd
              && forall n :: n in s.tree.nodes ==> s.groups[id].vd <= n.key
  {
    FirstIsLeast(s.tree);
    if s.tree.nodes != [] {
      assert s.tree.nodes[0] in s.tree.nodes;
      forall n | n in s.tree.nodes ensures s.tree.nodes[0].key <= n.key {
        var k :| 0 <= k < |s.tree.nodes| && s.tree.nodes[k] == n;
      }
    }
  }
}
