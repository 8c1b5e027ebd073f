/** What each operation of CFQ does to the groups themselves: where a group that joins
    is placed, what it is charged, and when a weight takes effect. */
module CfqSteps {

  import opened ServiceTree
  import opened Options
  import opened Cfq
  import opened CfqFairness

  /** The weight that a group has once one that was asked for is in force. */
  function InForce(g: Group): nat { if g.wanted.Some? then g.wanted.value else g.weight }

  /** No group but id is touched. */
  ghost predicate Others(s: Service, t: Service, id: nat) {
    id < |s.groups| == |t.groups| && forall k :: 0 <= k < |s.groups| && k != id ==> t.groups[k] == s.groups[k]
  }

  /** vd is CFQ_IDLE_DELAY behind the last of the groups that have queues. */
  ghost predicate BehindLast(s: Service, vd: nat) {
    && (forall k :: 0 <= k < |s.groups| && s.groups[k].nr > 0 ==> s.groups[k].vd + s.delay <= vd)
    && exists k :: 0 <= k < |s.groups| && s.groups[k].nr > 0 && s.groups[k].vd + s.delay == vd
  }

  ghost predicate NoneBusy(s: Service) { forall k :: 0 <= k < |s.groups| ==> s.groups[k].nr == 0 }

  lemma {:induction false} LastKey(s: Service)
    requires Ok(s) && s.tree.nodes != []
    ensures BehindLast(s, s.tree.nodes[|s.tree.nodes| - 1].key + s.delay)
  {
    var n := s.tree.nodes[|s.tree.nodes| - 1];
    assert n in s.tree.nodes;
    assert s.groups[n.id].onTree && s.groups[n.id].nr > 0 && s.groups[n.id].vd == n.key;
    forall k | 0 <= k < |s.groups| && s.groups[k].nr > 0 ensures s.groups[k].vd <= n.key {
      assert s.groups[k].onTree;
      OnTreeKey(s, k);
      LastIsMost(s.tree.nodes, Node(k, s.groups[k].vd));
    }
  }

  lemma {:induction false} EmptyTree(s: Service)
    requires Ok(s) && s.tree.nodes == []
    ensures NoneBusy(s)
  {
    forall k | 0 <= k < |s.groups| ensures s.groups[k].nr == 0 { BusyHasNode(s, k); }
  }

  lemma {:induction false} BusyHasNode(s: Service, k: nat)
    requires Ok(s) && k < |s.groups|
    ensures s.groups[k].nr > 0 ==> s.tree.nodes != []
  {
    if s.groups[k].nr > 0 { OnTreeKey(s, k); }
  }

  /** cfq_group_notify_queue_add: a group that gets its first queue is put a delay behind
      the last group with queues, or at min_vdisktime if there is none, and a weight
      asked for takes effect. */
  lemma {:induction false} JoinExactly(s: Service, id: nat, t: Service)
    requires Ok(s) && id < |s.groups| && t == QueueAdd(s, id)
    ensures Others(s, t, id) && t.min == s.min && t.groups[id].nr == s.groups[id].nr + 1
    ensures s.groups[id].nr > 0 ==> t.groups[id] == s.groups[id].(nr := s.groups[id].nr + 1)
    ensures s.groups[id].nr == 0 ==> t.groups[id].weight == InForce(s.groups[id]) && t.groups[id].wanted.None?
    ensures s.groups[id].nr == 0 ==>
      if NoneBusy(s) then t.groups[id].vd == s.min else BehindLast(s, t.groups[id].vd)
  {
    assert s.groups[id].onTree <==> s.groups[id].nr > 0;
    if s.groups[id].nr == 0 {
      var u := WithNr(s, id, 1);
      assert JoinAt(u) == JoinAt(s);
      if s.tree.nodes == [] {
        EmptyTree(s);
      } else {
        LastKey(s);
      }
    }
  }

  /** cfq_group_notify_queue_del. */
  lemma {:induction false} LeaveExactly(s: Service, id: nat, t: Service)
    requires Ok(s) && id < |s.groups| && s.groups[id].nr >= 1 && t == QueueDel(s, id)
    ensures Others(s, t, id) && t.min == s.min
    ensures t.groups[id] == s.groups[id].(nr := s.groups[id].nr - 1, onTree := s.groups[id].nr > 1)
  {
    assert s.groups[id].onTree <==> s.groups[id].nr > 0;
  }

  /** cfq_group_served: vdisktime grows by the charge, shifted by 12 and times 500, in
      whole parts of the weight in force so far; a weight asked for takes effect then. */
  lemma {:induction false} ServedExactly(s: Service, id: nat, charge: nat, t: Service, grown: nat)
    requires Ok(s) && id < |s.groups| && s.groups[id].nr >= 1 && s.groups[id].weight > 0
    requires t == Served(s, id, charge)
    requires var w := s.groups[id].weight; grown * w <= charge * 4096 * 500 < (grown + 1) * w
    ensures Others(s, t, id) && t.min == s.min
    ensures t.groups[id].vd == s.groups[id].vd + grown && t.groups[id].nr == s.groups[id].nr && t.groups[id].onTree
    ensures t.groups[id].weight == InForce(s.groups[id]) && t.groups[id].wanted.None?
  {
    var w := s.groups[id].weight;
    QuotientIs(charge * SCALE, w, grown);
  }

  lemma {:induction false} QuotientIs(x: nat, w: nat, q: nat)
    requires 0 < w && q * w <= x < (q + 1) * w
    ensures x / w == q
  {
    var d := x / w;
    assert x == d * w + x % w;
    if d < q { Up(d + 1, q, w); }
    if q < d { Up(q + 1, d, w); }
  }

  /** Asking for a weight changes nothing yet. */
  lemma {:induction false} WeighExactly(s: Service, id: nat, weight: nat, t: Service)
    requires id < |s.groups| && t == SetWeight(s, id, weight)
    ensures Others(s, t, id) && t.tree == s.tree && t.min == s.min && t.total == s.total
    ensures t.groups[id] == s.groups[id].(wanted := Some(weight)) && InForce(t.groups[id]) == weight
  {
  }
}
