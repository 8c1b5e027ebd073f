/** The group service tree of block/cfq-iosched.c updated in place. */
module CfqGroups {

  import opened ServiceTree
  import opened Options
  import opened Cfq
  import opened CfqFairness

  class CfqData {
    var groups: seq<Group>
    var tree: Tree
    var min: nat
    var total: int
    const delay: nat

    /** Groups that have no queues yet, with their weights. */
    constructor (weights: seq<nat>, delay: nat)
      requires forall k :: 0 <= k < |weights| ==> weights[k] > 0
      ensures Ok(View()) && min == 0 && total == 0 && tree == EMPTY && this.delay == delay
      ensures |groups| == |weights|
      ensures forall k :: 0 <= k < |weights| ==> groups[k] == Group(0, weights[k], None, 0, false)
    {
      this.delay := delay;
      groups := seq(|weights|, k requires 0 <= k < |weights| => Group(0, weights[k], None, 0, false));
      tree, min, total := EMPTY, 0, 0;
      new;
      NoShare(groups);
    }

    function View(): Service reads this { Service(groups, tree, min, total, delay) }

    /** cfq_group_service_tree_add, with its check and the one for the weight. */
    method ServiceTreeAdd(id: nat, vd: nat)
      requires id < |groups| && !groups[id].onTree
      modifies this`groups, this`tree, this`total
      ensures View() == TreeAdd(old(View()), id, vd)
    {
      assert !groups[id].onTree;
      var g := groups[id];
      if g.wanted.Some? { g := g.(weight := g.wanted.value, wanted := None); }
      g := g.(vd := vd, onTree := true);
      groups := groups[id := g];
      tree := Add(tree, id, vd);
      total := total + g.weight;
    }

    /** cfq_group_service_tree_del. */
    method ServiceTreeDel(id: nat)
      requires id < |groups|
      modifies this`groups, this`tree, this`total
      ensures View() == TreeDel(old(View()), id)
    {
      total := total - groups[id].weight;
      if groups[id].onTree { tree := Erase(tree, id); }
      groups := groups[id := groups[id].(onTree := false)];
    }

    /** cfq_group_notify_queue_add. */
    method NotifyQueueAdd(id: nat)
      requires Ok(View()) && id < |groups|
      modifies this`groups, this`tree, this`total
      ensures Ok(View()) && View() == Next(old(View()), Join(id))
    {
      NextOk(View(), Join(id), Next(View(), Join(id)));
      JoinTree(id);
    }

    method JoinTree(id: nat)
      requires id < |groups|
      modifies this`groups, this`tree, this`total
      ensures View() == QueueAdd(old(View()), id)
    {
      groups := groups[id := groups[id].(nr := groups[id].nr + 1)];
      if groups[id].onTree { return; }
      var vd := min;
      if tree.nodes != [] { vd := tree.nodes[|tree.nodes| - 1].key + delay; }
      ServiceTreeAdd(id, vd);
    }

    /** cfq_group_notify_queue_del: the group has a queue, or its check would fire. */
    method NotifyQueueDel(id: nat)
      requires Ok(View()) && id < |groups| && groups[id].nr >= 1
      modifies this`groups, this`tree, this`total
      ensures Ok(View()) && View() == Next(old(View()), Leave(id))
    {
      NextOk(View(), Leave(id), Next(View(), Leave(id)));
      groups := groups[id := groups[id].(nr := groups[id].nr - 1)];
      if groups[id].nr > 0 { return; }
      ServiceTreeDel(id);
    }

    /** The tree part of cfq_group_served. */
    method GroupServed(id: nat, charge: nat)
      requires Ok(View()) && Enabled(View(), Charge(id, charge))
      modifies this`groups, this`tree, this`total
      ensures Ok(View()) && View() == Next(old(View()), Charge(id, charge))
    {
      NextOk(View(), Charge(id, charge), Next(View(), Charge(id, charge)));
      ChargeTree(id, charge);
    }

    /** The group is charged off the tree, where a weight asked for takes effect. */
    method ChargeTree(id: nat, charge: nat)
      requires id < |groups| && groups[id].weight > 0
      modifies this`groups, this`tree, this`total
      ensures View() == Served(old(View()), id, charge)
    {
      var g := groups[id];
      ServiceTreeDel(id);
      ServiceTreeAdd(id, g.vd + Scaled(charge, g.weight));
    }

    /** cfq_get_next_cfqg: the group found through the cache has the least vdisktime. */
    method GetNextCfqg() returns (id: Option<nat>)
      requires Ok(View())
      modifies this`tree, this`min
      ensures Ok(View()) && View() == Next(old(View()), Pick)
      ensures id.None? <==> tree.nodes == []
      ensures id.Some? ==> Least(View(), id.value) && min == groups[id.value].vd
    {
      ChooseOk(View());
      NextOk(View(), Pick, Next(View(), Pick));
      if tree.nodes == [] { return None; }
      if tree.left.None? { tree := tree.(left := Some(tree.nodes[0].id)); }
      var vd := tree.nodes[0].key;
      if vd > min { min := vd; }
      id := tree.left;
    }

    /** cfq_update_blkio_group_weight. */
    method UpdateWeight(id: nat, weight: nat)
      requires Ok(View()) && id < |groups| && weight > 0
      modifies this`groups
      ensures Ok(View()) && View() == Next(old(View()), Weigh(id, weight))
    {
      NextOk(View(), Weigh(id, weight), Next(View(), Weigh(id, weight)));
      groups := groups[id := groups[id].(wanted := Some(weight))];
    }
  }

  lemma {:induction false} NoShare(gs: seq<Group>)
    requires forall k :: 0 <= k < |gs| ==> !gs[k].onTree
    ensures Total(gs) == 0
  {
    if gs != [] { NoShare(gs[1..]); }
  }
}
