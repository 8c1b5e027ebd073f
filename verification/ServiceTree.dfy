/** A red-black tree keyed by time with a cached leftmost node, as the throttle
    (block/blk-throttle.c) and CFQ (block/cfq-iosched.c) use it. The tree is the
    sequence of its nodes in order; rebalancing does not show. */
module ServiceTree {

  import opened Options

  /** A group on the tree and its key. */
  datatype Node = Node(id: nat, key: nat)

  datatype Tree = Tree(nodes: seq<Node>, left: Option<nat>)

  const EMPTY: Tree := Tree([], None)

  ghost predicate Sorted(nodes: seq<Node>) { forall i, j :: 0 <= i < j < |nodes| ==> nodes[i].key <= nodes[j].key }

  ghost predicate Distinct(nodes: seq<Node>) { forall i, j :: 0 <= i < j < |nodes| ==> nodes[i].id != nodes[j].id }

  /** Sorted, no group twice, and the cache is empty or names the leftmost node. */
  ghost predicate TreeOk(t: Tree) {
    && Sorted(t.nodes) && Distinct(t.nodes)
    && (t.left.Some? ==> t.nodes != [] && t.left.value == t.nodes[0].id)
  }

  predicate Member(nodes: seq<Node>, id: nat) { exists k :: 0 <= k < |nodes| && nodes[k].id == id }

  /** Where the descent ends: left of a larger key, right of a smaller or equal one. */
  function Place(nodes: seq<Node>, key: nat): (p: nat)
    ensures p <= |nodes|
    ensures p > 0 ==> nodes[p - 1].key <= key
    ensures p < |nodes| ==> key < nodes[p].key
  {
    if nodes == [] || key < nodes[0].key then 0 else 1 + Place(nodes[1..], key)
  }

  function Insert(nodes: seq<Node>, p: nat, n: Node): (r: seq<Node>)
    requires p <= |nodes|
    ensures |r| == |nodes| + 1
    ensures forall k :: 0 <= k < |r| ==> r[k] == if k < p then nodes[k] else if k == p then n else nodes[k - 1]
  {
    nodes[..p] + [n] + nodes[p..]
  }

  function Remove(nodes: seq<Node>, p: nat): (r: seq<Node>)
    requires p < |nodes|
    ensures |r| == |nodes| - 1
    ensures forall k :: 0 <= k < |r| ==> r[k] == if k < p then nodes[k] else nodes[k + 1]
  {
    nodes[..p] + nodes[p + 1..]
  }

  /** Insertion: the cache is set when the descent never went right. */
  function Add(t: Tree, id: nat, key: nat): Tree {
    var p := Place(t.nodes, key);
    Tree(Insert(t.nodes, p, Node(id, key)), if p == 0 then Some(id) else t.left)
  }

  /** The position of a group on the tree, or the number of nodes. */
  function IndexOf(nodes: seq<Node>, id: nat): (p: nat)
    ensures p <= |nodes| && (p < |nodes| ==> nodes[p].id == id)
    ensures forall k :: 0 <= k < p ==> nodes[k].id != id
  {
    if nodes == [] || nodes[0].id == id then 0 else 1 + IndexOf(nodes[1..], id)
  }

  /** Removal: a cache that names the node is emptied. */
  function Erase(t: Tree, id: nat): Tree {
    var p := IndexOf(t.nodes, id);
    if p == |t.nodes| then t
    else Tree(Remove(t.nodes, p), if t.left == Some(id) then None else t.left)
  }

  /** The leftmost node, remembered in the cache. */
  function First(t: Tree): (Tree, Option<nat>) {
    if t.left.Some? then (t, t.left)
    else if t.nodes == [] then (t, None)
    else (t.(left := Some(t.nodes[0].id)), Some(t.nodes[0].id))
  }

  /** What is found through the cache is the smallest key there is. */
  lemma FirstIsLeast(t: Tree)
    requires TreeOk(t)
    ensures TreeOk(First(t).0) && First(t).0.nodes == t.nodes
    ensures First(t).1 == None <==> t.nodes == []
    ensures t.nodes != [] ==> First(t).1 == Some(t.nodes[0].id)
    ensures forall k :: 0 <= k < |t.nodes| ==> t.nodes[0].key <= t.nodes[k].key
  {
  }

  lemma {:induction false} InsertSorted(nodes: seq<Node>, p: nat, n: Node)
    requires Sorted(nodes) && p <= |nodes|
    requires (p > 0 ==> nodes[p - 1].key <= n.key) && (p < |nodes| ==> n.key <= nodes[p].key)
    ensures Sorted(Insert(nodes, p, n))
  {
    var r := Insert(nodes, p, n);
    forall i, j | 0 <= i < j < |r| ensures r[i].key <= r[j].key {
      if i < p { assert i < p - 1 ==> nodes[i].key <= nodes[p - 1].key; }
      if j > p { assert p < j - 1 ==> nodes[p].key <= nodes[j - 1].key; }
    }
  }

  /** Insertion keeps the tree and puts a group behind the ones with an equal key. */
  lemma {:induction false} AddOk(t: Tree, id: nat, key: nat)
    requires TreeOk(t) && !Member(t.nodes, id)
    ensures TreeOk(Add(t, id, key))
  {
    var p := Place(t.nodes, key);
    InsertSorted(t.nodes, p, Node(id, key));
  }

  lemma {:induction false} AddMembers(t: Tree, id: nat, key: nat, n: Node)
    ensures n in Add(t, id, key).nodes <==> n in t.nodes || n == Node(id, key)
    ensures |Add(t, id, key).nodes| == |t.nodes| + 1
  {
    var p := Place(t.nodes, key);
    var r := Insert(t.nodes, p, Node(id, key));
    assert r[p] == Node(id, key);
    if n in t.nodes {
      var k :| 0 <= k < |t.nodes| && t.nodes[k] == n;
      assert r[if k < p then k else k + 1] == n;
    }
  }

  lemma {:induction false} EraseOk(t: Tree, id: nat)
    requires TreeOk(t)
    ensures TreeOk(Erase(t, id))
  {
  }

  lemma {:induction false} RemoveHas(nodes: seq<Node>, p: nat, n: Node)
    requires Distinct(nodes) && p < |nodes|
    ensures n in Remove(nodes, p) <==> n in nodes && n.id != nodes[p].id
  {
    var r := Remove(nodes, p);
    if n in nodes && n.id != nodes[p].id {
      var k :| 0 <= k < |nodes| && nodes[k] == n;
      assert r[if k < p then k else k - 1] == n;
    }
    if n in r {
      var k :| 0 <= k < |r| && r[k] == n;
      assert nodes[if k < p then k else k + 1] == n;
    }
  }

  lemma {:induction false} EraseMembers(t: Tree, id: nat, n: Node)
    requires Distinct(t.nodes)
    ensures n in Erase(t, id).nodes <==> n in t.nodes && n.id != id
    ensures |Erase(t, id).nodes| == if Member(t.nodes, id) then |t.nodes| - 1 else |t.nodes|
  {
    var p := IndexOf(t.nodes, id);
    if p < |t.nodes| { RemoveHas(t.nodes, p, n); }
  }
}
