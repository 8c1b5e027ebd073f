/** The deadline scheduler of block/deadline-iosched.c: per direction a fifo by
    expiry and a tree by sector, and the choice of the next request. */
module Deadline {

  import opened ServiceTree
  import opened Options

  /** fifo_expire, fifo_batch and writes_starved. */
  datatype Config = Config(readExpire: nat, writeExpire: nat, batch: nat, starve: nat) {
    function Expire(dir: Dir): nat { if dir == Read then readExpire else writeExpire }
  }

  datatype Dir = Read | Write

  /** One direction: the fifo keyed by expiry, the tree keyed by sector, next_rq. */
  datatype Side = Side(fifo: seq<Node>, sort: seq<Node>, next: Option<nat>)

  datatype Data = Data(rd: Side, wr: Side, batching: nat, starved: nat) {
    function Of(dir: Dir): Side { if dir == Read then rd else wr }
    function With(dir: Dir, s: Side): Data { if dir == Read then this.(rd := s) else this.(wr := s) }
  }

  ghost predicate SameMembers(a: seq<Node>, b: seq<Node>) {
    |a| == |b| && forall id: nat :: Member(a, id) <==> Member(b, id)
  }

  ghost predicate ListOk(l: seq<Node>) { Sorted(l) && Distinct(l) }

  ghost predicate ExpireBy(l: seq<Node>, t: nat) { forall k :: 0 <= k < |l| ==> l[k].key <= t }

  /** Both indexes are sorted and hold the same requests, and next_rq is one of them. */
  ghost predicate SideOk(s: Side) {
    && ListOk(s.fifo) && ListOk(s.sort) && SameMembers(s.fifo, s.sort)
    && (s.next.Some? ==> Member(s.sort, s.next.value))
  }

  lemma {:induction false} InsertOk(l: seq<Node>, p: nat, n: Node)
    requires ListOk(l) && p <= |l| && !Member(l, n.id)
    requires (p > 0 ==> l[p - 1].key <= n.key) && (p < |l| ==> n.key <= l[p].key)
    ensures ListOk(Insert(l, p, n))
  {
    InsertSorted(l, p, n);
  }

  lemma {:induction false} InsertMember(l: seq<Node>, p: nat, n: Node, id: nat)
    requires p <= |l|
    ensures Member(Insert(l, p, n), id) <==> Member(l, id) || id == n.id
  {
    var r := Insert(l, p, n);
    assert r[p] == n;
    if Member(l, id) {
      var k :| 0 <= k < |l| && l[k].id == id;
      assert r[if k < p then k else k + 1].id == id;
    }
  }

  lemma {:induction false} RemoveMember(l: seq<Node>, p: nat, id: nat)
    requires Distinct(l) && p < |l|
    ensures Member(Remove(l, p), id) <==> Member(l, id) && id != l[p].id
  {
    var r := Remove(l, p);
    if Member(l, id) && id != l[p].id {
      var k :| 0 <= k < |l| && l[k].id == id;
      assert r[if k < p then k else k - 1].id == id;
    }
    if Member(r, id) {
      var k :| 0 <= k < |r| && r[k].id == id;
      assert l[if k < p then k else k + 1].id == id;
    }
  }

  lemma {:induction false} RemoveOk(l: seq<Node>, p: nat)
    requires ListOk(l) && p < |l|
    ensures ListOk(Remove(l, p))
  {
  }

  lemma MemberIndex(l: seq<Node>, id: nat)
    requires Member(l, id)
    ensures IndexOf(l, id) < |l| && l[IndexOf(l, id)].id == id
  {
  }

  /** elv_rb_add. */
  function AddSort(l: seq<Node>, id: nat, pos: nat): seq<Node> { Insert(l, Place(l, pos), Node(id, pos)) }

  /** Take a request off one of the two indexes. */
  function Drop(l: seq<Node>, id: nat): seq<Node> {
    if IndexOf(l, id) < |l| then Remove(l, IndexOf(l, id)) else l
  }

  lemma {:induction false} DropOk(l: seq<Node>, id: nat, x: nat)
    requires ListOk(l) && Member(l, id)
    ensures ListOk(Drop(l, id)) && |Drop(l, id)| == |l| - 1
    ensures Member(Drop(l, id), x) <==> Member(l, x) && x != id
  {
    MemberIndex(l, id);
    RemoveOk(l, IndexOf(l, id));
    RemoveMember(l, IndexOf(l, id), x);
  }

  lemma {:induction false} DropBy(l: seq<Node>, id: nat, t: nat)
    requires ExpireBy(l, t)
    ensures ExpireBy(Drop(l, id), t)
  {
  }

  /** deadline_latter_request: the next one by sector. */
  function Latter(sort: seq<Node>, id: nat): Option<nat> {
    var p := IndexOf(sort, id);
    if p + 1 < |sort| then Some(sort[p + 1].id) else None
  }

  /** deadline_remove_request. */
  function RemoveRequest(s: Side, id: nat): Side {
    Side(Drop(s.fifo, id), Drop(s.sort, id), if s.next == Some(id) then Latter(s.sort, id) else s.next)
  }

  lemma {:induction false} LatterMember(sort: seq<Node>, id: nat)
    requires ListOk(sort) && Member(sort, id)
    ensures Latter(sort, id).Some? ==> Member(sort, Latter(sort, id).value) && Latter(sort, id).value != id
  {
    MemberIndex(sort, id);
  }

  lemma {:induction false} DropBoth(s: Side, id: nat)
    requires SideOk(s) && Member(s.fifo, id)
    ensures ListOk(Drop(s.fifo, id)) && ListOk(Drop(s.sort, id))
    ensures SameMembers(Drop(s.fifo, id), Drop(s.sort, id))
    ensures forall x: nat :: Member(Drop(s.sort, id), x) <==> Member(s.sort, x) && x != id
  {
    DropOk(s.fifo, id, id);
    DropOk(s.sort, id, id);
    forall x: nat
      ensures Member(Drop(s.sort, id), x) <==> Member(s.sort, x) && x != id
      ensures Member(Drop(s.fifo, id), x) <==> Member(s.fifo, x) && x != id
    {
      DropOk(s.fifo, id, x);
      DropOk(s.sort, id, x);
    }
  }

  lemma {:induction false} RemoveRequestOk(s: Side, id: nat)
    requires SideOk(s) && Member(s.fifo, id)
    ensures SideOk(RemoveRequest(s, id)) && |RemoveRequest(s, id).fifo| == |s.fifo| - 1
  {
    DropBoth(s, id);
    DropOk(s.fifo, id, id);
    LatterMember(s.sort, id);
  }

  /** deadline_add_request. */
  function AddRequest(s: Side, id: nat, pos: nat, expire: nat): Side {
    s.(fifo := Insert(s.fifo, |s.fifo|, Node(id, expire)), sort := AddSort(s.sort, id, pos))
  }

  lemma {:induction false} AddRequestOk(s: Side, id: nat, pos: nat, expire: nat)
    requires SideOk(s) && !Member(s.fifo, id) && ExpireBy(s.fifo, expire)
    ensures SideOk(AddRequest(s, id, pos, expire)) && ExpireBy(AddRequest(s, id, pos, expire).fifo, expire)
    ensures |AddRequest(s, id, pos, expire).fifo| == |s.fifo| + 1
  {
    InsertOk(s.fifo, |s.fifo|, Node(id, expire));
    InsertOk(s.sort, Place(s.sort, pos), Node(id, pos));
    forall x: nat
      ensures Member(AddSort(s.sort, id, pos), x) <==> Member(s.sort, x) || x == id
      ensures Member(Insert(s.fifo, |s.fifo|, Node(id, expire)), x) <==> Member(s.fifo, x) || x == id
    {
      InsertMember(s.sort, Place(s.sort, pos), Node(id, pos), x);
      InsertMember(s.fifo, |s.fifo|, Node(id, expire), x);
    }
  }

  /** deadline_merged_request after a front merge: the request starts at pos now. */
  function FrontMerged(s: Side, id: nat, pos: nat): Side {
    s.(sort := AddSort(Drop(s.sort, id), id, pos))
  }

  lemma {:induction false} FrontMergedOk(s: Side, id: nat, pos: nat)
    requires SideOk(s) && Member(s.fifo, id)
    ensures SideOk(FrontMerged(s, id, pos))
  {
    DropBoth(s, id);
    DropOk(s.sort, id, id);
    var l := Drop(s.sort, id);
    InsertOk(l, Place(l, pos), Node(id, pos));
    forall x: nat ensures Member(AddSort(l, id, pos), x) <==> Member(s.sort, x) {
      InsertMember(l, Place(l, pos), Node(id, pos), x);
    }
  }

  /** Where list_move puts rq: right behind other. */
  function Behind(fifo: seq<Node>, rq: nat, other: nat): seq<Node>
    requires IndexOf(fifo, other) < |fifo|
  {
    var l := Drop(fifo, rq);
    if IndexOf(l, other) < |l| then Insert(l, IndexOf(l, other) + 1, Node(rq, fifo[IndexOf(fifo, other)].key)) else l
  }

  /** The fifo when rq absorbs other: rq takes the earlier of the two expiry times
      and, when that is the other's, moves behind it. */
  function Hurried(fifo: seq<Node>, rq: nat, other: nat): seq<Node>
    requires IndexOf(fifo, rq) < |fifo| && IndexOf(fifo, other) < |fifo|
  {
    if fifo[IndexOf(fifo, other)].key < fifo[IndexOf(fifo, rq)].key then Behind(fifo, rq, other) else fifo
  }

  /** Removing one entry keeps the key of another. */
  lemma {:induction false} DropKey(l: seq<Node>, id: nat, other: nat)
    requires Distinct(l) && Member(l, id) && Member(l, other) && id != other
    ensures Member(Drop(l, id), other)
    ensures IndexOf(Drop(l, id), other) < |Drop(l, id)| && IndexOf(l, other) < |l|
    ensures Drop(l, id)[IndexOf(Drop(l, id), other)].key == l[IndexOf(l, other)].key
    ensures IndexOf(Drop(l, id), other) ==
            if IndexOf(l, id) < IndexOf(l, other) then IndexOf(l, other) - 1 else IndexOf(l, other)
  {
    MemberIndex(l, id);
    MemberIndex(l, other);
    var p, q := IndexOf(l, id), IndexOf(l, other);
    var r := Remove(l, p);
    var k := if q < p then q else q - 1;
    assert r[k] == l[q];
    MemberIndex(r, other);
    assert r[IndexOf(r, other)].id == r[k].id;
  }

  /** Behind, in terms of the list without rq. */
  lemma {:induction false} BehindIs(fifo: seq<Node>, rq: nat, other: nat, l: seq<Node>, q: nat, key: nat)
    requires ListOk(fifo) && Member(fifo, rq) && Member(fifo, other) && rq != other
    requires l == Drop(fifo, rq) && q == IndexOf(l, other)
    requires IndexOf(fifo, other) < |fifo| && key == fifo[IndexOf(fifo, other)].key
    ensures ListOk(l) && !Member(l, rq) && |l| == |fifo| - 1 && q < |l| && l[q].key == key
    ensures Behind(fifo, rq, other) == Insert(l, q + 1, Node(rq, key))
  {
    assert ListOk(l) && !Member(l, rq) && |l| == |fifo| - 1 by { DropOk(fifo, rq, rq); }
    KeyWithout(fifo, rq, other, l, q);
  }

  lemma {:induction false} KeyWithout(fifo: seq<Node>, rq: nat, other: nat, l: seq<Node>, q: nat)
    requires Distinct(fifo) && Member(fifo, rq) && Member(fifo, other) && rq != other
    requires l == Drop(fifo, rq) && q == IndexOf(l, other)
    ensures q < |l| && IndexOf(fifo, other) < |fifo| && l[q].key == fifo[IndexOf(fifo, other)].key
  {
    DropKey(fifo, rq, other);
  }

  lemma {:induction false} InsertBehind(l: seq<Node>, q: nat, id: nat)
    requires ListOk(l) && q < |l| && !Member(l, id)
    ensures ListOk(Insert(l, q + 1, Node(id, l[q].key)))
  {
    InsertOk(l, q + 1, Node(id, l[q].key));
  }

  lemma {:induction false} BehindOk(fifo: seq<Node>, rq: nat, other: nat)
    requires ListOk(fifo) && Member(fifo, rq) && Member(fifo, other) && rq != other
    ensures IndexOf(fifo, other) < |fifo|
    ensures ListOk(Behind(fifo, rq, other)) && |Behind(fifo, rq, other)| == |fifo|
  {
    MemberIndex(fifo, other);
    var l := Drop(fifo, rq);
    var q := IndexOf(l, other);
    BehindIs(fifo, rq, other, l, q, fifo[IndexOf(fifo, other)].key);
    InsertBehind(l, q, rq);
  }

  lemma {:induction false} BehindMember(fifo: seq<Node>, rq: nat, other: nat, x: nat)
    requires ListOk(fifo) && Member(fifo, rq) && Member(fifo, other) && rq != other
    ensures IndexOf(fifo, other) < |fifo|
    ensures Member(Behind(fifo, rq, other), x) <==> Member(fifo, x)
  {
    MemberIndex(fifo, other);
    var l := Drop(fifo, rq);
    var q := IndexOf(l, other);
    BehindIs(fifo, rq, other, l, q, fifo[IndexOf(fifo, other)].key);
    InsertMember(l, q + 1, Node(rq, l[q].key), x);
    DropOk(fifo, rq, x);
  }

  /** deadline_merged_requests: rq absorbs other. */
  function MergedRequests(s: Side, rq: nat, other: nat): Side
    requires Member(s.fifo, rq) && Member(s.fifo, other)
  {
    MemberIndex(s.fifo, rq);
    MemberIndex(s.fifo, other);
    RemoveRequest(s.(fifo := Hurried(s.fifo, rq, other)), other)
  }

  lemma {:induction false} MergedRequestsOk(s: Side, rq: nat, other: nat)
    requires SideOk(s) && Member(s.fifo, rq) && Member(s.fifo, other) && rq != other
    ensures SideOk(MergedRequests(s, rq, other)) && |MergedRequests(s, rq, other).fifo| == |s.fifo| - 1
    ensures forall x: nat :: Member(MergedRequests(s, rq, other).fifo, x) <==> Member(s.fifo, x) && x != other
  {
    MemberIndex(s.fifo, rq);
    MemberIndex(s.fifo, other);
    BehindOk(s.fifo, rq, other);
    forall x: nat ensures Member(Behind(s.fifo, rq, other), x) <==> Member(s.fifo, x) {
      BehindMember(s.fifo, rq, other, x);
    }
    var t := s.(fifo := Hurried(s.fifo, rq, other));
    assert SideOk(t);
    RemoveRequestOk(t, other);
    forall x: nat ensures Member(Drop(t.fifo, other), x) <==> Member(t.fifo, x) && x != other {
      DropOk(t.fifo, other, x);
    }
  }
}
