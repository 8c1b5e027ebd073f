/** Tagged queueing (block/blk-tag.c): a bitmap and an index of tags that several
    queues may share, each queue with its list of tagged requests. */
module Tags {

  import opened ListOps
  import opened Options

  /** A request of a queue; `tag` is None for -1, and REQ_QUEUED goes with it. */
  datatype Rq = Rq(owner: nat, tag: Option<nat>)

  /** tag_map and tag_index, both real_max_depth long, max_depth and refcnt. */
  datatype Map = Map(bits: seq<bool>, index: seq<Option<nat>>, max: nat, refs: nat)

  /** Per queue, tag_busy_list and the dispatch list. */
  datatype State = State(m: Map, rqs: seq<Rq>, busy: seq<seq<nat>>, queue: seq<seq<nat>>)

  // ----- the invariant -----

  predicate SlotOk(m: Map, rqs: seq<Rq>, t: nat)
    requires t < |m.bits| == |m.index|
  {
    && m.bits[t] == m.index[t].Some?
    && (m.index[t].Some? ==> m.index[t].value < |rqs| && rqs[m.index[t].value].tag == Some(t))
  }

  /** A bit is set exactly when the index names a request, which carries the tag. */
  ghost predicate MapOk(m: Map, rqs: seq<Rq>) {
    |m.bits| == |m.index| && m.max <= |m.bits| && forall t: nat :: t < |m.bits| ==> SlotOk(m, rqs, t)
  }

  predicate CarriesOk(m: Map, rqs: seq<Rq>, r: nat)
    requires r < |rqs|
  {
    rqs[r].tag.Some? ==> rqs[r].tag.value < |m.index| && m.index[rqs[r].tag.value] == Some(r)
  }

  /** A request that carries a tag is the one the index names. */
  ghost predicate RqsOk(m: Map, rqs: seq<Rq>) { forall r: nat :: r < |rqs| ==> CarriesOk(m, rqs, r) }

  predicate Tagged(rqs: seq<Rq>, k: nat, r: nat) { r < |rqs| && rqs[r].tag.Some? && rqs[r].owner == k }

  ghost predicate BusyAt(rqs: seq<Rq>, busy: seq<seq<nat>>, k: nat, r: nat)
    requires k < |busy|
  {
    multiset(busy[k])[r] == if Tagged(rqs, k, r) then 1 else 0
  }

  /** Each queue's busy list holds its tagged requests, each once. */
  ghost predicate BusyOk(rqs: seq<Rq>, busy: seq<seq<nat>>) {
    forall k: nat, r: nat :: k < |busy| ==> BusyAt(rqs, busy, k, r)
  }

  ghost predicate Owned(s: State) {
    |s.queue| == |s.busy| && forall r: nat :: r < |s.rqs| ==> s.rqs[r].owner < |s.busy|
  }

  ghost predicate Ok(s: State) { MapOk(s.m, s.rqs) && RqsOk(s.m, s.rqs) && BusyOk(s.rqs, s.busy) && Owned(s) }

  /** Bit t is set iff the index names the one request that carries t. */
  lemma {:induction false} TagIsUnique(s: State, t: nat, r: nat)
    requires Ok(s) && t < |s.m.bits| && r < |s.rqs|
    ensures s.rqs[r].tag == Some(t) <==> s.m.index[t] == Some(r)
    ensures s.m.bits[t] <==> exists x: nat :: x < |s.rqs| && s.rqs[x].tag == Some(t)
  {
    assert SlotOk(s.m, s.rqs, t);
    assert CarriesOk(s.m, s.rqs, r);
    if s.m.bits[t] { assert s.rqs[s.m.index[t].value].tag == Some(t); }
    forall x: nat | x < |s.rqs| && s.rqs[x].tag == Some(t) ensures s.m.bits[t] { assert CarriesOk(s.m, s.rqs, x); }
  }

  // ----- giving and taking back one tag -----

  /** The tags a request may use: the last two are kept from asynchronous ones. */
  function Limit(max: nat, sync: bool): (n: nat)
    ensures n <= max && (max > 0 ==> n > 0) && (sync ==> n == max) && (!sync && max > 2 ==> n == max - 2)
    ensures max == 2 && !sync ==> n == 1
  {
    if !sync && max > 1 then (if max == 2 then 1 else max - 2) else max
  }

  /** find_first_zero_bit below n, or n. */
  function FirstFree(bits: seq<bool>, n: nat): (t: nat)
    requires n <= |bits|
    ensures t <= n && (t < n ==> !bits[t]) && forall i :: 0 <= i < t ==> bits[i]
  {
    FirstFreeFrom(bits, n, 0)
  }

  function FirstFreeFrom(bits: seq<bool>, n: nat, i: nat): (t: nat)
    requires i <= n <= |bits| && forall j :: 0 <= j < i ==> bits[j]
    ensures t <= n && (t < n ==> !bits[t]) && forall j :: 0 <= j < t ==> bits[j]
    decreases n - i
  {
    if i == n || !bits[i] then i else FirstFreeFrom(bits, n, i + 1)
  }

  /** The request gets tag t and moves from the dispatch list to the busy list. */
  function Give(s: State, r: nat, t: nat): State
    requires r < |s.rqs| && t < |s.m.bits| == |s.m.index| && s.rqs[r].owner < |s.busy| == |s.queue|
  {
    var k := s.rqs[r].owner;
    State(s.m.(bits := s.m.bits[t := true], index := s.m.index[t := Some(r)]),
          s.rqs[r := s.rqs[r].(tag := Some(t))],
          s.busy[k := [r] + s.busy[k]], s.queue[k := Without(s.queue[k], r)])
  }

  /** Whether blk_queue_start_tag gives up before it looks for a tag. */
  predicate Crowded(m: Map, sync: bool, inFlight: nat) { !sync && m.max > 1 && inFlight > Limit(m.max, sync) }

  /** The tag blk_queue_start_tag would give, if any. */
  function Choice(m: Map, sync: bool, inFlight: nat): (t: Option<nat>)
    requires m.max <= |m.bits|
    ensures t.None? <==> (!sync && m.max > 1 && inFlight > Limit(m.max, sync))
                         || forall i :: 0 <= i < Limit(m.max, sync) ==> m.bits[i]
    ensures t.Some? ==> t.value < Limit(m.max, sync) && !m.bits[t.value] && forall i :: 0 <= i < t.value ==> m.bits[i]
  {
    var n := Limit(m.max, sync);
    if Crowded(m, sync, inFlight) || FirstFree(m.bits, n) == n then None else Some(FirstFree(m.bits, n))
  }

  /** blk_queue_end_tag. */
  function End(s: State, r: nat): State
    requires r < |s.rqs| && s.rqs[r].owner < |s.busy| && s.rqs[r].tag.Some?
    requires s.rqs[r].tag.value < |s.m.bits| == |s.m.index|
  {
    var k, t := s.rqs[r].owner, s.rqs[r].tag.value;
    s.(m := s.m.(bits := s.m.bits[t := false], index := s.m.index[t := None]),
       rqs := s.rqs[r := s.rqs[r].(tag := None)], busy := s.busy[k := Without(s.busy[k], r)])
  }

  lemma {:induction false} GiveMap(s: State, r: nat, t: nat, u: State)
    requires Ok(s) && r < |s.rqs| && s.rqs[r].tag.None? && t < |s.m.bits| && !s.m.bits[t] && s.rqs[r].owner < |s.busy|
    requires u == Give(s, r, t)
    ensures MapOk(u.m, u.rqs) && RqsOk(u.m, u.rqs)
  {
    assert SlotOk(s.m, s.rqs, t);
    forall i: nat | i < |u.m.bits| ensures SlotOk(u.m, u.rqs, i) { assert SlotOk(s.m, s.rqs, i); }
    forall x: nat | x < |u.rqs| ensures CarriesOk(u.m, u.rqs, x) { assert CarriesOk(s.m, s.rqs, x); }
  }

  lemma {:induction false} GiveBusy(s: State, r: nat, t: nat, u: State)
    requires Ok(s) && r < |s.rqs| && s.rqs[r].tag.None? && t < |s.m.bits| && s.rqs[r].owner < |s.busy|
    requires u == Give(s, r, t)
    ensures BusyOk(u.rqs, u.busy)
  {
    var h := s.rqs[r].owner;
    forall k: nat, x: nat | k < |u.busy| ensures BusyAt(u.rqs, u.busy, k, x) {
      assert BusyAt(s.rqs, s.busy, k, x);
      assert multiset([r] + s.busy[h])[x] == multiset([r])[x] + multiset(s.busy[h])[x];
    }
  }

  lemma {:induction false} GiveOk(s: State, r: nat, t: nat, u: State)
    requires Ok(s) && r < |s.rqs| && s.rqs[r].tag.None? && t < |s.m.bits| && !s.m.bits[t] && s.rqs[r].owner < |s.busy|
    requires u == Give(s, r, t)
    ensures Ok(u)
  {
    GiveMap(s, r, t, u);
    GiveBusy(s, r, t, u);
  }

  /** A started request comes off its queue's dispatch list, where the others keep their
      order; no other queue's list changes. */
  lemma {:induction false} GiveLeavesList(s: State, r: nat, t: nat, u: State, k: nat, p: nat)
    requires r < |s.rqs| && t < |s.m.bits| == |s.m.index| && s.rqs[r].owner < |s.busy| == |s.queue|
    requires u == Give(s, r, t) && k < |s.queue| && p <= |s.queue[k]|
    requires (forall i :: 0 <= i < p ==> s.queue[k][i] != r) && (p < |s.queue[k]| ==> s.queue[k][p] == r)
    ensures u.queue[k] == if k == s.rqs[r].owner && p < |s.queue[k]| then s.queue[k][..p] + s.queue[k][p + 1..]
                          else s.queue[k]
  {
    if k == s.rqs[r].owner {
      if p < |s.queue[k]| { WithoutAt(s.queue[k], r, p); } else { WithoutAbsent(s.queue[k], r); }
    }
  }

  lemma {:induction false} EndMap(s: State, r: nat, t: nat, u: State)
    requires Ok(s) && r < |s.rqs| && s.rqs[r].tag == Some(t) && t < |s.m.bits| && s.rqs[r].owner < |s.busy|
    requires u == End(s, r)
    ensures MapOk(u.m, u.rqs) && RqsOk(u.m, u.rqs)
  {
    assert CarriesOk(s.m, s.rqs, r);
    forall i: nat | i < |u.m.bits| ensures SlotOk(u.m, u.rqs, i) { assert SlotOk(s.m, s.rqs, i); }
    forall x: nat | x < |u.rqs| ensures CarriesOk(u.m, u.rqs, x) { assert CarriesOk(s.m, s.rqs, x); }
  }

  lemma {:induction false} EndBusy(s: State, r: nat, t: nat, u: State)
    requires Ok(s) && r < |s.rqs| && s.rqs[r].tag == Some(t) && t < |s.m.bits| && s.rqs[r].owner < |s.busy|
    requires u == End(s, r)
    ensures BusyOk(u.rqs, u.busy)
  {
    forall k: nat, x: nat | k < |u.busy| ensures BusyAt(u.rqs, u.busy, k, x) {
      assert BusyAt(s.rqs, s.busy, k, x) && BusyAt(s.rqs, s.busy, k, r);
      WithoutCount(s.busy[k], r, x);
      InCount(s.busy[k], r);
    }
  }

  lemma {:induction false} EndOk(s: State, r: nat, t: nat, u: State)
    requires Ok(s) && r < |s.rqs| && s.rqs[r].tag == Some(t) && t < |s.m.bits| && s.rqs[r].owner < |s.busy|
    requires u == End(s, r)
    ensures Ok(u)
  {
    EndMap(s, r, t, u);
    EndBusy(s, r, t, u);
  }

  // ----- changing the depth -----

  datatype Resized = Done(m: Map) | Busy | NoMemory | Overrun

  /** init_tag_map never makes a map for more than twice nr_requests. */
  function Clamped(depth: nat, nrRequests: nat): nat { if depth > nrRequests * 2 then nrRequests * 2 else depth }

  function Blank<T>(x: T, n: nat): (r: seq<T>)
    ensures |r| == n && forall i :: 0 <= i < n ==> r[i] == x
  {
    seq(n, i => x)
  }

  /** blk_queue_resize_tags; the old map is copied whole, past the end of a new one
      that is smaller. */
  function Resize(m: Map, depth: nat, nrRequests: nat, memory: bool): Resized {
    if depth <= |m.bits| then Done(m.(max := depth))
    else if m.refs != 1 then Busy
    else if !memory then NoMemory
    else
      var d := Clamped(depth, nrRequests);
      if d < |m.bits| || d < |m.index| then Overrun
      else Done(m.(bits := m.bits + Blank(false, d - |m.bits|), index := m.index + Blank(None, d - |m.index|),
            max := d))
  }

  /** Resizing works exactly when the map need not grow, or is refused, or the clamp
      leaves it no smaller than it was; then every tag stays with its request. */
  lemma {:induction false} ResizeOk(s: State, depth: nat, nrRequests: nat, memory: bool)
    requires Ok(s)
    ensures Resize(s.m, depth, nrRequests, memory).Overrun? <==>
            depth > |s.m.bits| && s.m.refs == 1 && memory && nrRequests * 2 < |s.m.bits|
    ensures Resize(s.m, depth, nrRequests, memory).Done? ==>
              var m := Resize(s.m, depth, nrRequests, memory).m;
              Ok(s.(m := m)) && s.m.bits <= m.bits && s.m.index <= m.index
              && m.max == (if depth <= |s.m.bits| || depth <= 2 * nrRequests then depth else 2 * nrRequests)
              && |m.bits| == |m.index| == (if depth <= |s.m.bits| then |s.m.bits| else m.max) && m.refs == s.m.refs
    ensures Resize(s.m, depth, nrRequests, memory).Busy? <==> depth > |s.m.bits| && s.m.refs != 1
    ensures Resize(s.m, depth, nrRequests, memory).NoMemory? <==> depth > |s.m.bits| && s.m.refs == 1 && !memory
  {
    var z := Resize(s.m, depth, nrRequests, memory);
    if z.Done? {
      forall t: nat | t < |z.m.bits| ensures SlotOk(z.m, s.rqs, t) {
        if t < |s.m.bits| { assert SlotOk(s.m, s.rqs, t); }
      }
      forall r: nat | r < |s.rqs| ensures CarriesOk(z.m, s.rqs, r) { assert CarriesOk(s.m, s.rqs, r); }
    }
  }

  /** A queue's own map of nine tags, nr_requests then lowered to the least it may
      be, four, and a depth of ten asked for: the new map has eight. */
  lemma {:induction false} GrowMayOverrun() returns (s: State, depth: nat, nrRequests: nat)
    ensures Ok(s) && |s.queue| == |s.busy| == 1 && s.m.refs == 1 && nrRequests == 4
    ensures depth > |s.m.bits| && Clamped(depth, nrRequests) < |s.m.bits|
      && Resize(s.m, depth, nrRequests, true).Overrun?
  {
    s := State(Map(Blank(false, 9), Blank(None, 9), 9, 1), [], [[]], [[]]);
    depth, nrRequests := 10, 4;
    forall t: nat | t < |s.m.bits| ensures SlotOk(s.m, s.rqs, t) { }
    forall k: nat, r: nat | k < |s.busy| ensures BusyAt(s.rqs, s.busy, k, r) { assert s.busy[k] == []; }
    ResizeOk(s, depth, nrRequests, true);
  }

  // ----- invalidation -----

  /** blk_requeue_request: the tag is freed and the request goes to the head of its queue. */
  function Requeue(s: State, r: nat): State
    requires r < |s.rqs| && s.rqs[r].owner < |s.busy| == |s.queue| && s.rqs[r].tag.Some?
    requires s.rqs[r].tag.value < |s.m.bits| == |s.m.index|
  {
    var k := s.rqs[r].owner;
    End(s, r).(queue := s.queue[k := [r] + s.queue[k]])
  }

  /** What invalidating queue k leaves: its tags are free, its requests are at the
      head of its dispatch list, the one started first in front; nothing else changed. */
  ghost predicate Invalidated(s: State, k: nat, u: State)
    requires k < |s.busy| == |s.queue|
  {
    && |u.rqs| == |s.rqs| && |u.m.bits| == |s.m.bits| && u.m.max == s.m.max && u.m.refs == s.m.refs
    && (forall r: nat :: r < |s.rqs| ==> u.rqs[r] == if s.rqs[r].owner == k then s.rqs[r].(tag := None) else s.rqs[r])
    && u.busy == s.busy[k := []]
    && u.queue == s.queue[k := StartOrder(s, k) + s.queue[k]]
  }

  /** Part of the way: the first n entries of the list have been requeued. */
  ghost predicate Partly(s: State, k: nat, n: nat, u: State)
    requires k < |s.busy| == |s.queue| && n <= |s.busy[k]|
  {
    && |u.rqs| == |s.rqs| && |u.m.bits| == |s.m.bits| && u.m.max == s.m.max && u.m.refs == s.m.refs
    && (forall r: nat :: r < |s.rqs| ==> u.rqs[r] == if r in s.busy[k][..n] then s.rqs[r].(tag := None) else s.rqs[r])
    && u.busy == s.busy[k := s.busy[k][n..]]
    && u.queue == s.queue[k := Reversed(s.busy[k][..n]) + s.queue[k]]
  }

  lemma {:induction false} ReversedSnoc(l: seq<nat>, x: nat)
    ensures Reversed(l + [x]) == [x] + Reversed(l)
  {
    if l != [] {
      assert (l + [x])[1..] == l[1..] + [x];
      ReversedSnoc(l[1..], x);
    }
  }

  /** The tagged requests of a queue in the order they were started. */
  function StartOrder(s: State, k: nat): seq<nat>
    requires k < |s.busy|
  {
    Reversed(s.busy[k])
  }

  lemma {:induction false} WithoutSnoc(l: seq<nat>, x: nat, r: nat)
    ensures Without(l + [x], r) == if r in l then Without(l, r) + [x] else if x == r then l else l + [x]
  {
    if l != [] {
      assert (l + [x])[1..] == l[1..] + [x];
      if l[0] != r { WithoutSnoc(l[1..], x, r); }
    }
  }

  lemma {:induction false} ReversedWithout(l: seq<nat>, r: nat)
    requires multiset(l)[r] <= 1
    ensures Reversed(Without(l, r)) == Without(Reversed(l), r)
  {
    if l != [] {
      assert l == [l[0]] + l[1..];
      InCount(l[1..], r);
      WithoutSnoc(Reversed(l[1..]), l[0], r);
      if l[0] != r {
        ReversedWithout(l[1..], r);
        if r !in l[1..] { WithoutAbsent(l[1..], r); }
      }
    }
  }

  /** A request that gets a tag goes to the end of that order; one that ends leaves
      it and the others stay as they are. */
  lemma {:induction false} OrderKept(s: State, r: nat, t: nat, k: nat)
    requires Ok(s) && r < |s.rqs| && t < |s.m.bits| && k == s.rqs[r].owner
    requires s.rqs[r].tag == None || s.rqs[r].tag == Some(t)
    ensures k < |s.busy|
    ensures s.rqs[r].tag == None ==> StartOrder(Give(s, r, t), k) == StartOrder(s, k) + [r]
    ensures s.rqs[r].tag == Some(t) ==> StartOrder(End(s, r), k) == Without(StartOrder(s, k), r)
  {
    assert s.rqs[r].owner < |s.busy|;
    assert BusyAt(s.rqs, s.busy, k, r);
    ReversedWithout(s.busy[k], r);
    assert ([r] + s.busy[k])[1..] == s.busy[k];
  }

  lemma {:induction false} BusyMember(s: State, k: nat, i: nat)
    requires Ok(s) && k < |s.busy| && i < |s.busy[k]|
    ensures Tagged(s.rqs, k, s.busy[k][i]) && s.rqs[s.busy[k][i]].tag.value < |s.m.bits|
  {
    var r := s.busy[k][i];
    assert BusyAt(s.rqs, s.busy, k, r);
    InCount(s.busy[k], r);
    assert CarriesOk(s.m, s.rqs, r);
  }

  lemma {:induction false} PartlyNext(s: State, k: nat, n: nat, u: State, r: nat, v: State)
    requires k < |s.busy| == |s.queue| && n < |s.busy[k]| && Ok(u) && Partly(s, k, n, u) && r == s.busy[k][n]
    requires Tagged(u.rqs, k, r) && u.rqs[r].tag.value < |u.m.bits| == |u.m.index| && v == Requeue(u, r)
    ensures Partly(s, k, n + 1, v)
  {
    var l := s.busy[k];
    assert l[..n + 1] == l[..n] + [r];
    assert l[n..] == [r] + l[n + 1..];
    ReversedSnoc(l[..n], r);
    assert [r] + (Reversed(l[..n]) + s.queue[k]) == Reversed(l[..n + 1]) + s.queue[k];
  }

  lemma {:induction false} PartlyDone(s: State, k: nat, u: State)
    requires Ok(s) && k < |s.busy| && Partly(s, k, |s.busy[k]|, u)
    ensures Invalidated(s, k, u)
  {
    var l := s.busy[k];
    assert l[..|l|] == l && l[|l|..] == [];
    forall r: nat ensures r in l <==> Tagged(s.rqs, k, r) {
      assert BusyAt(s.rqs, s.busy, k, r);
      InCount(l, r);
    }
  }

  /** Tag t is held by a request of queue k. */
  predicate HeldBy(m: Map, rqs: seq<Rq>, k: nat, t: nat) {
    t < |m.index| && m.index[t].Some? && m.index[t].value < |rqs| && rqs[m.index[t].value].owner == k
  }

  /** Invalidation frees the tags of the queue and leaves those of the others. */
  lemma {:induction false} TagsFreed(s: State, k: nat, u: State, t: nat)
    requires Ok(s) && Ok(u) && k < |s.busy| && Invalidated(s, k, u) && t < |u.m.bits|
    ensures HeldBy(s.m, s.rqs, k, t) ==> !u.m.bits[t]
    ensures !HeldBy(s.m, s.rqs, k, t) ==> u.m.bits[t] == s.m.bits[t] && u.m.index[t] == s.m.index[t]
  {
    assert SlotOk(s.m, s.rqs, t) && SlotOk(u.m, u.rqs, t);
    if s.m.bits[t] {
      assert CarriesOk(u.m, u.rqs, s.m.index[t].value);
    }
    if u.m.bits[t] {
      assert CarriesOk(s.m, s.rqs, u.m.index[t].value);
    }
  }

  /** The queues that share a tag map, changed in place. */
  class TagQueues {
    var tagMap: array<bool>
    var tagIndex: array<Option<nat>>
    var max: nat
    var refs: nat
    var rqs: seq<Rq>
    var busy: seq<seq<nat>>
    var queue: seq<seq<nat>>

    /** A map of that depth for queues whose dispatch lists hold untagged requests. */
    constructor (depth: nat, refs: nat, rqs: seq<Rq>, queue: seq<seq<nat>>)
      requires forall r: nat :: r < |rqs| ==> rqs[r].tag.None? && rqs[r].owner < |queue|
      ensures Ok(View()) && this.rqs == rqs && this.queue == queue && this.refs == refs && max == depth
      ensures fresh(tagMap) && fresh(tagIndex) && tagMap.Length == depth
      ensures forall t :: 0 <= t < depth ==> !tagMap[t]
    {
      tagMap := new bool[depth](i => false);
      tagIndex := new Option<nat>[depth](i => None);
      max, this.refs, this.rqs, this.queue := depth, refs, rqs, queue;
      busy := Blank([], |queue|);
      new;
      assert forall t: nat :: t < depth ==> SlotOk(View().m, rqs, t);
      assert forall r: nat :: r < |rqs| ==> CarriesOk(View().m, rqs, r);
      forall k: nat, r: nat | k < |busy| ensures BusyAt(rqs, busy, k, r) { assert busy[k] == []; }
    }

    function View(): State
      reads this, tagMap, tagIndex
    {
      State(Map(tagMap[..], tagIndex[..], max, refs), rqs, busy, queue)
    }

    /** blk_queue_start_tag: the request gets the least free tag that it may use, and
        is refused exactly when there is none or too many are in flight. */
    method StartTag(r: nat, sync: bool, inFlight: nat) returns (refused: bool)
      requires Ok(View()) && r < |rqs| && rqs[r].tag.None?
      modifies this, tagMap, tagIndex
      ensures tagMap == old(tagMap) && tagIndex == old(tagIndex)
      ensures refused == old(Choice(View().m, sync, inFlight)).None?
      ensures refused ==> View() == old(View())
      ensures !refused ==> Ok(View()) && View() == Give(old(View()), r, old(Choice(View().m, sync, inFlight)).value)
    {
      assert rqs[r].owner < |busy|;
      var n := Limit(max, sync);
      if !sync && max > 1 && inFlight > n { return true; }
      var t: nat := FindFirstZero(n);
      assert tagMap[..][..n] == tagMap[..n];
      assert FirstFree(tagMap[..], n) == t;
      if t >= n { return true; }
      GiveOk(View(), r, t, Give(View(), r, t));
      Assign(r, t);
      refused := false;
    }

    /** find_first_zero_bit. */
    method FindFirstZero(n: nat) returns (t: nat)
      requires n <= tagMap.Length
      ensures t <= n && (t < n ==> !tagMap[t]) && forall i :: 0 <= i < t ==> tagMap[i]
    {
      t := 0;
      while t < n && tagMap[t]
        invariant t <= n && forall i :: 0 <= i < t ==> tagMap[i]
      {
        t := t + 1;
      }
    }

    method Assign(r: nat, t: nat)
      requires r < |rqs| && t < tagMap.Length == tagIndex.Length && rqs[r].owner < |busy| == |queue|
      modifies this`rqs, this`busy, this`queue, tagMap, tagIndex
      ensures View() == Give(old(View()), r, t)
    {
      var k := rqs[r].owner;
      tagMap[t] := true;
      rqs := rqs[r := rqs[r].(tag := Some(t))];
      tagIndex[t] := Some(r);
      queue := queue[k := Without(queue[k], r)];
      busy := busy[k := [r] + busy[k]];
    }

    /** blk_queue_end_tag. */
    method EndTag(r: nat)
      requires r < |rqs| && rqs[r].owner < |busy| && rqs[r].tag.Some?
      requires rqs[r].tag.value < tagMap.Length == tagIndex.Length
      modifies this`rqs, this`busy, tagMap, tagIndex
      ensures View() == End(old(View()), r)
    {
      var k, t := rqs[r].owner, rqs[r].tag.value;
      busy := busy[k := Without(busy[k], r)];
      rqs := rqs[r := rqs[r].(tag := None)];
      tagIndex[t] := None;
      if !tagMap[t] { return; }
      tagMap[t] := false;
    }

    /** blk_queue_resize_tags. Where the copy would not fit it does not happen here,
        and nothing is said of what the source leaves. */
    method ResizeTags(depth: nat, nrRequests: nat, memory: bool) returns (z: Resized)
      requires Ok(View())
      modifies this`tagMap, this`tagIndex, this`max
      ensures z == Resize(old(View()).m, depth, nrRequests, memory)
      ensures !z.Overrun? ==> Ok(View()) && View() == if z.Done? then old(View()).(m := z.m) else old(View())
    {
      z := Resize(View().m, depth, nrRequests, memory);
      ResizeOk(View(), depth, nrRequests, memory);
      if depth <= tagMap.Length {
        max := depth;
        return;
      }
      if refs != 1 || !memory { return; }
      var d := Clamped(depth, nrRequests);
      if d < tagMap.Length { return; }
      Replace(d);
    }

    /** New arrays of d entries that start with the old ones. */
    method Replace(d: nat)
      requires tagMap.Length <= d && tagIndex.Length <= d
      modifies this`tagMap, this`tagIndex, this`max
      ensures tagMap[..] == old(tagMap[..]) + Blank(false, d - old(tagMap.Length)) && max == d
      ensures tagIndex[..] == old(tagIndex[..]) + Blank(None, d - old(tagIndex.Length))
    {
      var bits, index := tagMap, tagIndex;
      tagMap := new bool[d](i requires 0 <= i reads bits => if i < bits.Length then bits[i] else false);
      tagIndex := new Option<nat>[d](i requires 0 <= i reads index => if i < index.Length then index[i] else None);
      max := d;
    }

    /** blk_requeue_request of a tagged request. */
    method RequeueRequest(r: nat)
      requires r < |rqs| && rqs[r].owner < |busy| == |queue| && rqs[r].tag.Some?
      requires rqs[r].tag.value < tagMap.Length == tagIndex.Length
      modifies this`rqs, this`busy, this`queue, tagMap, tagIndex
      ensures View() == Requeue(old(View()), r)
    {
      var k := rqs[r].owner;
      EndTag(r);
      queue := queue[k := [r] + queue[k]];
    }

    /** blk_queue_invalidate_tags. */
    method InvalidateTags(k: nat)
      requires Ok(View()) && k < |busy|
      modifies this`rqs, this`busy, this`queue, tagMap, tagIndex
      ensures Ok(View()) && Invalidated(old(View()), k, View())
    {
      ghost var s, n := View(), 0;
      assert s.busy[k][..0] == [] && s.busy[k][0..] == s.busy[k];
      assert [] + s.queue[k] == s.queue[k];
      while busy[k] != []
        invariant Ok(View()) && |busy| == |s.busy| && n <= |s.busy[k]| && Partly(s, k, n, View())
        decreases |busy[k]|
      {
        var r := busy[k][0];
        BusyMember(View(), k, 0);
        ghost var u := View();
        RequeueStep(s, k, n, u, r);
        RequeueRequest(r);
        n := n + 1;
      }
      PartlyDone(s, k, View());
    }
  }

  lemma {:induction false} RequeueStep(s: State, k: nat, n: nat, u: State, r: nat)
    requires k < |s.busy| == |s.queue| && n < |s.busy[k]| && Ok(u) && Partly(s, k, n, u) && r == s.busy[k][n]
    requires Tagged(u.rqs, k, r) && u.rqs[r].tag.value < |u.m.bits| == |u.m.index|
    ensures Ok(Requeue(u, r)) && Partly(s, k, n + 1, Requeue(u, r))
  {
    EndOk(u, r, u.rqs[r].tag.value, End(u, r));
    PartlyNext(s, k, n, u, r, Requeue(u, r));
  }
}
