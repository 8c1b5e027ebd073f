/** The deadline scheduler in place: the operations of block/deadline-iosched.c on
    their lists, and the drain of block/elevator.c that runs it empty. */
module DeadlineQueue {

  import opened ServiceTree
  import opened Options
  import opened Deadline
  import opened DeadlineRun

  /** elv_rb_add: the descent goes right past every sector that is not larger. */
  method RbAdd(sort: seq<Node>, id: nat, pos: nat) returns (r: seq<Node>)
    ensures r == AddSort(sort, id, pos)
  {
    var p := 0;
    while p < |sort| && sort[p].key <= pos
      invariant p <= |sort| && p + Place(sort[p..], pos) == Place(sort, pos)
    {
      p := p + 1;
    }
    r := sort[..p] + [Node(id, pos)] + sort[p..];
  }

  /** Where a request is on a list. */
  method FindIndex(l: seq<Node>, id: nat) returns (p: nat)
    ensures p == IndexOf(l, id)
  {
    p := 0;
    while p < |l| && l[p].id != id
      invariant p <= |l| && p + IndexOf(l[p..], id) == IndexOf(l, id)
    {
      p := p + 1;
    }
  }

  /** elv_rb_del, or list_del_init on the fifo. */
  method RbDel(l: seq<Node>, id: nat) returns (r: seq<Node>)
    ensures r == Drop(l, id)
  {
    var p := FindIndex(l, id);
    r := if p < |l| then l[..p] + l[p + 1..] else l;
  }

  /** The reordering in deadline_merged_requests: list_move puts rq right behind
      other, with its expiry, when other expires earlier. */
  method MoveBehind(fifo: seq<Node>, rq: nat, other: nat) returns (r: seq<Node>)
    requires IndexOf(fifo, rq) < |fifo| && IndexOf(fifo, other) < |fifo|
    ensures r == Hurried(fifo, rq, other)
  {
    var p := FindIndex(fifo, rq);
    var q := FindIndex(fifo, other);
    if fifo[q].key < fifo[p].key { r := Relocate(fifo, rq, other, fifo[q].key); } else { r := fifo; }
  }

  method Relocate(fifo: seq<Node>, rq: nat, other: nat, key: nat) returns (r: seq<Node>)
    requires IndexOf(fifo, other) < |fifo| && key == fifo[IndexOf(fifo, other)].key
    ensures r == Behind(fifo, rq, other)
  {
    var l := RbDel(fifo, rq);
    r := PutBehind(l, Node(rq, key), other);
  }

  method PutBehind(l: seq<Node>, n: Node, other: nat) returns (r: seq<Node>)
    ensures r == if IndexOf(l, other) < |l| then Insert(l, IndexOf(l, other) + 1, n) else l
  {
    var k := FindIndex(l, other);
    r := if k < |l| then l[..k + 1] + [n] + l[k + 1..] else l;
  }

  /** deadline_remove_request: off the fifo and the tree; next_rq moves on. */
  method RemoveSide(s: Side, id: nat) returns (t: Side)
    ensures t == RemoveRequest(s, id)
  {
    var fifo := RbDel(s.fifo, id);
    var next := s.next;
    if next == Some(id) {
      var at := FindIndex(s.sort, id);
      next := if at + 1 < |s.sort| then Some(s.sort[at + 1].id) else None;
    }
    var sort := RbDel(s.sort, id);
    t := Side(fifo, sort, next);
  }

  class DeadlineData {
    const c: Config
    var rd: Side
    var wr: Side
    var batching: nat
    var starved: nat
    var now: nat
    /** nr_sorted and queue_head of the request queue. */
    var nr: int
    var out: seq<nat>

    constructor (c: Config)
      ensures this.c == c && View() == START && Valid()
    {
      this.c := c;
      rd, wr, batching, starved, now, nr, out := NO_SIDE, NO_SIDE, 0, 0, 0, 0, [];
      new;
      StartOk(c);
    }

    function View(): Queue reads this { Queue(now, Data(rd, wr, batching, starved), nr, out) }

    ghost predicate Valid() reads this { Inv(c, View()) }

    method Wait(ticks: nat)
      requires Valid()
      modifies this`now
      ensures Valid() && View() == Next(c, old(View()), Tick(ticks))
    {
      now := now + ticks;
      NextKeeps(c, old(View()), Tick(ticks));
    }

    method StoreSide(dir: Dir, s: Side)
      modifies this`rd, this`wr
      ensures View() == old(View()).(d := old(View()).d.With(dir, s))
    {
      if dir == Read { rd := s; } else { wr := s; }
    }

    /** __elv_add_request for a sorted insert, and deadline_add_request. */
    method Insert(dir: Dir, id: nat, pos: nat)
      requires Valid() && Enabled(View(), Add(dir, id, pos))
      modifies this
      ensures Valid() && View() == Next(c, old(View()), Add(dir, id, pos))
    {
      var s := if dir == Read then rd else wr;
      nr := nr + 1;
      var sort := RbAdd(s.sort, id, pos);
      var fifo := s.fifo + [Node(id, now + c.Expire(dir))];
      AddFacts(c, old(View()), dir, id, pos, Side(fifo, sort, s.next));
      StoreSide(dir, Side(fifo, sort, s.next));
    }

    /** deadline_merged_request after a front merge: the request leaves the tree and
        comes back under its new sector. */
    method MergeFront(dir: Dir, id: nat, pos: nat)
      requires Valid() && Enabled(View(), Front(dir, id, pos))
      modifies this
      ensures Valid() && View() == Next(c, old(View()), Front(dir, id, pos))
    {
      var s := if dir == Read then rd else wr;
      var sort := RbDel(s.sort, id);
      sort := RbAdd(sort, id, pos);
      FrontFacts(c, View(), dir, id, pos, s.(sort := sort));
      StoreSide(dir, s.(sort := sort));
    }

    /** elv_merge_requests and deadline_merged_requests: the fifo is reordered when
        the absorbed request expires earlier, and the absorbed one leaves both indexes. */
    method MergeRequests(dir: Dir, rq: nat, other: nat)
      requires Valid() && Enabled(View(), Merge(dir, rq, other))
      modifies this
      ensures Valid() && View() == Next(c, old(View()), Merge(dir, rq, other))
    {
      var s := if dir == Read then rd else wr;
      MemberIndex(s.fifo, rq);
      MemberIndex(s.fifo, other);
      var fifo := MoveBehind(s.fifo, rq, other);
      var t := RemoveSide(s.(fifo := fifo), other);
      MergeFacts(c, View(), dir, rq, other, t);
      StoreSide(dir, t);
      nr := nr - 1;
    }

    /** deadline_move_request and elv_dispatch_add_tail. */
    method MoveRequest(dir: Dir, id: nat)
      modifies this`rd, this`wr, this`nr, this`out
      ensures View() == old(View()).(d := Move(old(View()).d, Go(dir, id, batching, starved, false)),
                                     nr := old(nr) - 1, out := old(out) + [id])
    {
      var s := if dir == Read then rd else wr;
      rd, wr := rd.(next := None), wr.(next := None);
      var at := FindIndex(s.sort, id);
      var latter := if at + 1 < |s.sort| then Some(s.sort[at + 1].id) else None;
      s := RemoveSide(s.(next := latter), id);
      StoreSide(dir, s);
      nr := nr - 1;
      out := out + [id];
    }

    /** deadline_dispatch_requests up to dispatch_request, the checks for an empty
        tree included. */
    method PickRequest() returns (found: bool, dir: Dir, id: nat)
      requires (rd.fifo != [] ==> rd.sort != []) && (wr.fifo != [] ==> wr.sort != [])
      modifies this`batching, this`starved
      ensures found == Choose(c, now, old(View()).d).Go?
      ensures found ==> dir == Choose(c, now, old(View()).d).dir && id == Choose(c, now, old(View()).d).id
      ensures found ==> batching == Choose(c, now, old(View()).d).batching
      ensures found ==> starved == Choose(c, now, old(View()).d).starved
      ensures !found ==> unchanged(this)
    {
      var reading, writing := rd.fifo != [], wr.fifo != [];
      dir := if wr.next.Some? then Write else Read;
      var rq := if wr.next.Some? then wr.next else rd.next;
      if rq.None? || batching >= c.batch {
        if reading { assert rd.sort != []; }
        if reading && !(writing && starved >= c.starve) {
          dir := Read;
          starved := if writing then starved + 1 else starved;
        } else if writing {
          assert wr.sort != [];
          starved := 0;
          dir := Write;
        } else {
          return false, dir, 0;
        }
        rq := Some(Find(if dir == Read then rd else wr, now));
        batching := 0;
      }
      batching := batching + 1;
      found, id := true, rq.value;
    }

    /** deadline_dispatch_requests. */
    method DispatchRequests() returns (n: int)
      requires Valid()
      modifies this
      ensures Valid() && View() == Next(c, old(View()), Dispatch)
      ensures n == if old(rd).fifo == [] && old(wr).fifo == [] then 0 else 1
    {
      DispatchFacts(c, View(), Next(c, View(), Dispatch));
      n := DispatchOne();
    }

    method DispatchOne() returns (n: int)
      requires (rd.fifo != [] ==> rd.sort != []) && (wr.fifo != [] ==> wr.sort != [])
      modifies this
      ensures View() == Next(c, old(View()), Dispatch)
      ensures n == if Choose(c, old(now), old(View()).d).Nothing? then 0 else 1
    {
      var found, dir, id := PickRequest();
      if !found { return 0; }
      MoveRequest(dir, id);
      n := 1;
    }

    /** elv_drain_elevator: everything held goes to the dispatch list, each request
        once, and nr_sorted ends at zero. */
    method DrainElevator()
      requires Valid()
      modifies this
      ensures Valid() && nr == 0 && rd.fifo == [] && wr.fifo == []
      ensures old(out) <= out && |out| == |old(out)| + old(nr)
      ensures forall id: nat :: id in out[|old(out)|..] <==> old(Queued(View().d, id))
    {
      var n := 1;
      while n != 0
        invariant Valid() && Drained(old(View()), View()) && 0 <= n <= 1
        invariant n == 0 ==> nr == 0 && rd.fifo == [] && wr.fifo == []
        decreases nr + n
      {
        ghost var q := View();
        DrainStep(c, old(View()), q);
        n := DispatchRequests();
      }
      NothingQueued(View().d);
    }
  }

  lemma {:induction false} DispatchFacts(c: Config, q: Queue, t: Queue)
    requires Inv(c, q) && t == Next(c, q, Dispatch)
    ensures Inv(c, t)
    ensures Choose(c, q.now, q.d).Nothing? <==> q.d.rd.fifo == [] && q.d.wr.fifo == []
    ensures (q.d.rd.fifo != [] ==> q.d.rd.sort != []) && (q.d.wr.fifo != [] ==> q.d.wr.sort != [])
  {
    ChooseOk(c, q.now, q.d);
    NextKeeps(c, q, Dispatch);
  }

  lemma {:induction false} AddFacts(c: Config, q: Queue, dir: Dir, id: nat, pos: nat, s: Side)
    requires Inv(c, q) && Enabled(q, Add(dir, id, pos))
    requires s == AddRequest(q.d.Of(dir), id, pos, q.now + c.Expire(dir))
    ensures Inv(c, Next(c, q, Add(dir, id, pos)))
    ensures Next(c, q, Add(dir, id, pos)) == q.(d := q.d.With(dir, s), nr := q.nr + 1)
  {
    NextKeeps(c, q, Add(dir, id, pos));
  }

  lemma {:induction false} FrontFacts(c: Config, q: Queue, dir: Dir, id: nat, pos: nat, s: Side)
    requires Inv(c, q) && Enabled(q, Front(dir, id, pos)) && s == FrontMerged(q.d.Of(dir), id, pos)
    ensures Inv(c, Next(c, q, Front(dir, id, pos)))
    ensures Next(c, q, Front(dir, id, pos)) == q.(d := q.d.With(dir, s))
  {
    NextKeeps(c, q, Front(dir, id, pos));
  }

  lemma {:induction false} MergeFacts(c: Config, q: Queue, dir: Dir, rq: nat, other: nat, s: Side)
    requires Inv(c, q) && Enabled(q, Merge(dir, rq, other)) && s == MergedRequests(q.d.Of(dir), rq, other)
    ensures Inv(c, Next(c, q, Merge(dir, rq, other)))
    ensures Next(c, q, Merge(dir, rq, other)) == q.(d := q.d.With(dir, s), nr := q.nr - 1)
  {
    NextKeeps(c, q, Merge(dir, rq, other));
  }

  /** What is held or on the new part of the dispatch list is what was held. */
  ghost predicate Drained(q0: Queue, q: Queue) {
    && q0.out <= q.out && |q.out| + q.nr == |q0.out| + q0.nr
    && forall id: nat :: Queued(q0.d, id) <==> Queued(q.d, id) || id in q.out[|q0.out|..]
  }

  lemma {:induction false} DrainStep(c: Config, q0: Queue, q: Queue)
    requires Inv(c, q) && Drained(q0, q)
    ensures Drained(q0, Next(c, q, Dispatch))
  {
    var g := Choose(c, q.now, q.d);
    ChooseOk(c, q.now, q.d);
    if g.Go? {
      MoveApart(c, q.now, q.d, g);
      var n := |q0.out|;
      assert (q.out + [g.id])[n..] == q.out[n..] + [g.id];
      assert Queued(q.d, g.id);
    }
  }

  lemma NothingQueued(d: Data)
    requires d.rd.fifo == [] && d.wr.fifo == []
    ensures forall id: nat :: !Queued(d, id)
  {
  }
}
