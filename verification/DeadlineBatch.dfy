/** The order of the deadline scheduler's batches: requests go in ascending sector order
    and none that was ahead is passed over; how long a batch goes on; and which
    direction and which request starts the next. */
module DeadlineBatch {

  import opened ServiceTree
  import opened Options
  import opened Deadline
  import opened DeadlineRun
  import opened DeadlineWaiting

  // ----- the next request -----

  /** No request of the tree comes between the one that went, at sector x, and the next
      one; there is a next one exactly if some request follows in the tree. */
  lemma {:induction false} NextAfter(l: seq<Node>, id: nat, x: nat, n: Option<nat>)
    requires ListOk(l) && Member(l, id) && x == KeyOf(l, id) && n == Latter(l, id)
    ensures n.None? ==> forall y: nat :: Member(l, y) ==> KeyOf(l, y) <= x
    ensures n.Some? ==> Member(Drop(l, id), n.value) && x <= KeyOf(l, n.value)
    ensures n.Some? ==> forall y: nat :: Member(l, y) && x < KeyOf(l, y) ==> KeyOf(l, n.value) <= KeyOf(l, y)
    ensures (exists y: nat :: Member(l, y) && x < KeyOf(l, y)) ==> n.Some?
  {
    var p := IndexOf(l, id);
    MemberIndex(l, id);
    forall y: nat | Member(l, y) ensures IndexOf(l, y) < |l| && (x < KeyOf(l, y) ==> p < IndexOf(l, y)) {
      MemberIndex(l, y);
    }
    if n.Some? {
      IndexIs(l, p + 1);
      IndexMember(l, n.value);
      DropOk(l, id, n.value);
    }
  }

  /** The request after a dispatch: request y of the direction is not before the next one. */
  predicate NotPassed(s: Side, y: nat) {
    Member(s.sort, y) && s.next.Some? && IndexOf(s.sort, s.next.value) <= IndexOf(s.sort, y)
  }

  lemma {:induction false} DropIndex(l: seq<Node>, gone: nat, a: nat, b: nat)
    requires Distinct(l) && Member(l, gone) && Member(l, a) && Member(l, b) && a != gone && b != gone
    ensures IndexOf(l, a) <= IndexOf(l, b) <==> IndexOf(Drop(l, gone), a) <= IndexOf(Drop(l, gone), b)
  {
    DropKey(l, gone, a);
    DropKey(l, gone, b);
    MemberIndex(l, gone);
  }

  lemma {:induction false} AddIndex(l: seq<Node>, p: nat, n: Node, a: nat)
    requires Distinct(l) && p <= |l| && !Member(l, n.id) && Member(l, a)
    ensures Distinct(Insert(l, p, n)) && Member(Insert(l, p, n), a)
    ensures IndexOf(Insert(l, p, n), a) == if IndexOf(l, a) < p then IndexOf(l, a) else IndexOf(l, a) + 1
    ensures KeyOf(Insert(l, p, n), a) == KeyOf(l, a)
  {
    MemberIndex(l, a);
    var r := Insert(l, p, n);
    var k := if IndexOf(l, a) < p then IndexOf(l, a) else IndexOf(l, a) + 1;
    assert r[k] == l[IndexOf(l, a)];
    AddDistinct(l, p, n, r);
    IndexIs(r, k);
    InsertMember(l, p, n, a);
  }

  lemma {:induction false} AddDistinct(l: seq<Node>, p: nat, n: Node, r: seq<Node>)
    requires Distinct(l) && p <= |l| && !Member(l, n.id) && r == Insert(l, p, n)
    ensures Distinct(r)
  {
    forall i, j | 0 <= i < j < |r| ensures r[i].id != r[j].id {
      if i == p || j == p { assert forall k :: 0 <= k < |l| ==> l[k].id != n.id; }
    }
  }

  lemma {:induction false} NewIndex(l: seq<Node>, p: nat, n: Node)
    requires Distinct(l) && p <= |l| && !Member(l, n.id)
    ensures IndexOf(Insert(l, p, n), n.id) == p && Member(Insert(l, p, n), n.id)
  {
    var r := Insert(l, p, n);
    AddDistinct(l, p, n, r);
    assert r[p] == n;
    IndexIs(r, p);
    InsertMember(l, p, n, n.id);
  }

  /** The dispatch itself passes nobody that is further on. */
  lemma {:induction false} MovedNotPassed(s: Side, id: nat, x: nat, y: nat)
    requires SideOk(s) && Member(s.sort, id) && Member(s.sort, y) && x == KeyOf(s.sort, id) < KeyOf(s.sort, y)
    ensures NotPassed(Moved(s, id), y)
  {
    var l, n := s.sort, Latter(s.sort, id);
    NextAfter(l, id, x, n);
    MemberIndex(l, id);
    MemberIndex(l, y);
    DropOk(l, id, y);
    var p := IndexOf(l, id);
    IndexIs(l, p + 1);
    DropKey(l, id, y);
    DropKey(l, id, n.value);
  }

  lemma {:induction false} AddNotPassed(s: Side, id: nat, pos: nat, expire: nat, y: nat)
    requires SideOk(s) && !Member(s.fifo, id) && NotPassed(s, y)
    ensures NotPassed(AddRequest(s, id, pos, expire), y)
  {
    AddIndex(s.sort, Place(s.sort, pos), Node(id, pos), y);
    AddIndex(s.sort, Place(s.sort, pos), Node(id, pos), s.next.value);
  }

  lemma {:induction false} PlaceBefore(l: seq<Node>, pos: nat, k: nat)
    requires Sorted(l) && k < |l| && pos < l[k].key
    ensures Place(l, pos) <= k
  {
  }

  /** A front merge makes its request start earlier. */
  lemma {:induction false} FrontNotPassed(s: Side, id: nat, pos: nat, y: nat)
    requires SideOk(s) && Member(s.fifo, id) && NotPassed(s, y) && y != id && pos < KeyOf(s.sort, id)
    ensures NotPassed(FrontMerged(s, id, pos), y)
  {
    var b, l := s.next.value, Drop(s.sort, id);
    DropOk(s.sort, id, id);
    DropOk(s.sort, id, y);
    AddIndex(l, Place(l, pos), Node(id, pos), y);
    if b == id {
      DropKey(s.sort, id, y);
      MemberIndex(s.sort, id);
      MemberIndex(s.sort, y);
      PlaceBefore(l, pos, IndexOf(l, y));
      NewIndex(l, Place(l, pos), Node(id, pos));
    } else {
      DropOk(s.sort, id, b);
      DropIndex(s.sort, id, b, y);
      AddIndex(l, Place(l, pos), Node(id, pos), b);
    }
  }

  lemma {:induction false} LatterNotPassed(l: seq<Node>, other: nat, y: nat)
    requires ListOk(l) && Member(l, other) && Member(l, y) && y != other && IndexOf(l, other) <= IndexOf(l, y)
    ensures Latter(l, other).Some? && IndexOf(Drop(l, other), Latter(l, other).value) <= IndexOf(Drop(l, other), y)
  {
    var p := IndexOf(l, other);
    MemberIndex(l, other);
    MemberIndex(l, y);
    IndexIs(l, p + 1);
    IndexMember(l, l[p + 1].id);
    DropKey(l, other, y);
    DropKey(l, other, l[p + 1].id);
  }

  lemma {:induction false} MergeNotPassed(s: Side, rq: nat, other: nat, y: nat)
    requires SideOk(s) && Member(s.fifo, rq) && Member(s.fifo, other) && NotPassed(s, y) && y != other
    ensures NotPassed(MergedRequests(s, rq, other), y)
  {
    var b, l := s.next.value, s.sort;
    MemberIndex(l, other);
    MemberIndex(l, y);
    DropOk(l, other, y);
    if b == other {
      LatterNotPassed(l, other, y);
    } else {
      DropIndex(l, other, b, y);
    }
  }

  /** The next request, if there is one, starts at sector x or later. */
  predicate NotBelow(s: Side, x: nat) {
    s.next.Some? ==> Member(s.sort, s.next.value) && x <= KeyOf(s.sort, s.next.value)
  }

  lemma {:induction false} MovedNotBelow(s: Side, id: nat, x: nat)
    requires SideOk(s) && Member(s.sort, id) && x == KeyOf(s.sort, id)
    ensures NotBelow(Moved(s, id), x)
  {
    var n := Latter(s.sort, id);
    NextAfter(s.sort, id, x, n);
    if n.Some? {
      LatterMember(s.sort, id);
      DropKey(s.sort, id, n.value);
    }
  }

  lemma {:induction false} AddNotBelow(s: Side, id: nat, pos: nat, expire: nat, x: nat)
    requires SideOk(s) && !Member(s.fifo, id) && NotBelow(s, x)
    ensures NotBelow(AddRequest(s, id, pos, expire), x)
  {
    if s.next.Some? { AddIndex(s.sort, Place(s.sort, pos), Node(id, pos), s.next.value); }
  }

  lemma {:induction false} FrontNotBelow(s: Side, id: nat, pos: nat, x: nat)
    requires SideOk(s) && Member(s.fifo, id) && NotBelow(s, x) && (s.next == Some(id) ==> x <= pos)
    ensures NotBelow(FrontMerged(s, id, pos), x)
  {
    var l := Drop(s.sort, id);
    DropOk(s.sort, id, id);
    if s.next == Some(id) {
      NewIndex(l, Place(l, pos), Node(id, pos));
    } else if s.next.Some? {
      DropKey(s.sort, id, s.next.value);
      AddIndex(l, Place(l, pos), Node(id, pos), s.next.value);
    }
  }

  lemma {:induction false} MergeNotBelow(s: Side, rq: nat, other: nat, x: nat)
    requires SideOk(s) && Member(s.fifo, rq) && Member(s.fifo, other) && NotBelow(s, x)
    ensures NotBelow(MergedRequests(s, rq, other), x)
  {
    var l := s.sort;
    if s.next == Some(other) {
      var n := Latter(l, other);
      NextAfter(l, other, KeyOf(l, other), n);
      if n.Some? {
        LatterMember(l, other);
        DropKey(l, other, n.value);
      }
    } else if s.next.Some? {
      DropKey(l, other, s.next.value);
    }
  }

  // ----- between two dispatches -----

  /** A front merge is of a bio that ends where the request starts. */
  predicate Lowers(q: Queue, e: Event) {
    e.Front? ==> Member(q.d.Of(e.dir).sort, e.id) && e.pos < KeyOf(q.d.Of(e.dir).sort, e.id)
  }

  /** Requests come, merge and time passes, but none is dispatched. */
  predicate Pause(c: Config, q: Queue, es: seq<Event>)
    requires IsRun(c, q, es)
    decreases |es|
  {
    es == [] || (!es[0].Dispatch? && Lowers(q, es[0]) && Pause(c, Next(c, q, es[0]), es[1..]))
  }

  /** Request y of the direction is held throughout, where it is. */
  predicate Stays(c: Config, q: Queue, es: seq<Event>, dir: Dir, y: nat)
    requires IsRun(c, q, es)
    decreases |es|
  {
    && Member(q.d.Of(dir).sort, y)
    && (es == [] || (!(es[0].Front? && es[0].dir == dir && es[0].id == y)
                     && Stays(c, Next(c, q, es[0]), es[1..], dir, y)))
  }

  /** The next request of the direction is not merged with a bio from before sector x. */
  predicate StaysUp(c: Config, q: Queue, es: seq<Event>, dir: Dir, x: nat)
    requires IsRun(c, q, es)
    decreases |es|
  {
    es == [] || ((es[0].Front? && es[0].dir == dir && q.d.Of(dir).next == Some(es[0].id) ==> x <= es[0].pos)
                 && StaysUp(c, Next(c, q, es[0]), es[1..], dir, x))
  }

  lemma {:induction false} PauseStep(c: Config, q: Queue, e: Event, dir: Dir, y: nat, r: Queue)
    requires Inv(c, q) && Enabled(q, e) && !e.Dispatch? && Lowers(q, e) && r == Next(c, q, e)
    requires NotPassed(q.d.Of(dir), y) && Member(r.d.Of(dir).sort, y) && !(e.Front? && e.dir == dir && e.id == y)
    ensures NotPassed(r.d.Of(dir), y)
  {
    var s := q.d.Of(dir);
    assert SideOk(s);
    match e
    case Tick(_) =>
    case Add(d, id, pos) => if d == dir { AddNotPassed(s, id, pos, q.now + c.Expire(dir), y); }
    case Front(d, id, pos) => if d == dir { FrontNotPassed(s, id, pos, y); }
    case Merge(d, rq, other) =>
      if d == dir {
        DropOk(s.sort, other, y);
        MergeNotPassed(s, rq, other, y);
      }
  }

  lemma {:induction false} PauseUp(c: Config, q: Queue, e: Event, dir: Dir, x: nat, r: Queue)
    requires Inv(c, q) && Enabled(q, e) && !e.Dispatch? && r == Next(c, q, e) && NotBelow(q.d.Of(dir), x)
    requires e.Front? && e.dir == dir && q.d.Of(dir).next == Some(e.id) ==> x <= e.pos
    ensures NotBelow(r.d.Of(dir), x)
  {
    var s := q.d.Of(dir);
    assert SideOk(s);
    match e
    case Tick(_) =>
    case Add(d, id, pos) => if d == dir { AddNotBelow(s, id, pos, q.now + c.Expire(dir), x); }
    case Front(d, id, pos) => if d == dir { FrontNotBelow(s, id, pos, x); }
    case Merge(d, rq, other) => if d == dir { MergeNotBelow(s, rq, other, x); }
  }

  lemma {:induction false} PauseKeeps(c: Config, q: Queue, es: seq<Event>, dir: Dir, y: nat)
    requires Inv(c, q) && IsRun(c, q, es) && Pause(c, q, es) && Stays(c, q, es, dir, y) && NotPassed(q.d.Of(dir), y)
    ensures NotPassed(After(c, q, es).d.Of(dir), y)
    decreases |es|
  {
    if es != [] {
      var r := Next(c, q, es[0]);
      NextKeeps(c, q, es[0]);
      PauseStep(c, q, es[0], dir, y, r);
      PauseKeeps(c, r, es[1..], dir, y);
    }
  }

  lemma {:induction false} PauseKeepsUp(c: Config, q: Queue, es: seq<Event>, dir: Dir, x: nat)
    requires Inv(c, q) && IsRun(c, q, es) && Pause(c, q, es) && StaysUp(c, q, es, dir, x) && NotBelow(q.d.Of(dir), x)
    ensures NotBelow(After(c, q, es).d.Of(dir), x)
    decreases |es|
  {
    if es != [] {
      var r := Next(c, q, es[0]);
      NextKeeps(c, q, es[0]);
      PauseUp(c, q, es[0], dir, x, r);
      PauseKeepsUp(c, r, es[1..], dir, x);
    }
  }

  /** Neither counter changes, and a direction without a next request gets none. */
  predicate Quiet(q: Queue, r: Queue) {
    && r.d.batching == q.d.batching && r.d.starved == q.d.starved
    && (q.d.rd.next.None? ==> r.d.rd.next.None?) && (q.d.wr.next.None? ==> r.d.wr.next.None?)
  }

  lemma {:induction false} QuietStep(c: Config, q: Queue, e: Event, r: Queue)
    requires Enabled(q, e) && !e.Dispatch? && r == Next(c, q, e)
    ensures Quiet(q, r)
  {
    if e.Merge? { MergeNext(q.d.Of(e.dir), e.rq, e.other); }
  }

  lemma {:induction false} PauseQuiet(c: Config, q: Queue, es: seq<Event>)
    requires IsRun(c, q, es) && Pause(c, q, es)
    ensures Quiet(q, After(c, q, es))
    decreases |es|
  {
    if es != [] {
      QuietStep(c, q, es[0], Next(c, q, es[0]));
      PauseQuiet(c, Next(c, q, es[0]), es[1..]);
    }
  }

  /** The sector of the request that a dispatch takes. */
  function SectorOf(d: Data, g: Choice): nat
    requires g.Go? && Member(d.Of(g.dir).sort, g.id)
  {
    KeyOf(d.Of(g.dir).sort, g.id)
  }

  lemma {:induction false} ChosenHeld(c: Config, q: Queue, g: Choice)
    requires Inv(c, q) && g == Choose(c, q.now, q.d) && g.Go?
    ensures Member(q.d.Of(g.dir).sort, g.id)
  {
    ChooseOk(c, q.now, q.d);
    assert SameMembers(q.d.Of(g.dir).fifo, q.d.Of(g.dir).sort);
  }

  lemma {:induction false} NotPassedKey(s: Side, y: nat)
    requires SideOk(s) && NotPassed(s, y)
    ensures Member(s.sort, s.next.value) && KeyOf(s.sort, s.next.value) <= KeyOf(s.sort, y)
  {
    MemberIndex(s.sort, y);
    MemberIndex(s.sort, s.next.value);
  }

  /** Two dispatches, of g in q and of h in q2, with a pause between them. */
  ghost predicate InARow(c: Config, q: Queue, g: Choice, q1: Queue, es: seq<Event>, q2: Queue, h: Choice) {
    && Inv(c, q) && g == Choose(c, q.now, q.d) && g.Go? && q1 == Next(c, q, Dispatch)
    && IsRun(c, q1, es) && Pause(c, q1, es) && q2 == After(c, q1, es) && h == Choose(c, q2.now, q2.d)
  }

  lemma {:induction false} AfterFirst(c: Config, q: Queue, g: Choice, q1: Queue)
    requires Inv(c, q) && g == Choose(c, q.now, q.d) && g.Go? && q1 == Next(c, q, Dispatch)
    ensures Inv(c, q1) && SideOk(q.d.Of(g.dir)) && Member(q.d.Of(g.dir).sort, g.id)
    ensures q1.d.Of(g.dir) == Moved(q.d.Of(g.dir), g.id) && q1.d.batching == g.batching && q1.d.starved == g.starved
    ensures g.dir == Read ==> q1.d.wr.next.None?
    ensures g.dir == Write ==> q1.d.rd.next.None?
  {
    NextKeeps(c, q, Dispatch);
    ChosenHeld(c, q, g);
  }

  lemma {:induction false} InARowOk(c: Config, q: Queue, g: Choice, q1: Queue, es: seq<Event>, q2: Queue, h: Choice)
    requires InARow(c, q, g, q1, es, q2, h)
    ensures Inv(c, q1) && Inv(c, q2) && Quiet(q1, q2) && q1.out == q.out + [g.id]
    ensures Member(q.d.Of(g.dir).sort, g.id) && (h.Go? ==> Member(q2.d.Of(h.dir).sort, h.id))
    ensures h.Go? && !h.selected ==> h.dir == g.dir && g.batching < c.batch && q2.d.Of(g.dir).next == Some(h.id)
    ensures q2.d.Of(g.dir).next.Some? && g.batching < c.batch ==> h.Go? && !h.selected
  {
    AfterFirst(c, q, g, q1);
    RunKeeps(c, q1, es);
    PauseQuiet(c, q1, es);
    if h.Go? { ChosenHeld(c, q2, h); }
  }

  /** A request that was ahead of the first and stays is not passed over. */
  lemma {:induction false} AheadStays(c: Config, q: Queue, g: Choice, q1: Queue, es: seq<Event>, q2: Queue, h: Choice,
                                      y: nat)
    requires InARow(c, q, g, q1, es, q2, h) && Member(q.d.Of(g.dir).sort, g.id)
    requires Member(q.d.Of(g.dir).sort, y) && SectorOf(q.d, g) < KeyOf(q.d.Of(g.dir).sort, y)
    requires Stays(c, q1, es, g.dir, y)
    ensures NotPassed(q2.d.Of(g.dir), y) && Member(q2.d.Of(g.dir).sort, q2.d.Of(g.dir).next.value)
    ensures KeyOf(q2.d.Of(g.dir).sort, q2.d.Of(g.dir).next.value) <= KeyOf(q2.d.Of(g.dir).sort, y)
  {
    AfterFirst(c, q, g, q1);
    RunKeeps(c, q1, es);
    MovedNotPassed(q.d.Of(g.dir), g.id, SectorOf(q.d, g), y);
    PauseKeeps(c, q1, es, g.dir, y);
    assert SideOk(q2.d.Of(g.dir));
    NotPassedKey(q2.d.Of(g.dir), y);
  }

  lemma {:induction false} NextNotBelow(c: Config, q: Queue, g: Choice, q1: Queue, es: seq<Event>, q2: Queue, h: Choice)
    requires InARow(c, q, g, q1, es, q2, h) && Member(q.d.Of(g.dir).sort, g.id)
    requires StaysUp(c, q1, es, g.dir, SectorOf(q.d, g))
    ensures NotBelow(q2.d.Of(g.dir), SectorOf(q.d, g))
  {
    AfterFirst(c, q, g, q1);
    MovedNotBelow(q.d.Of(g.dir), g.id, SectorOf(q.d, g));
    PauseKeepsUp(c, q1, es, g.dir, SectorOf(q.d, g));
  }

  /** Two dispatches in a row, whatever is added and merged in between. A batch that goes
      on stays in its direction, and at or above the sector of the first unless its
      next request was merged with a bio from below it; it has not had its length. A
      request y that was ahead and stays where it is is not passed over, and keeps the
      batch going until then. */
  lemma {:induction false} BatchGoesUp(c: Config, q: Queue, g: Choice, q1: Queue, es: seq<Event>, q2: Queue, h: Choice,
                                       y: nat)
    requires InARow(c, q, g, q1, es, q2, h)
    ensures Member(q.d.Of(g.dir).sort, g.id) && (h.Go? ==> Member(q2.d.Of(h.dir).sort, h.id))
    ensures q1.out == q.out + [g.id] && (h.Go? && !h.selected ==> h.dir == g.dir && g.batching < c.batch)
    ensures h.Go? && !h.selected && StaysUp(c, q1, es, g.dir, SectorOf(q.d, g))
            ==> SectorOf(q.d, g) <= SectorOf(q2.d, h)
    ensures Ahead(c, q, g, q1, es, y) ==>
      && Member(q2.d.Of(g.dir).sort, y) && (g.batching < c.batch ==> h.Go? && !h.selected)
      && (h.Go? && !h.selected ==> SectorOf(q2.d, h) <= KeyOf(q2.d.Of(g.dir).sort, y))
  {
    InARowOk(c, q, g, q1, es, q2, h);
    if h.Go? && !h.selected && StaysUp(c, q1, es, g.dir, SectorOf(q.d, g)) { NextNotBelow(c, q, g, q1, es, q2, h); }
    if Ahead(c, q, g, q1, es, y) { AheadStays(c, q, g, q1, es, q2, h, y); }
  }

  /** A front merge onto the next request of a batch takes the next dispatch to the sector
      of the bio, wherever the one before went. */
  lemma {:induction false} FrontMovesNext(c: Config, q: Queue, dir: Dir, id: nat, pos: nat, r: Queue, h: Choice)
    requires Inv(c, q) && InBatch(c, q.d) && q.d.Of(dir).next == Some(id) && Member(q.d.Of(dir).fifo, id)
    requires r == Next(c, q, Front(dir, id, pos)) && h == Choose(c, r.now, r.d)
    ensures h.Go? && h.dir == dir && h.id == id && !h.selected
    ensures Member(r.d.Of(dir).sort, id) && SectorOf(r.d, h) == pos
  {
    var l := Drop(q.d.Of(dir).sort, id);
    assert SideOk(q.d.Of(dir));
    DropOk(q.d.Of(dir).sort, id, id);
    NewIndex(l, Place(l, pos), Node(id, pos));
  }

  /** Request y was ahead of g in its direction and stays through the pause. */
  predicate Ahead(c: Config, q: Queue, g: Choice, q1: Queue, es: seq<Event>, y: nat)
    requires g.Go? && Member(q.d.Of(g.dir).sort, g.id) && IsRun(c, q1, es)
  {
    && Member(q.d.Of(g.dir).sort, y) && SectorOf(q.d, g) < KeyOf(q.d.Of(g.dir).sort, y)
    && Stays(c, q1, es, g.dir, y)
  }

  /** When a batch has had its length, or has nothing ahead, and the same direction is
      selected again: the first of the fifo goes if it has expired, and else the
      scheduler goes on upwards, passing nobody that was ahead, if it can. */
  lemma {:induction false} SelectionGoesOn(c: Config, q: Queue, g: Choice, q1: Queue, es: seq<Event>, q2: Queue,
                                           h: Choice, y: nat)
    requires InARow(c, q, g, q1, es, q2, h) && h.Go? && h.selected && h.dir == g.dir
    ensures Member(q.d.Of(g.dir).sort, g.id) && Member(q2.d.Of(h.dir).sort, h.id)
    ensures q2.d.Of(h.dir).fifo != []
    ensures q2.now > q2.d.Of(h.dir).fifo[0].key ==> h.id == q2.d.Of(h.dir).fifo[0].id
    ensures q2.now <= q2.d.Of(h.dir).fifo[0].key && Ahead(c, q, g, q1, es, y) ==>
      Member(q2.d.Of(h.dir).sort, y) && SectorOf(q2.d, h) <= KeyOf(q2.d.Of(h.dir).sort, y)
      && (StaysUp(c, q1, es, g.dir, SectorOf(q.d, g)) ==> SectorOf(q.d, g) <= SectorOf(q2.d, h))
  {
    InARowOk(c, q, g, q1, es, q2, h);
    if Ahead(c, q, g, q1, es, y) {
      AheadStays(c, q, g, q1, es, q2, h, y);
      if StaysUp(c, q1, es, g.dir, SectorOf(q.d, g)) { NextNotBelow(c, q, g, q1, es, q2, h); }
    }
  }

  // ----- the fifo -----

  /** A request that is added goes to the end of its fifo, with its direction's expiry, and
      into the tree at its sector. */
  lemma {:induction false} AddedExpires(c: Config, q: Queue, dir: Dir, id: nat, pos: nat, r: Queue)
    requires Inv(c, q) && Enabled(q, Add(dir, id, pos)) && r == Next(c, q, Add(dir, id, pos))
    ensures r.d.Of(dir).fifo
         == q.d.Of(dir).fifo + [Node(id, q.now + if dir == Read then c.readExpire else c.writeExpire)]
    ensures Member(r.d.Of(dir).sort, id) && KeyOf(r.d.Of(dir).sort, id) == pos
    ensures r.d.Of(if dir == Read then Write else Read) == q.d.Of(if dir == Read then Write else Read)
  {
    var s := q.d.Of(dir);
    assert SideOk(s);
    assert !Member(s.sort, id) by { assert SameMembers(s.fifo, s.sort); }
    NewIndex(s.sort, Place(s.sort, pos), Node(id, pos));
  }

  /** The request that stays takes the earlier expiry of the two. */
  lemma {:induction false} MergedExpiry(s: Side, rq: nat, other: nat, t: Side)
    requires ListOk(s.fifo) && Member(s.fifo, rq) && Member(s.fifo, other) && rq != other
    requires t == MergedRequests(s, rq, other)
    ensures Member(t.fifo, rq)
    ensures KeyOf(t.fifo, rq)
         == if KeyOf(s.fifo, other) < KeyOf(s.fifo, rq) then KeyOf(s.fifo, other) else KeyOf(s.fifo, rq)
  {
    var l := s.fifo;
    MemberIndex(l, rq);
    MemberIndex(l, other);
    if KeyOf(l, other) < KeyOf(l, rq) {
      var q, m := IndexOf(l, other), Drop(l, rq);
      HurriedIs(l, rq, other, IndexOf(l, rq), q);
      DropOk(l, rq, rq);
      DropKey(l, rq, other);
      TakeOver(m, q, rq, rq);
      IndexMember(t.fifo, rq);
    } else {
      DropKey(l, other, rq);
    }
  }

  // ----- which direction -----

  /** A dispatch: its direction, whether it was selected anew, and whether a write was held. */
  datatype Trip = Trip(dir: Dir, selected: bool, writes: bool)

  /** What a step adds to the log. */
  function TripOf(c: Config, q: Queue, e: Event): seq<Trip> {
    var g := Choose(c, q.now, q.d);
    if e.Dispatch? && g.Go? then [Trip(g.dir, g.selected, q.d.wr.fifo != [])] else []
  }

  function Trips(c: Config, q: Queue, es: seq<Event>): seq<Trip>
    requires IsRun(c, q, es)
    decreases |es|
  {
    if es == [] then [] else TripOf(c, q, es[0]) + Trips(c, Next(c, q, es[0]), es[1..])
  }

  /** How many have gone since the last selection, it included; n before the log. */
  function SinceSelected(n: nat, log: seq<Trip>): nat
    decreases |log|
  {
    if log == [] then n else SinceSelected(if log[0].selected then 1 else n + 1, log[1..])
  }

  /** How often reads were selected over writes since writes last were; n before the log. */
  function OverWrites(n: nat, log: seq<Trip>): nat
    decreases |log|
  {
    if log == [] then n
    else
      var t := log[0];
      OverWrites(if !t.selected then n else if t.dir == Write then 0 else if t.writes then n + 1 else n, log[1..])
  }

  lemma {:induction false} LogSplit(n: nat, t: seq<Trip>, rest: seq<Trip>)
    requires |t| <= 1
    ensures SinceSelected(n, t + rest) == SinceSelected(SinceSelected(n, t), rest)
    ensures OverWrites(n, t + rest) == OverWrites(OverWrites(n, t), rest)
  {
    if t == [] {
      assert t + rest == rest;
    } else {
      assert (t + rest)[1..] == rest && t[1..] == [];
    }
  }

  lemma {:induction false} TripTells(c: Config, q: Queue, e: Event, r: Queue)
    requires Enabled(q, e) && r == Next(c, q, e)
    ensures r.d.batching == SinceSelected(q.d.batching, TripOf(c, q, e))
    ensures r.d.starved == OverWrites(q.d.starved, TripOf(c, q, e))
  {
    if e.Dispatch? {
      if Choose(c, q.now, q.d).Go? { assert TripOf(c, q, e)[1..] == []; }
    } else {
      QuietStep(c, q, e, r);
    }
  }

  /** The counters of the scheduler are those of the log. */
  lemma {:induction false} CountersTell(c: Config, q: Queue, es: seq<Event>)
    requires IsRun(c, q, es)
    ensures After(c, q, es).d.batching == SinceSelected(q.d.batching, Trips(c, q, es))
    ensures After(c, q, es).d.starved == OverWrites(q.d.starved, Trips(c, q, es))
    decreases |es|
  {
    if es != [] {
      var r, t := Next(c, q, es[0]), TripOf(c, q, es[0]);
      CountersTell(c, r, es[1..]);
      TripTells(c, q, es[0], r);
      LogSplit(q.d.batching, t, Trips(c, r, es[1..]));
      LogSplit(q.d.starved, t, Trips(c, r, es[1..]));
    }
  }

  /** At any time after a run from the start: a dispatch goes on with a batch only while
      fewer than fifo_batch have gone since the last selection, and a selection takes
      reads exactly if there are any and writes are not held or were passed over fewer
      than writes_starved times since they last went. */
  lemma {:induction false} DirectionLaw(c: Config, es: seq<Event>, q: Queue, log: seq<Trip>, h: Choice)
    requires IsRun(c, START, es) && q == After(c, START, es) && log == Trips(c, START, es) && h == Choose(c, q.now, q.d)
    ensures h.Go? && !h.selected ==> SinceSelected(0, log) < c.batch
    ensures h.Go? && h.selected ==>
      (h.dir == Read <==> q.d.rd.fifo != [] && (q.d.wr.fifo == [] || OverWrites(0, log) < c.starve))
  {
    CountersTell(c, START, es);
  }

  /** A run whose every dispatch takes a write while a read is queued. */
  predicate OnlyWrites(c: Config, q: Queue, es: seq<Event>)
    requires IsRun(c, q, es)
    decreases |es|
  {
    es == [] ||
    ((es[0].Dispatch? ==> q.d.rd.fifo != [] && Choose(c, q.now, q.d).Go? && Choose(c, q.now, q.d).dir == Write)
     && OnlyWrites(c, Next(c, q, es[0]), es[1..]))
  }

  /** While writes have a next request, reads were not preferred since they went. */
  predicate WritesFresh(d: Data) { d.wr.next.Some? ==> d.starved == 0 }

  /** The writes that can still go before a read must be chosen. */
  function ReadPatience(c: Config, d: Data): nat {
    (if d.wr.next.Some? && d.batching < c.batch then c.batch - d.batching else 0)
    + (if d.starved >= c.starve then c.batch else 0)
  }

  lemma {:induction false} FreshStep(c: Config, q: Queue, e: Event)
    requires OneNext(q.d) && Enabled(q, e) && WritesFresh(q.d)
    ensures WritesFresh(Next(c, q, e).d)
  {
    if e.Merge? { MergeNext(q.d.Of(e.dir), e.rq, e.other); }
  }

  lemma {:induction false} FreshRun(c: Config, q: Queue, es: seq<Event>)
    requires Inv(c, q) && IsRun(c, q, es) && WritesFresh(q.d)
    ensures WritesFresh(After(c, q, es).d)
    decreases |es|
  {
    if es != [] {
      NextKeeps(c, q, es[0]);
      FreshStep(c, q, es[0]);
      FreshRun(c, Next(c, q, es[0]), es[1..]);
    }
  }

  lemma {:induction false} WriteCosts(c: Config, q: Queue)
    requires c.batch >= 1 && c.starve >= 1 && OneNext(q.d) && q.d.rd.fifo != []
    requires Choose(c, q.now, q.d).Go? && Choose(c, q.now, q.d).dir == Write
    ensures ReadPatience(c, Next(c, q, Dispatch).d) < ReadPatience(c, q.d)
  {
  }

  lemma {:induction false} OthersKeepReads(c: Config, q: Queue, e: Event)
    requires Enabled(q, e) && !e.Dispatch?
    ensures ReadPatience(c, Next(c, q, e).d) <= ReadPatience(c, q.d)
  {
    QuietStep(c, q, e, Next(c, q, e));
  }

  lemma {:induction false} WritesLimited(c: Config, q: Queue, es: seq<Event>)
    requires c.batch >= 1 && c.starve >= 1 && Inv(c, q) && IsRun(c, q, es) && OnlyWrites(c, q, es)
    ensures Dispatches(es) <= ReadPatience(c, q.d)
    decreases |es|
  {
    if es != [] {
      NextKeeps(c, q, es[0]);
      WritesLimited(c, Next(c, q, es[0]), es[1..]);
      if es[0].Dispatch? { WriteCosts(c, q); } else { OthersKeepReads(c, q, es[0]); }
    }
  }

  /** While a read is queued at most fifo_batch writes go in a row, if writes_starved is
      not 0: reads are preferred. */
  lemma {:induction false} ReadsNotStarved(c: Config, start: seq<Event>, q: Queue, es: seq<Event>)
    requires c.batch >= 1 && c.starve >= 1 && IsRun(c, START, start) && q == After(c, START, start)
    requires IsRun(c, q, es) && OnlyWrites(c, q, es)
    ensures Dispatches(es) <= c.batch
  {
    StartOk(c);
    RunKeeps(c, START, start);
    FreshRun(c, START, start);
    WritesLimited(c, q, es);
  }

  /** If it is 0, every selection takes a write as long as one is held. */
  lemma {:induction false} ZeroPrefersWrites(c: Config, q: Queue)
    requires c.starve == 0 && q.d.wr.fifo != []
    ensures Choose(c, q.now, q.d).Go? && (Choose(c, q.now, q.d).selected ==> Choose(c, q.now, q.d).dir == Write)
  {
  }
}
