/** The deadline scheduler as a machine: requests are added, merged and
    dispatched while time passes, and what holds of every run. */
module DeadlineRun {

  import opened ServiceTree
  import opened Options
  import opened Deadline

  /** What deadline_dispatch_requests picks, with the new values of the two
      counters; `selected` says that it did not continue a batch. */
  datatype Choice = Nothing | Go(dir: Dir, id: nat, batching: nat, starved: nat, selected: bool)

  /** The best request of a direction: the head of the fifo when it has expired or
      there is no next one by sector. */
  function Find(s: Side, now: nat): nat
    requires s.fifo != []
  {
    if now > s.fifo[0].key || s.next.None? then s.fifo[0].id else s.next.value
  }

  function BatchDir(d: Data): Dir { if d.wr.next.Some? then Write else Read }

  predicate InBatch(c: Config, d: Data) { d.Of(BatchDir(d)).next.Some? && d.batching < c.batch }

  function Select(c: Config, now: nat, d: Data): Choice {
    if d.rd.fifo != [] && (d.wr.fifo == [] || d.starved < c.starve) then
      Go(Read, Find(d.rd, now), 1, if d.wr.fifo != [] then d.starved + 1 else d.starved, true)
    else if d.wr.fifo != [] then Go(Write, Find(d.wr, now), 1, 0, true)
    else Nothing
  }

  function Choose(c: Config, now: nat, d: Data): Choice {
    if InBatch(c, d) then Go(BatchDir(d), d.Of(BatchDir(d)).next.value, d.batching + 1, d.starved, false)
    else Select(c, now, d)
  }

  /** deadline_move_request: only the direction served keeps a next request. */
  function Moved(s: Side, id: nat): Side { RemoveRequest(s.(next := Latter(s.sort, id)), id) }

  function Move(d: Data, g: Choice): Data
    requires g.Go?
  {
    Data(if g.dir == Read then Moved(d.rd, g.id) else d.rd.(next := None),
         if g.dir == Write then Moved(d.wr, g.id) else d.wr.(next := None),
         g.batching, g.starved)
  }

  /** The scheduler, the clock, nr_sorted and the dispatch list of the queue. */
  datatype Queue = Queue(now: nat, d: Data, nr: int, out: seq<nat>)

  datatype Event =
    | Tick(ticks: nat)
    | Add(dir: Dir, id: nat, pos: nat)
    | Front(dir: Dir, id: nat, pos: nat)
    | Merge(dir: Dir, rq: nat, other: nat)
    | Dispatch

  const NO_SIDE: Side := Side([], [], None)
  const START: Queue := Queue(0, Data(NO_SIDE, NO_SIDE, 0, 0), 0, [])

  predicate Queued(d: Data, id: nat) { Member(d.rd.fifo, id) || Member(d.wr.fifo, id) }

  /** A request is added when it is not held, and merged when it is. */
  predicate Enabled(q: Queue, e: Event) {
    match e
    case Tick(ticks) => true
    case Add(dir, id, pos) => !Queued(q.d, id)
    case Front(dir, id, pos) => Member(q.d.Of(dir).fifo, id)
    case Merge(dir, rq, other) => Member(q.d.Of(dir).fifo, rq) && Member(q.d.Of(dir).fifo, other) && rq != other
    case Dispatch => true
  }

  function Next(c: Config, q: Queue, e: Event): Queue
    requires Enabled(q, e)
  {
    match e
    case Tick(ticks) => q.(now := q.now + ticks)
    case Add(dir, id, pos) =>
      q.(d := q.d.With(dir, AddRequest(q.d.Of(dir), id, pos, q.now + c.Expire(dir))), nr := q.nr + 1)
    case Front(dir, id, pos) => q.(d := q.d.With(dir, FrontMerged(q.d.Of(dir), id, pos)))
    case Merge(dir, rq, other) =>
      q.(d := q.d.With(dir, MergedRequests(q.d.Of(dir), rq, other)), nr := q.nr - 1)
    case Dispatch =>
      var g := Choose(c, q.now, q.d);
      if g.Nothing? then q else q.(d := Move(q.d, g), nr := q.nr - 1, out := q.out + [g.id])
  }

  ghost predicate SidesOk(c: Config, now: nat, d: Data) {
    && SideOk(d.rd) && SideOk(d.wr)
    && ExpireBy(d.rd.fifo, now + c.readExpire) && ExpireBy(d.wr.fifo, now + c.writeExpire)
  }

  ghost predicate Apart(d: Data) { forall id: nat :: !(Member(d.rd.fifo, id) && Member(d.wr.fifo, id)) }

  /** next_rq is set for one direction at most, and then a batch has begun. */
  predicate OneNext(d: Data) {
    && (d.rd.next.None? || d.wr.next.None?)
    && (d.rd.next.Some? || d.wr.next.Some? ==> d.batching >= 1)
  }

  ghost predicate Inv(c: Config, q: Queue) {
    SidesOk(c, q.now, q.d) && Apart(q.d) && OneNext(q.d) && q.nr == |q.d.rd.fifo| + |q.d.wr.fifo|
  }

  lemma FirstMember(l: seq<Node>)
    requires l != []
    ensures Member(l, l[0].id)
  {
  }

  /** What is picked is held in its direction; nothing is picked only when nothing is held. */
  lemma {:induction false} ChooseOk(c: Config, now: nat, d: Data)
    requires SidesOk(c, now, d)
    ensures Choose(c, now, d).Nothing? <==> d.rd.fifo == [] && d.wr.fifo == []
    ensures Choose(c, now, d).Go? ==> Member(d.Of(Choose(c, now, d).dir).fifo, Choose(c, now, d).id)
    ensures Choose(c, now, d).Go? ==> Choose(c, now, d).batching >= 1
  {
    if d.rd.fifo != [] { FirstMember(d.rd.fifo); }
    if d.wr.fifo != [] { FirstMember(d.wr.fifo); }
    if InBatch(c, d) {
      var k :| 0 <= k < |d.Of(BatchDir(d)).fifo| && d.Of(BatchDir(d)).fifo[k].id == d.Of(BatchDir(d)).next.value;
    }
  }

  lemma {:induction false} MovedOk(s: Side, id: nat, t: nat)
    requires SideOk(s) && Member(s.fifo, id) && ExpireBy(s.fifo, t)
    ensures SideOk(Moved(s, id)) && |Moved(s, id).fifo| == |s.fifo| - 1 && ExpireBy(Moved(s, id).fifo, t)
    ensures forall x: nat :: Member(Moved(s, id).fifo, x) <==> Member(s.fifo, x) && x != id
  {
    LatterMember(s.sort, id);
    RemoveRequestOk(s.(next := Latter(s.sort, id)), id);
    DropBy(s.fifo, id, t);
    forall x: nat ensures Member(Drop(s.fifo, id), x) <==> Member(s.fifo, x) && x != id { DropOk(s.fifo, id, x); }
  }

  lemma {:induction false} MoveSides(c: Config, now: nat, d: Data, g: Choice)
    requires SidesOk(c, now, d) && g.Go? && Member(d.Of(g.dir).fifo, g.id)
    ensures SidesOk(c, now, Move(d, g))
  {
    MovedOk(d.Of(g.dir), g.id, now + c.Expire(g.dir));
    var other := if g.dir == Read then d.wr else d.rd;
    assert SideOk(other.(next := None));
  }

  lemma {:induction false} MoveApart(c: Config, now: nat, d: Data, g: Choice)
    requires SidesOk(c, now, d) && Apart(d) && g.Go? && Member(d.Of(g.dir).fifo, g.id)
    ensures Apart(Move(d, g)) && |Move(d, g).rd.fifo| + |Move(d, g).wr.fifo| == |d.rd.fifo| + |d.wr.fifo| - 1
    ensures forall x: nat :: Queued(Move(d, g), x) <==> Queued(d, x) && x != g.id
  {
    MovedOk(d.Of(g.dir), g.id, now + c.Expire(g.dir));
  }

  lemma {:induction false} DispatchKeeps(c: Config, q: Queue)
    requires Inv(c, q)
    ensures Inv(c, Next(c, q, Dispatch))
  {
    var g := Choose(c, q.now, q.d);
    ChooseOk(c, q.now, q.d);
    if g.Go? {
      MoveSides(c, q.now, q.d, g);
      MoveApart(c, q.now, q.d, g);
    }
  }

  lemma {:induction false} AddSide(s: Side, id: nat, pos: nat, t: nat, a: Side)
    requires SideOk(s) && !Member(s.fifo, id) && ExpireBy(s.fifo, t) && a == AddRequest(s, id, pos, t)
    ensures SideOk(a) && ExpireBy(a.fifo, t) && |a.fifo| == |s.fifo| + 1 && a.next == s.next
    ensures forall x: nat :: Member(a.fifo, x) <==> Member(s.fifo, x) || x == id
  {
    AddRequestOk(s, id, pos, t);
    forall x: nat ensures Member(a.fifo, x) <==> Member(s.fifo, x) || x == id {
      InsertMember(s.fifo, |s.fifo|, Node(id, t), x);
    }
  }

  lemma {:induction false} WithSides(c: Config, now: nat, d: Data, dir: Dir, a: Side)
    requires SidesOk(c, now, d) && SideOk(a) && ExpireBy(a.fifo, now + c.Expire(dir))
    ensures SidesOk(c, now, d.With(dir, a))
  {
  }

  lemma {:induction false} AddApart(d: Data, dir: Dir, id: nat, a: Side)
    requires Apart(d) && !Queued(d, id) && forall x: nat :: Member(a.fifo, x) <==> Member(d.Of(dir).fifo, x) || x == id
    ensures Apart(d.With(dir, a))
  {
  }

  lemma {:induction false} AddKeeps(c: Config, q: Queue, dir: Dir, id: nat, pos: nat)
    requires Inv(c, q) && Enabled(q, Add(dir, id, pos))
    ensures Inv(c, Next(c, q, Add(dir, id, pos)))
  {
    var s, t := q.d.Of(dir), q.now + c.Expire(dir);
    var a := AddRequest(s, id, pos, t);
    AddSide(s, id, pos, t, a);
    WithSides(c, q.now, q.d, dir, a);
    AddApart(q.d, dir, id, a);
    assert OneNext(q.d.With(dir, a));
  }

  lemma {:induction false} InsertBy(l: seq<Node>, p: nat, n: Node, t: nat)
    requires ExpireBy(l, t) && n.key <= t && p <= |l|
    ensures ExpireBy(Insert(l, p, n), t)
  {
  }

  lemma {:induction false} BehindBy(fifo: seq<Node>, rq: nat, other: nat, t: nat)
    requires ListOk(fifo) && Member(fifo, rq) && Member(fifo, other) && rq != other && ExpireBy(fifo, t)
    requires IndexOf(fifo, other) < |fifo|
    ensures ExpireBy(Behind(fifo, rq, other), t)
  {
    var l := Drop(fifo, rq);
    var q, key := IndexOf(l, other), fifo[IndexOf(fifo, other)].key;
    BehindIs(fifo, rq, other, l, q, key);
    DropBy(fifo, rq, t);
    InsertBy(l, q + 1, Node(rq, key), t);
  }

  lemma {:induction false} MergeKeeps(c: Config, q: Queue, dir: Dir, rq: nat, other: nat)
    requires Inv(c, q) && Enabled(q, Merge(dir, rq, other))
    ensures Inv(c, Next(c, q, Merge(dir, rq, other)))
  {
    var s, t := q.d.Of(dir), q.now + c.Expire(dir);
    MergedRequestsOk(s, rq, other);
    MemberIndex(s.fifo, rq);
    MemberIndex(s.fifo, other);
    BehindBy(s.fifo, rq, other, t);
    DropBy(Hurried(s.fifo, rq, other), other, t);
  }

  lemma {:induction false} FrontKeeps(c: Config, q: Queue, dir: Dir, id: nat, pos: nat)
    requires Inv(c, q) && Enabled(q, Front(dir, id, pos))
    ensures Inv(c, Next(c, q, Front(dir, id, pos)))
  {
    FrontMergedOk(q.d.Of(dir), id, pos);
  }

  lemma {:induction false} NextKeeps(c: Config, q: Queue, e: Event)
    requires Inv(c, q) && Enabled(q, e)
    ensures Inv(c, Next(c, q, e))
  {
    match e
    case Tick(ticks) =>
    case Add(dir, id, pos) => AddKeeps(c, q, dir, id, pos);
    case Front(dir, id, pos) => FrontKeeps(c, q, dir, id, pos);
    case Merge(dir, rq, other) => MergeKeeps(c, q, dir, rq, other);
    case Dispatch => DispatchKeeps(c, q);
  }

  predicate IsRun(c: Config, q: Queue, es: seq<Event>)
    decreases |es|
  {
    es == [] || (Enabled(q, es[0]) && IsRun(c, Next(c, q, es[0]), es[1..]))
  }

  function After(c: Config, q: Queue, es: seq<Event>): Queue
    requires IsRun(c, q, es)
    decreases |es|
  {
    if es == [] then q else After(c, Next(c, q, es[0]), es[1..])
  }

  /** Every reachable state: both indexes hold the same requests, next_rq is one of
      them in one direction at most, and nr_sorted counts them. */
  lemma {:induction false} RunKeeps(c: Config, q: Queue, es: seq<Event>)
    requires Inv(c, q) && IsRun(c, q, es)
    ensures Inv(c, After(c, q, es))
    decreases |es|
  {
    if es != [] {
      NextKeeps(c, q, es[0]);
      RunKeeps(c, Next(c, q, es[0]), es[1..]);
    }
  }

  lemma StartOk(c: Config)
    ensures Inv(c, START)
  {
  }
}
