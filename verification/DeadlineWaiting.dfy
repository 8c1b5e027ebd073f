/** How long a request can wait in the deadline scheduler: reads ahead of a queued
    write, and an expired request behind the others of its direction. */
module DeadlineWaiting {

  import opened ServiceTree
  import opened Deadline
  import opened DeadlineRun

  /** The reads that can still go before a write must be chosen: the rest of the
      batch, and a batch for each time reads may yet be preferred. */
  function Patience(c: Config, d: Data): nat {
    (if d.wr.next.None? && d.rd.next.Some? && d.batching < c.batch then c.batch - d.batching else 0)
    + (if d.starved < c.starve then (c.starve - d.starved) * c.batch else 0)
  }

  lemma {:induction false} Scale(a: nat, b: nat, m: nat)
    requires a <= b
    ensures a * m <= b * m && (a + 1) * m == a * m + m
  {
  }

  lemma {:induction false} PatienceBound(c: Config, d: Data)
    requires OneNext(d) && c.batch >= 1
    ensures Patience(c, d) <= (c.starve + 1) * c.batch - 1
  {
    if d.starved < c.starve { Scale(c.starve - d.starved, c.starve, c.batch); }
    Scale(c.starve, c.starve, c.batch);
  }

  /** A read dispatched while a write is queued uses up some of it. */
  lemma {:induction false} ReadCosts(c: Config, q: Queue)
    requires c.batch >= 1 && q.d.wr.fifo != []
    requires Choose(c, q.now, q.d).Go? && Choose(c, q.now, q.d).dir == Read
    ensures Patience(c, Next(c, q, Dispatch).d) < Patience(c, q.d)
  {
    if !InBatch(c, q.d) && q.d.starved < c.starve {
      Scale(c.starve - q.d.starved - 1, c.starve, c.batch);
    }
  }

  lemma {:induction false} PatienceFrom(c: Config, d: Data, e: Data)
    requires OneNext(d) && e.batching == d.batching && e.starved == d.starved
    requires e.rd.next.Some? ==> d.rd.next.Some?
    ensures Patience(c, e) <= Patience(c, d)
  {
  }

  lemma {:induction false} MergeNext(s: Side, rq: nat, other: nat)
    requires Member(s.fifo, rq) && Member(s.fifo, other)
    ensures MergedRequests(s, rq, other).next.Some? ==> s.next.Some?
  {
  }

  /** Nothing but a dispatch gives reads more of it. */
  lemma {:induction false} OthersKeep(c: Config, q: Queue, e: Event)
    requires OneNext(q.d) && Enabled(q, e) && !e.Dispatch?
    ensures Patience(c, Next(c, q, e).d) <= Patience(c, q.d)
  {
    if e.Merge? { MergeNext(q.d.Of(e.dir), e.rq, e.other); }
    PatienceFrom(c, q.d, Next(c, q, e).d);
  }

  /** A run whose every dispatch takes a read while a write is queued. */
  predicate OnlyReads(c: Config, q: Queue, es: seq<Event>)
    requires IsRun(c, q, es)
    decreases |es|
  {
    es == [] ||
    ((es[0].Dispatch? ==> q.d.wr.fifo != [] && Choose(c, q.now, q.d).Go? && Choose(c, q.now, q.d).dir == Read)
     && OnlyReads(c, Next(c, q, es[0]), es[1..]))
  }

  function Dispatches(es: seq<Event>): nat {
    if es == [] then 0 else (if es[0].Dispatch? then 1 else 0) + Dispatches(es[1..])
  }

  lemma {:induction false} ReadsLimited(c: Config, q: Queue, es: seq<Event>)
    requires c.batch >= 1 && Inv(c, q) && IsRun(c, q, es) && OnlyReads(c, q, es)
    ensures Dispatches(es) <= Patience(c, q.d)
    decreases |es|
  {
    if es != [] {
      NextKeeps(c, q, es[0]);
      ReadsLimited(c, Next(c, q, es[0]), es[1..]);
      if es[0].Dispatch? { ReadCosts(c, q); } else { OthersKeep(c, q, es[0]); }
    }
  }

  /** While a write is queued at most (writes_starved + 1) * fifo_batch - 1 reads go
      in a row, whatever is added and merged meanwhile. */
  lemma {:induction false} WritesNotStarved(c: Config, q: Queue, es: seq<Event>)
    requires c.batch >= 1 && Inv(c, q) && IsRun(c, q, es) && OnlyReads(c, q, es)
    ensures Dispatches(es) <= (c.starve + 1) * c.batch - 1
  {
    ReadsLimited(c, q, es);
    PatienceBound(c, q.d);
  }

  /** The request that carries what id carried, after a step. */
  function Follow(e: Event, dir: Dir, id: nat): nat {
    if e.Merge? && e.dir == dir && e.other == id then e.rq else id
  }

  predicate Selects(c: Config, q: Queue, e: Event, dir: Dir) {
    e.Dispatch? && var g := Choose(c, q.now, q.d); g.Go? && g.selected && g.dir == dir
  }

  function Selections(c: Config, q: Queue, es: seq<Event>, dir: Dir): nat
    requires IsRun(c, q, es)
    decreases |es|
  {
    if es == [] then 0
    else (if Selects(c, q, es[0], dir) then 1 else 0) + Selections(c, Next(c, q, es[0]), es[1..], dir)
  }

  /** What is ahead of a request in its fifo, and its expiry. */
  predicate Closer(was: seq<Node>, id: nat, l: seq<Node>, id': nat, n: nat) {
    && IndexOf(was, id) < |was| && IndexOf(l, id') < |l|
    && IndexOf(l, id') + n <= IndexOf(was, id)
    && l[IndexOf(l, id')].key <= was[IndexOf(was, id)].key
  }

  lemma {:induction false} IndexIs(l: seq<Node>, k: nat)
    requires Distinct(l) && k < |l|
    ensures IndexOf(l, l[k].id) == k
  {
  }

  /** Dropping another entry moves nobody back. */
  lemma {:induction false} DropCloser(l: seq<Node>, gone: nat, id: nat)
    requires Distinct(l) && Member(l, gone) && Member(l, id) && id != gone
    ensures Closer(l, id, Drop(l, gone), id, 0)
    ensures IndexOf(l, gone) == 0 ==> Closer(l, id, Drop(l, gone), id, 1)
  {
    DropKey(l, gone, id);
    MemberIndex(l, gone);
    assert IndexOf(l, gone) == 0 ==> IndexOf(l, id) != 0;
  }

  lemma {:induction false} AddCloser(l: seq<Node>, n: Node, id: nat)
    requires Distinct(l) && !Member(l, n.id) && Member(l, id)
    ensures Closer(l, id, Insert(l, |l|, n), id, 0)
  {
    MemberIndex(l, id);
    var r := Insert(l, |l|, n);
    assert r[IndexOf(l, id)] == l[IndexOf(l, id)];
    assert Distinct(r);
    IndexIs(r, IndexOf(l, id));
  }

  lemma {:induction false} Earlier(l: seq<Node>, q: nat, p: nat)
    requires Sorted(l) && p < |l| && q < |l| && l[q].key < l[p].key
    ensures q < p
  {
  }

  lemma {:induction false} DropInserted(m: seq<Node>, q: nat, n: Node)
    requires q < |m| && ListOk(Insert(m, q + 1, n))
    ensures Drop(Insert(m, q + 1, n), m[q].id) == m[q := n]
  {
    var b := Insert(m, q + 1, n);
    assert b[q] == m[q];
    IndexIs(b, q);
    assert Remove(b, q) == m[q := n];
  }

  /** When rq takes the expiry of other, it takes its place in the fifo. */
  lemma {:induction false} HurriedIs(l: seq<Node>, rq: nat, other: nat, p: nat, q: nat)
    requires ListOk(l) && Member(l, rq) && Member(l, other) && rq != other
    requires p == IndexOf(l, rq) && q == IndexOf(l, other) && q < |l| && p < |l| && l[q].key < l[p].key
    ensures q < p && q < |Drop(l, rq)|
    ensures Drop(Behind(l, rq, other), other) == Drop(l, rq)[q := Node(rq, l[q].key)]
  {
    Earlier(l, q, p);
    var m := Drop(l, rq);
    DropKey(l, rq, other);
    BehindIs(l, rq, other, m, q, l[q].key);
    InsertBehind(m, q, rq);
    DropInserted(m, q, Node(rq, l[q].key));
  }

  lemma {:induction false} TakeOver(m: seq<Node>, q: nat, rq: nat, id: nat)
    requires Distinct(m) && q < |m| && !Member(m, rq) && (id == rq || (Member(m, id) && id != m[q].id))
    ensures Distinct(m[q := Node(rq, m[q].key)])
    ensures id == rq ==> IndexOf(m[q := Node(rq, m[q].key)], id) == q
    ensures id != rq ==> IndexOf(m, id) < |m|
    ensures id != rq ==> IndexOf(m[q := Node(rq, m[q].key)], id) == IndexOf(m, id) != q
  {
    var r := m[q := Node(rq, m[q].key)];
    if id == rq {
      IndexIs(r, q);
    } else {
      MemberIndex(m, id);
      assert r[IndexOf(m, id)] == m[IndexOf(m, id)];
      IndexIs(r, IndexOf(m, id));
    }
  }

  lemma {:induction false} TakerCloser(l: seq<Node>, rq: nat, other: nat, id: nat, m: seq<Node>, q: nat)
    requires ListOk(l) && Member(l, rq) && rq != other && (id == rq || id == other)
    requires IndexOf(l, rq) < |l| && q == IndexOf(l, other) < IndexOf(l, rq) && l[q].key < l[IndexOf(l, rq)].key
    requires Distinct(m) && !Member(m, rq) && q < |m| && m[q].key == l[q].key
    ensures Closer(l, id, m[q := Node(rq, m[q].key)], rq, 0)
  {
    TakeOver(m, q, rq, rq);
  }

  lemma {:induction false} BystanderCloser(l: seq<Node>, rq: nat, other: nat, id: nat, m: seq<Node>, q: nat)
    requires ListOk(l) && Member(l, rq) && Member(l, id) && id != rq && id != other
    requires m == Drop(l, rq) && q < |m| && m[q].id == other
    ensures Closer(l, id, m[q := Node(rq, m[q].key)], id, 0)
  {
    DropOk(l, rq, rq);
    DropOk(l, rq, id);
    DropCloser(l, rq, id);
    TakeOver(m, q, rq, id);
  }

  lemma {:induction false} HurriedCloser(l: seq<Node>, rq: nat, other: nat, id: nat)
    requires ListOk(l) && Member(l, rq) && Member(l, other) && rq != other && Member(l, id)
    requires IndexOf(l, rq) < |l| && IndexOf(l, other) < |l|
    requires l[IndexOf(l, other)].key < l[IndexOf(l, rq)].key
    ensures Closer(l, id, Drop(Behind(l, rq, other), other), if id == other then rq else id, 0)
  {
    var q, m := IndexOf(l, other), Drop(l, rq);
    HurriedIs(l, rq, other, IndexOf(l, rq), q);
    DropOk(l, rq, rq);
    DropKey(l, rq, other);
    if id == rq || id == other {
      TakerCloser(l, rq, other, id, m, q);
    } else {
      BystanderCloser(l, rq, other, id, m, q);
    }
  }

  /** A request absorbed by one of equal expiry further back loses its place: there
      list_move is skipped. */
  predicate FallsBack(l: seq<Node>, rq: nat, other: nat) {
    var p, q := IndexOf(l, rq), IndexOf(l, other);
    p < |l| && q < |l| && l[p].key == l[q].key && q + 1 < p
  }

  lemma {:induction false} AbsorbedPlace(l: seq<Node>, rq: nat, other: nat)
    requires ListOk(l) && Member(l, rq) && Member(l, other) && rq != other
    requires IndexOf(l, rq) < |l| && IndexOf(l, other) < |l|
    requires l[IndexOf(l, rq)].key <= l[IndexOf(l, other)].key
    ensures Closer(l, other, Drop(l, other), rq, 0) <==> !FallsBack(l, rq, other)
  {
    DropKey(l, other, rq);
    assert IndexOf(l, other) < IndexOf(l, rq) ==> l[IndexOf(l, other)].key <= l[IndexOf(l, rq)].key;
  }

  lemma {:induction false} FifoCloser(l: seq<Node>, rq: nat, other: nat, id: nat)
    requires ListOk(l) && Member(l, rq) && Member(l, other) && rq != other && Member(l, id)
    requires IndexOf(l, rq) < |l| && IndexOf(l, other) < |l|
    ensures Closer(l, id, Drop(Hurried(l, rq, other), other), if id == other then rq else id, 0)
            <==> !(id == other && FallsBack(l, rq, other))
  {
    if l[IndexOf(l, other)].key < l[IndexOf(l, rq)].key {
      HurriedCloser(l, rq, other, id);
    } else if id == other {
      AbsorbedPlace(l, rq, other);
    } else {
      DropCloser(l, other, id);
    }
  }

  /** A merge moves nobody back but a request that falls back. */
  lemma {:induction false} MergeCloser(s: Side, rq: nat, other: nat, id: nat)
    requires ListOk(s.fifo) && Member(s.fifo, rq) && Member(s.fifo, other) && rq != other && Member(s.fifo, id)
    ensures Closer(s.fifo, id, MergedRequests(s, rq, other).fifo, if id == other then rq else id, 0)
            <==> !(id == other && FallsBack(s.fifo, rq, other))
  {
    MemberIndex(s.fifo, rq);
    MemberIndex(s.fifo, other);
    FifoCloser(s.fifo, rq, other, id);
  }

  /** The step does not push the request, or what absorbs it, back. */
  predicate KeepsPlace(q: Queue, e: Event, dir: Dir, id: nat) {
    e.Merge? && e.dir == dir && e.other == id ==> !FallsBack(q.d.Of(dir).fifo, e.rq, id)
  }

  predicate Expired(q: Queue, dir: Dir, id: nat) {
    var l := q.d.Of(dir).fifo;
    IndexOf(l, id) < |l| && l[IndexOf(l, id)].key < q.now
  }

  lemma {:induction false} HeadExpired(l: seq<Node>, k: nat)
    requires Sorted(l) && k < |l|
    ensures l[0].key <= l[k].key
  {
  }

  /** A dispatch moves nobody back, and a selection moves an expired request up. */
  lemma {:induction false} DispatchCloser(c: Config, q: Queue, dir: Dir, id: nat)
    requires Inv(c, q) && Member(q.d.Of(dir).fifo, id)
    requires Choose(c, q.now, q.d).Go? && Choose(c, q.now, q.d).dir == dir && Choose(c, q.now, q.d).id != id
    ensures Closer(q.d.Of(dir).fifo, id, Drop(q.d.Of(dir).fifo, Choose(c, q.now, q.d).id), id,
                   if Selects(c, q, Dispatch, dir) && Expired(q, dir, id) then 1 else 0)
  {
    var l, g := q.d.Of(dir).fifo, Choose(c, q.now, q.d);
    ChooseOk(c, q.now, q.d);
    DropCloser(l, g.id, id);
    MemberIndex(l, id);
    if g.selected && Expired(q, dir, id) {
      HeadExpired(l, IndexOf(l, id));
      assert g.id == l[0].id;
    }
  }

  lemma {:induction false} SameCloser(l: seq<Node>, id: nat)
    requires Member(l, id)
    ensures Closer(l, id, l, id, 0)
  {
    MemberIndex(l, id);
  }

  lemma {:induction false} DispatchNext(c: Config, q: Queue, dir: Dir, id: nat)
    requires Inv(c, q) && Member(q.d.Of(dir).fifo, id) && Member(Next(c, q, Dispatch).d.Of(dir).fifo, id)
    ensures Closer(q.d.Of(dir).fifo, id, Next(c, q, Dispatch).d.Of(dir).fifo, id,
                   if Selects(c, q, Dispatch, dir) && Expired(q, dir, id) then 1 else 0)
  {
    var l, g := q.d.Of(dir).fifo, Choose(c, q.now, q.d);
    if g.Go? && g.dir == dir {
      assert Next(c, q, Dispatch).d.Of(dir).fifo == Drop(l, g.id);
      ChooseOk(c, q.now, q.d);
      DropOk(l, g.id, id);
      DispatchCloser(c, q, dir, id);
    } else {
      SameCloser(l, id);
    }
  }

  lemma {:induction false} OtherNext(c: Config, q: Queue, e: Event, dir: Dir, id: nat)
    requires Inv(c, q) && Enabled(q, e) && Member(q.d.Of(dir).fifo, id) && KeepsPlace(q, e, dir, id)
    requires !e.Dispatch?
    ensures Closer(q.d.Of(dir).fifo, id, Next(c, q, e).d.Of(dir).fifo, Follow(e, dir, id), 0)
  {
    if e.Add? && e.dir == dir {
      AddNext(c, q, e, id);
    } else if e.Merge? && e.dir == dir {
      assert ListOk(q.d.Of(dir).fifo);
      MergeCloser(q.d.Of(dir), e.rq, e.other, id);
    } else {
      SameNext(c, q, e, dir);
      SameCloser(q.d.Of(dir).fifo, id);
    }
  }

  lemma {:induction false} AddNext(c: Config, q: Queue, e: Event, id: nat)
    requires e.Add? && Enabled(q, e) && ListOk(q.d.Of(e.dir).fifo) && Member(q.d.Of(e.dir).fifo, id)
    ensures Closer(q.d.Of(e.dir).fifo, id, Next(c, q, e).d.Of(e.dir).fifo, id, 0)
  {
    AddCloser(q.d.Of(e.dir).fifo, Node(e.id, q.now + c.Expire(e.dir)), id);
  }

  lemma {:induction false} SameNext(c: Config, q: Queue, e: Event, dir: Dir)
    requires Enabled(q, e) && !e.Dispatch? && !((e.Add? || e.Merge?) && e.dir == dir)
    ensures Next(c, q, e).d.Of(dir).fifo == q.d.Of(dir).fifo
  {
  }

  /** One step: the request is no further from its turn, and nearer by one after a
      selection of its direction once it has expired. */
  lemma {:induction false} NextCloser(c: Config, q: Queue, e: Event, dir: Dir, id: nat)
    requires Inv(c, q) && Enabled(q, e) && Member(q.d.Of(dir).fifo, id) && KeepsPlace(q, e, dir, id)
    requires Member(Next(c, q, e).d.Of(dir).fifo, Follow(e, dir, id))
    ensures Closer(q.d.Of(dir).fifo, id, Next(c, q, e).d.Of(dir).fifo, Follow(e, dir, id),
                   if Selects(c, q, e, dir) && Expired(q, dir, id) then 1 else 0)
    ensures Next(c, q, e).now >= q.now
  {
    if e.Dispatch? { DispatchNext(c, q, dir, id); } else { OtherNext(c, q, e, dir, id); }
  }

  /** The request, or what absorbed it without losing its place, is held throughout the run. */
  predicate Waits(c: Config, q: Queue, es: seq<Event>, dir: Dir, id: nat)
    requires IsRun(c, q, es)
    decreases |es|
  {
    && Member(q.d.Of(dir).fifo, id)
    && (es == [] || (KeepsPlace(q, es[0], dir, id)
      && Waits(c, Next(c, q, es[0]), es[1..], dir, Follow(es[0], dir, id))))
  }

  /** An expired request with k ahead of it in its fifo is still there after a run
      only if its direction was selected at most k times. */
  lemma {:induction false} ExpiredGoes(c: Config, q: Queue, es: seq<Event>, dir: Dir, id: nat)
    requires Inv(c, q) && IsRun(c, q, es) && Waits(c, q, es, dir, id) && Expired(q, dir, id)
    ensures Selections(c, q, es, dir) <= IndexOf(q.d.Of(dir).fifo, id)
    decreases |es|
  {
    if es != [] {
      NextKeeps(c, q, es[0]);
      NextCloser(c, q, es[0], dir, id);
      ExpiredGoes(c, Next(c, q, es[0]), es[1..], dir, Follow(es[0], dir, id));
    }
  }

  // ----- without any condition -----

  /** Requests of the fifo that expire no later than t. */
  function CountBy(l: seq<Node>, t: nat): nat {
    if l == [] then 0 else (if l[0].key <= t then 1 else 0) + CountBy(l[1..], t)
  }

  lemma {:induction false} CountSplit(a: seq<Node>, b: seq<Node>, t: nat)
    ensures CountBy(a + b, t) == CountBy(a, t) + CountBy(b, t)
  {
    if a == [] {
      assert a + b == b;
    } else {
      assert (a + b)[1..] == a[1..] + b;
      CountSplit(a[1..], b, t);
    }
  }

  lemma {:induction false} CountOne(n: Node, t: nat)
    ensures CountBy([n], t) == if n.key <= t then 1 else 0
  {
    assert [n][1..] == [];
  }

  lemma {:induction false} CountAt(l: seq<Node>, i: nat, t: nat)
    requires i < |l|
    ensures CountBy(l, t) == CountBy(l[..i], t) + (if l[i].key <= t then 1 else 0) + CountBy(l[i + 1..], t)
  {
    assert l == l[..i] + ([l[i]] + l[i + 1..]);
    CountSplit(l[..i], [l[i]] + l[i + 1..], t);
    CountSplit([l[i]], l[i + 1..], t);
    CountOne(l[i], t);
  }

  lemma {:induction false} CountRemove(l: seq<Node>, i: nat, t: nat)
    requires i < |l|
    ensures CountBy(Remove(l, i), t) == CountBy(l, t) - if l[i].key <= t then 1 else 0
  {
    CountAt(l, i, t);
    CountSplit(l[..i], l[i + 1..], t);
  }

  lemma {:induction false} CountUpdate(l: seq<Node>, i: nat, n: Node, t: nat)
    requires i < |l| && n.key == l[i].key
    ensures CountBy(l[i := n], t) == CountBy(l, t)
  {
    CountAt(l, i, t);
    CountAt(l[i := n], i, t);
    assert l[i := n][..i] == l[..i] && l[i := n][i + 1..] == l[i + 1..];
  }

  lemma {:induction false} CountMono(l: seq<Node>, t: nat, u: nat)
    requires t <= u
    ensures CountBy(l, t) <= CountBy(l, u)
  {
    if l != [] { CountMono(l[1..], t, u); }
  }

  /** The expiry of a request. */
  function KeyOf(l: seq<Node>, id: nat): nat
    requires Member(l, id)
  {
    MemberIndex(l, id);
    l[IndexOf(l, id)].key
  }

  /** The request is due no later than before, and n fewer are due no later than it was. */
  predicate Sooner(was: seq<Node>, id: nat, l: seq<Node>, id': nat, n: nat) {
    Member(was, id) && Member(l, id') && KeyOf(l, id') <= KeyOf(was, id)
    && CountBy(l, KeyOf(was, id)) + n <= CountBy(was, KeyOf(was, id))
  }

  lemma {:induction false} DropSooner(l: seq<Node>, gone: nat, id: nat)
    requires Distinct(l) && Member(l, gone) && Member(l, id) && id != gone
    ensures Sooner(l, id, Drop(l, gone), id, if KeyOf(l, gone) <= KeyOf(l, id) then 1 else 0)
  {
    DropKey(l, gone, id);
    MemberIndex(l, gone);
    CountRemove(l, IndexOf(l, gone), KeyOf(l, id));
  }

  /** A request that is absorbed, or absorbs, or looks on while another takes the earlier place. */
  lemma {:induction false} HurriedSooner(l: seq<Node>, rq: nat, other: nat, id: nat)
    requires ListOk(l) && Member(l, rq) && Member(l, other) && rq != other && Member(l, id)
    requires KeyOf(l, other) < KeyOf(l, rq)
    ensures IndexOf(l, other) < |l|
    ensures Sooner(l, id, Drop(Behind(l, rq, other), other), if id == other then rq else id, 0)
  {
    MemberIndex(l, rq);
    MemberIndex(l, other);
    MemberIndex(l, id);
    HurriedCloser(l, rq, other, id);
    var q, m, t := IndexOf(l, other), Drop(l, rq), KeyOf(l, id);
    HurriedIs(l, rq, other, IndexOf(l, rq), q);
    DropKey(l, rq, other);
    CountRemove(l, IndexOf(l, rq), t);
    CountUpdate(m, q, Node(rq, l[q].key), t);
    IndexMember(Drop(Behind(l, rq, other), other), if id == other then rq else id);
  }

  lemma {:induction false} IndexMember(l: seq<Node>, id: nat)
    requires IndexOf(l, id) < |l|
    ensures Member(l, id)
  {
    assert l[IndexOf(l, id)].id == id;
  }

  lemma {:induction false} MergeSooner(s: Side, rq: nat, other: nat, id: nat)
    requires ListOk(s.fifo) && Member(s.fifo, rq) && Member(s.fifo, other) && rq != other && Member(s.fifo, id)
    ensures Sooner(s.fifo, id, MergedRequests(s, rq, other).fifo, if id == other then rq else id, 0)
  {
    var l := s.fifo;
    MemberIndex(l, rq);
    MemberIndex(l, other);
    if KeyOf(l, other) < KeyOf(l, rq) {
      HurriedSooner(l, rq, other, id);
    } else if id == other {
      DropKey(l, other, rq);
      CountRemove(l, IndexOf(l, other), KeyOf(l, other));
    } else {
      DropSooner(l, other, id);
    }
  }

  lemma {:induction false} AddSooner(l: seq<Node>, n: Node, id: nat)
    requires Distinct(l) && !Member(l, n.id) && Member(l, id) && KeyOf(l, id) < n.key
    ensures Sooner(l, id, Insert(l, |l|, n), id, 0)
  {
    var r := Insert(l, |l|, n);
    AddCloser(l, n, id);
    IndexMember(r, id);
    assert r == l + [n];
    CountSplit(l, [n], KeyOf(l, id));
    CountOne(n, KeyOf(l, id));
  }

  lemma {:induction false} SelectSooner(c: Config, q: Queue, dir: Dir, id: nat)
    requires Inv(c, q) && Member(q.d.Of(dir).fifo, id) && Expired(q, dir, id)
    requires Choose(c, q.now, q.d).Go? && Choose(c, q.now, q.d).dir == dir && Choose(c, q.now, q.d).id != id
    ensures Sooner(q.d.Of(dir).fifo, id, Drop(q.d.Of(dir).fifo, Choose(c, q.now, q.d).id), id,
                   if Selects(c, q, Dispatch, dir) then 1 else 0)
  {
    var l, g := q.d.Of(dir).fifo, Choose(c, q.now, q.d);
    ChooseOk(c, q.now, q.d);
    DropSooner(l, g.id, id);
    MemberIndex(l, id);
    if g.selected {
      HeadExpired(l, IndexOf(l, id));
      assert g.id == l[0].id;
      IndexIs(l, 0);
      assert KeyOf(l, g.id) == l[0].key;
    }
  }

  /** One step, for an expired request: it stays expired, and a selection of its
      direction takes one of those due no later. */
  lemma {:induction false} NextSooner(c: Config, q: Queue, e: Event, dir: Dir, id: nat)
    requires Inv(c, q) && Enabled(q, e) && Member(q.d.Of(dir).fifo, id) && Expired(q, dir, id)
    requires Member(Next(c, q, e).d.Of(dir).fifo, Follow(e, dir, id))
    ensures Sooner(q.d.Of(dir).fifo, id, Next(c, q, e).d.Of(dir).fifo, Follow(e, dir, id),
                   if Selects(c, q, e, dir) then 1 else 0)
  {
    if e.Dispatch? {
      DispatchSooner(c, q, dir, id);
    } else {
      OtherSooner(c, q, e, dir, id);
    }
  }

  lemma {:induction false} SameSooner(l: seq<Node>, id: nat)
    requires Member(l, id)
    ensures Sooner(l, id, l, id, 0)
  {
  }

  lemma {:induction false} DispatchSooner(c: Config, q: Queue, dir: Dir, id: nat)
    requires Inv(c, q) && Member(q.d.Of(dir).fifo, id) && Expired(q, dir, id)
    requires Member(Next(c, q, Dispatch).d.Of(dir).fifo, id)
    ensures Sooner(q.d.Of(dir).fifo, id, Next(c, q, Dispatch).d.Of(dir).fifo, id,
                   if Selects(c, q, Dispatch, dir) then 1 else 0)
  {
    var l, g := q.d.Of(dir).fifo, Choose(c, q.now, q.d);
    if g.Go? && g.dir == dir {
      assert Next(c, q, Dispatch).d.Of(dir).fifo == Drop(l, g.id);
      ChooseOk(c, q.now, q.d);
      DropOk(l, g.id, id);
      SelectSooner(c, q, dir, id);
    } else {
      SameSooner(l, id);
    }
  }

  lemma {:induction false} OtherSooner(c: Config, q: Queue, e: Event, dir: Dir, id: nat)
    requires Inv(c, q) && Enabled(q, e) && !e.Dispatch? && Member(q.d.Of(dir).fifo, id) && Expired(q, dir, id)
    ensures Sooner(q.d.Of(dir).fifo, id, Next(c, q, e).d.Of(dir).fifo, Follow(e, dir, id), 0)
  {
    var l := q.d.Of(dir).fifo;
    if e.Add? && e.dir == dir {
      AddSooner(l, Node(e.id, q.now + c.Expire(dir)), id);
    } else if e.Merge? && e.dir == dir {
      MergeSooner(q.d.Of(dir), e.rq, e.other, id);
    } else {
      SameNext(c, q, e, dir);
      SameSooner(l, id);
    }
  }

  /** The request, or what absorbed it, is held throughout the run. */
  predicate Remains(c: Config, q: Queue, es: seq<Event>, dir: Dir, id: nat)
    requires IsRun(c, q, es)
    decreases |es|
  {
    && Member(q.d.Of(dir).fifo, id)
    && (es == [] || Remains(c, Next(c, q, es[0]), es[1..], dir, Follow(es[0], dir, id)))
  }

  /** Whatever is merged, an expired request goes within as many selections of its
      direction as there are requests that expire no later, itself included. */
  lemma {:induction false} ExpiredGoesAnyway(c: Config, q: Queue, es: seq<Event>, dir: Dir, id: nat)
    requires Inv(c, q) && IsRun(c, q, es) && Remains(c, q, es, dir, id) && Expired(q, dir, id)
    ensures Selections(c, q, es, dir) < CountBy(q.d.Of(dir).fifo, KeyOf(q.d.Of(dir).fifo, id))
    decreases |es|
  {
    var l := q.d.Of(dir).fifo;
    MemberIndex(l, id);
    CountAt(l, IndexOf(l, id), KeyOf(l, id));
    if es != [] {
      var r, id' := Next(c, q, es[0]), Follow(es[0], dir, id);
      NextKeeps(c, q, es[0]);
      NextSooner(c, q, es[0], dir, id);
      MemberIndex(r.d.Of(dir).fifo, id');
      CountMono(r.d.Of(dir).fifo, KeyOf(r.d.Of(dir).fifo, id'), KeyOf(l, id));
      ExpiredGoesAnyway(c, r, es[1..], dir, id');
    }
  }

  // ----- when a request falls back -----

  /** A run of dispatches each of which selects the direction anew. */
  predicate AllSelect(c: Config, q: Queue, es: seq<Event>, dir: Dir)
    requires IsRun(c, q, es)
    decreases |es|
  {
    es == [] || (Selects(c, q, es[0], dir) && AllSelect(c, Next(c, q, es[0]), es[1..], dir))
  }

  /** A selection takes the head of the fifo ahead of an expired request, and no other. */
  lemma {:induction false} SelectedHead(c: Config, q: Queue, dir: Dir, id: nat, r: Queue)
    requires Inv(c, q) && Expired(q, dir, id) && Selects(c, q, Dispatch, dir) && r == Next(c, q, Dispatch)
    requires IndexOf(q.d.Of(dir).fifo, id) >= 1
    ensures Expired(r, dir, id) && IndexOf(r.d.Of(dir).fifo, id) == IndexOf(q.d.Of(dir).fifo, id) - 1
  {
    var l, g := q.d.Of(dir).fifo, Choose(c, q.now, q.d);
    HeadExpired(l, IndexOf(l, id));
    assert g.id == l[0].id && r.d.Of(dir).fifo == Drop(l, l[0].id);
    assert ListOk(l);
    FirstMember(l);
    IndexIs(l, 0);
    IndexMember(l, id);
    DropKey(l, l[0].id, id);
  }

  /** An expired request outlasts as many selections of its direction as are ahead of it. */
  lemma {:induction false} OutlastsAhead(c: Config, q: Queue, es: seq<Event>, dir: Dir, id: nat)
    requires Inv(c, q) && IsRun(c, q, es) && AllSelect(c, q, es, dir) && Expired(q, dir, id)
    requires |es| <= IndexOf(q.d.Of(dir).fifo, id)
    ensures Remains(c, q, es, dir, id) && Selections(c, q, es, dir) == |es|
    decreases |es|
  {
    IndexMember(q.d.Of(dir).fifo, id);
    if es != [] {
      NextKeeps(c, q, es[0]);
      SelectedHead(c, q, dir, id, Next(c, q, es[0]));
      OutlastsAhead(c, Next(c, q, es[0]), es[1..], dir, id);
    }
  }

  /** A request that falls back is behind more than were ahead of it. */
  lemma {:induction false} FallenPlace(s: Side, rq: nat, id: nat)
    requires ListOk(s.fifo) && Member(s.fifo, rq) && Member(s.fifo, id) && rq != id && FallsBack(s.fifo, rq, id)
    ensures var l := MergedRequests(s, rq, id).fifo;
      IndexOf(s.fifo, id) + 1 <= IndexOf(l, rq) < |l|
      && l[IndexOf(l, rq)].key == s.fifo[IndexOf(s.fifo, id)].key
  {
    DropKey(s.fifo, id, rq);
  }

  /** Where ExpiredGoes stops: an expired request with k ahead of it that falls back
      outlasts k + 1 selections of its direction, if they follow at once. */
  lemma {:induction false} FallenWaits(c: Config, q: Queue, dir: Dir, rq: nat, id: nat, r: Queue, es: seq<Event>)
    requires Inv(c, q) && Enabled(q, Merge(dir, rq, id)) && r == Next(c, q, Merge(dir, rq, id))
    requires Expired(q, dir, id) && FallsBack(q.d.Of(dir).fifo, rq, id)
    requires IsRun(c, r, es) && AllSelect(c, r, es, dir) && |es| <= IndexOf(q.d.Of(dir).fifo, id) + 1
    ensures Remains(c, r, es, dir, rq) && Selections(c, r, es, dir) == |es|
  {
    NextKeeps(c, q, Merge(dir, rq, id));
    assert ListOk(q.d.Of(dir).fifo);
    FallenPlace(q.d.Of(dir), rq, id);
    OutlastsAhead(c, r, es, dir, rq);
  }

  lemma {:induction false} AllSelectCounts(c: Config, q: Queue, es: seq<Event>, dir: Dir, id: nat)
    requires IsRun(c, q, es) && AllSelect(c, q, es, dir)
    ensures Selections(c, q, es, dir) == |es| && (Remains(c, q, es, dir, id) ==> Waits(c, q, es, dir, id))
    decreases |es|
  {
    if es != [] { AllSelectCounts(c, Next(c, q, es[0]), es[1..], dir, id); }
  }

  /** When k + 1 selections of its direction follow the merge that absorbs an expired
      request with k ahead of it, it is still there exactly if it fell back. */
  lemma {:induction false} FallenExact(c: Config, q: Queue, dir: Dir, rq: nat, id: nat, r: Queue, es: seq<Event>)
    requires Inv(c, q) && Enabled(q, Merge(dir, rq, id)) && r == Next(c, q, Merge(dir, rq, id)) && Expired(q, dir, id)
    requires IsRun(c, r, es) && AllSelect(c, r, es, dir) && |es| == IndexOf(q.d.Of(dir).fifo, id) + 1
    ensures Remains(c, r, es, dir, rq) <==> FallsBack(q.d.Of(dir).fifo, rq, id)
  {
    if FallsBack(q.d.Of(dir).fifo, rq, id) {
      FallenWaits(c, q, dir, rq, id, r, es);
    } else if Remains(c, r, es, dir, rq) {
      NextKeeps(c, q, Merge(dir, rq, id));
      NextCloser(c, q, Merge(dir, rq, id), dir, id);
      AllSelectCounts(c, r, es, dir, rq);
      ExpiredGoes(c, r, es, dir, rq);
    }
  }
}
