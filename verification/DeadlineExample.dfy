/** A run of the deadline scheduler in which an expired request waits longer than
    its place in the fifo says, because a later one of equal expiry absorbs it. */
module DeadlineExample {

  import opened ServiceTree
  import opened Options
  import opened Deadline
  import opened DeadlineRun
  import opened DeadlineWaiting

  /** Three reads added in one tick, of sectors 8, 100 and 0, eight sectors each. */
  const EAGER: Config := Config(10, 50, 16, 2)
  const FIRST_THREE: seq<Event> := [Add(Read, 0, 8), Add(Read, 1, 100), Add(Read, 2, 0), Tick(11)]
  const FIFO_THREE: seq<Node> := [Node(0, 10), Node(1, 10), Node(2, 10)]
  const SORT_THREE: seq<Node> := [Node(2, 0), Node(0, 8), Node(1, 100)]

  lemma {:induction false} AddFirst(q: Queue, r: Queue)
    requires q == START && r == Queue(0, Data(Side([Node(0, 10)], [Node(0, 8)], None), NO_SIDE, 0, 0), 1, [])
    ensures Enabled(q, Add(Read, 0, 8)) && Next(EAGER, q, Add(Read, 0, 8)) == r
  {
    assert Place([], 8) == 0;
    assert Insert([], 0, Node(0, 10)) == [Node(0, 10)] && Insert([], 0, Node(0, 8)) == [Node(0, 8)];
  }

  lemma {:induction false} AddSecond(q: Queue, r: Queue)
    requires q == Queue(0, Data(Side([Node(0, 10)], [Node(0, 8)], None), NO_SIDE, 0, 0), 1, [])
    requires r == Queue(0, Data(Side([Node(0, 10), Node(1, 10)], [Node(0, 8), Node(1, 100)], None), NO_SIDE, 0, 0),
                        2, [])
    ensures Enabled(q, Add(Read, 1, 100)) && Next(EAGER, q, Add(Read, 1, 100)) == r
  {
    assert Place([Node(0, 8)], 100) == 1;
    assert Insert([Node(0, 10)], 1, Node(1, 10)) == [Node(0, 10), Node(1, 10)];
    assert Insert([Node(0, 8)], 1, Node(1, 100)) == [Node(0, 8), Node(1, 100)];
  }

  lemma {:induction false} AddThird(q: Queue, r: Queue)
    requires q == Queue(0, Data(Side([Node(0, 10), Node(1, 10)], [Node(0, 8), Node(1, 100)], None), NO_SIDE, 0, 0),
                        2, [])
    requires r == Queue(0, Data(Side(FIFO_THREE, SORT_THREE, None), NO_SIDE, 0, 0), 3, [])
    ensures Enabled(q, Add(Read, 2, 0)) && Next(EAGER, q, Add(Read, 2, 0)) == r
  {
    assert Place([Node(0, 8), Node(1, 100)], 0) == 0;
    assert Insert([Node(0, 10), Node(1, 10)], 2, Node(2, 10)) == FIFO_THREE;
    assert Insert([Node(0, 8), Node(1, 100)], 0, Node(2, 0)) == SORT_THREE;
  }

  lemma {:induction false} DropIs(l: seq<Node>, k: nat, r: seq<Node>)
    requires Distinct(l) && k < |l| && r == l[..k] + l[k + 1..]
    ensures Drop(l, l[k].id) == r && Member(l, l[k].id)
  {
    IndexIs(l, k);
  }

  /** With equal expiry the fifo is not reordered. */
  lemma {:induction false} EqualKeys(l: seq<Node>, rq: nat, other: nat)
    requires Member(l, rq) && Member(l, other) && forall i :: 0 <= i < |l| ==> l[i].key == l[0].key
    ensures IndexOf(l, rq) < |l| && IndexOf(l, other) < |l| && Hurried(l, rq, other) == l
  {
    MemberIndex(l, rq);
    MemberIndex(l, other);
  }

  lemma {:induction false} EqualMerge(s: Side, rq: nat, other: nat)
    requires Member(s.fifo, rq) && Member(s.fifo, other) && s.next == None
    requires forall i :: 0 <= i < |s.fifo| ==> s.fifo[i].key == s.fifo[0].key
    ensures MergedRequests(s, rq, other) == Side(Drop(s.fifo, other), Drop(s.sort, other), None)
  {
    EqualKeys(s.fifo, rq, other);
  }

  lemma {:induction false} MergeFirst(s: Side)
    requires s == Side(FIFO_THREE, SORT_THREE, None)
    ensures Member(s.fifo, 2) && Member(s.fifo, 0)
    ensures MergedRequests(s, 2, 0) == Side([Node(1, 10), Node(2, 10)], [Node(2, 0), Node(1, 100)], None)
  {
    assert Drop(s.fifo, 0) == [Node(1, 10), Node(2, 10)] && Member(s.fifo, 0) by {
      DropIs(s.fifo, 0, [Node(1, 10), Node(2, 10)]);
    }
    assert Member(s.fifo, 2) by { HasThird(s.fifo); }
    assert Drop(s.sort, 0) == [Node(2, 0), Node(1, 100)] by { DropIs(s.sort, 1, [Node(2, 0), Node(1, 100)]); }
    EqualMerge(s, 2, 0);
  }

  lemma {:induction false} HasThird(l: seq<Node>)
    requires |l| > 2
    ensures Member(l, l[2].id)
  {
  }

  lemma {:induction false} RunToThree() returns (q: Queue)
    ensures IsRun(EAGER, START, FIRST_THREE) && q == After(EAGER, START, FIRST_THREE) == HELD_THREE
  {
    var q1 := Queue(0, Data(Side([Node(0, 10)], [Node(0, 8)], None), NO_SIDE, 0, 0), 1, []);
    var q2 := Queue(0, Data(Side([Node(0, 10), Node(1, 10)], [Node(0, 8), Node(1, 100)], None), NO_SIDE, 0, 0), 2, []);
    var q3 := Queue(0, Data(Side(FIFO_THREE, SORT_THREE, None), NO_SIDE, 0, 0), 3, []);
    q := HELD_THREE;
    AddFirst(START, q1);
    AddSecond(q1, q2);
    AddThird(q2, q3);
    RunThree(q1, q2, q3, q);
  }

  const HELD_THREE: Queue := Queue(11, Data(Side(FIFO_THREE, SORT_THREE, None), NO_SIDE, 0, 0), 3, [])

  lemma {:induction false} RunCons(c: Config, q: Queue, e: Event, es: seq<Event>, r: Queue)
    requires Enabled(q, e) && r == Next(c, q, e) && IsRun(c, r, es)
    ensures IsRun(c, q, [e] + es) && After(c, q, [e] + es) == After(c, r, es)
  {
    assert ([e] + es)[1..] == es;
  }

  lemma {:induction false} WaitCons(c: Config, q: Queue, e: Event, es: seq<Event>, r: Queue, dir: Dir, id: nat)
    requires Enabled(q, e) && r == Next(c, q, e) && IsRun(c, r, es) && IsRun(c, q, [e] + es)
    requires Member(q.d.Of(dir).fifo, id) && Remains(c, r, es, dir, Follow(e, dir, id))
    ensures Remains(c, q, [e] + es, dir, id)
    ensures Selections(c, q, [e] + es, dir) == (if Selects(c, q, e, dir) then 1 else 0) + Selections(c, r, es, dir)
  {
    assert ([e] + es)[1..] == es;
  }

  lemma {:induction false} RunThree(q1: Queue, q2: Queue, q3: Queue, q: Queue)
    requires Enabled(START, Add(Read, 0, 8)) && Next(EAGER, START, Add(Read, 0, 8)) == q1
    requires Enabled(q1, Add(Read, 1, 100)) && Next(EAGER, q1, Add(Read, 1, 100)) == q2
    requires Enabled(q2, Add(Read, 2, 0)) && Next(EAGER, q2, Add(Read, 2, 0)) == q3 && q == Next(EAGER, q3, Tick(11))
    ensures IsRun(EAGER, START, FIRST_THREE) && After(EAGER, START, FIRST_THREE) == q
  {
    RunCons(EAGER, q3, Tick(11), [], q);
    RunCons(EAGER, q2, Add(Read, 2, 0), [Tick(11)] + [], q3);
    RunCons(EAGER, q1, Add(Read, 1, 100), [Add(Read, 2, 0)] + ([Tick(11)] + []), q2);
    RunCons(EAGER, START, Add(Read, 0, 8), [Add(Read, 1, 100)] + ([Add(Read, 2, 0)] + ([Tick(11)] + [])), q1);
    assert [Add(Read, 0, 8)] + ([Add(Read, 1, 100)] + ([Add(Read, 2, 0)] + ([Tick(11)] + []))) == FIRST_THREE;
  }

  /** With reads only and no batch the head of the fifo is selected. */
  lemma {:induction false} PickHead(c: Config, q: Queue, t: Queue)
    requires q.d.wr.fifo == [] && q.d.rd.next == None && q.d.wr.next == None && q.d.rd.fifo != []
      && Distinct(q.d.rd.fifo)
    requires t == Next(c, q, Dispatch)
    ensures Selects(c, q, Dispatch, Read) && t.out == q.out + [q.d.rd.fifo[0].id] && t.d.rd.fifo == q.d.rd.fifo[1..]
  {
    DropIs(q.d.rd.fifo, 0, q.d.rd.fifo[1..]);
  }

  lemma {:induction false} PickSecond(r: Queue, t: Queue)
    requires r == LEFT_TWO && t == Next(EAGER, r, Dispatch)
    ensures Selects(EAGER, r, Dispatch, Read) && t.out == [1] && Member(t.d.rd.fifo, 2) && Member(r.d.rd.fifo, 2)
  {
    PickHead(EAGER, r, t);
    HasSecond(r.d.rd.fifo);
    assert t.d.rd.fifo[0].id == 2;
  }

  lemma {:induction false} HasSecond(l: seq<Node>)
    requires |l| > 1
    ensures Member(l, l[1].id)
  {
  }

  lemma {:induction false} FallsFirst()
    ensures IndexOf(FIFO_THREE, 0) == 0 && FallsBack(FIFO_THREE, 2, 0) && Member(FIFO_THREE, 0)
  {
    assert FIFO_THREE[0].id == 0 && FIFO_THREE[2].id == 2;
    IndexIs(FIFO_THREE, 0);
    IndexIs(FIFO_THREE, 2);
  }

  const LEFT_TWO: Queue :=
    Queue(11, Data(Side([Node(1, 10), Node(2, 10)], [Node(2, 0), Node(1, 100)], None), NO_SIDE, 0, 0), 2, [])

  lemma {:induction false} MergeStep(q: Queue)
    requires q == HELD_THREE
    ensures Enabled(q, Merge(Read, 2, 0)) && Next(EAGER, q, Merge(Read, 2, 0)) == LEFT_TWO
  {
    MergeFirst(q.d.rd);
  }

  lemma {:induction false} LastStep(r: Queue)
    requires r == LEFT_TWO
    ensures IsRun(EAGER, r, [Dispatch]) && Remains(EAGER, r, [Dispatch], Read, 2)
    ensures Selections(EAGER, r, [Dispatch], Read) == 1 && After(EAGER, r, [Dispatch]).out == [1]
  {
    var t := Next(EAGER, r, Dispatch);
    PickSecond(r, t);
    RunCons(EAGER, r, Dispatch, [], t);
    WaitCons(EAGER, r, Dispatch, [], t, Read, 2);
    assert [Dispatch] + [] == [Dispatch];
  }

  lemma {:induction false} WaitTwo(q: Queue, e: Event, r: Queue, es: seq<Event>)
    requires Enabled(q, e) && Next(EAGER, q, e) == r && IsRun(EAGER, r, es) && Remains(EAGER, r, es, Read, 2)
    requires e == Merge(Read, 2, 0) && Member(q.d.rd.fifo, 0)
    ensures IsRun(EAGER, q, [e] + es) && Remains(EAGER, q, [e] + es, Read, 0)
    ensures Selections(EAGER, q, [e] + es, Read) == Selections(EAGER, r, es, Read)
    ensures After(EAGER, q, [e] + es) == After(EAGER, r, es)
  {
    RunCons(EAGER, q, e, es, r);
    WaitCons(EAGER, q, e, es, r, Read, 0);
  }

  lemma {:induction false} Absorbs(q: Queue) returns (es: seq<Event>)
    requires q == HELD_THREE
    ensures Expired(q, Read, 0) && IndexOf(q.d.rd.fifo, 0) == 0 && FallsBack(q.d.rd.fifo, 2, 0)
    ensures |es| == 2 && es[0] == Merge(Read, 2, 0) && es[1] == Dispatch
    ensures IsRun(EAGER, q, es) && Remains(EAGER, q, es, Read, 0)
    ensures Selections(EAGER, q, es, Read) == 1 && After(EAGER, q, es).out == [1]
  {
    FallsFirst();
    MergeStep(q);
    LastStep(LEFT_TWO);
    WaitTwo(q, Merge(Read, 2, 0), LEFT_TWO, [Dispatch]);
    es := [Merge(Read, 2, 0)] + [Dispatch];
  }

  /** The first of them, expired and with none ahead of it, is absorbed by the third,
      which ends where it starts; the next selection of its direction takes the second.
      So it is still there after one selection: the bound of ExpiredGoes is not met. */
  lemma {:induction false} AbsorbedMayWait() returns (q: Queue, es: seq<Event>)
    ensures IsRun(EAGER, START, FIRST_THREE) && q == After(EAGER, START, FIRST_THREE)
    ensures Expired(q, Read, 0) && IndexOf(q.d.rd.fifo, 0) == 0 && FallsBack(q.d.rd.fifo, 2, 0)
    ensures |es| == 2 && es[0] == Merge(Read, 2, 0) && es[1] == Dispatch
    ensures IsRun(EAGER, q, es) && Remains(EAGER, q, es, Read, 0)
    ensures Selections(EAGER, q, es, Read) == 1 && After(EAGER, q, es).out == [1]
  {
    q := RunToThree();
    es := Absorbs(q);
  }
}
