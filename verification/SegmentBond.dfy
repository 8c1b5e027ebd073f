/** The segment count of two requests that are merged (ll_merge_requests_fn of
    block/blk-merge.c). */
module SegmentBond {
  import opened Bios
  import opened Layout
  import opened Segments
  import opened SegmentMerge

  /** Two addresses lie in one of the windows that a segment must not leave. */
  ghost predicate OneWindow(q: Limits, a: nat, b: nat) {
    exists w: nat :: InWindow(q, w, a) && InWindow(q, w, b)
  }

  predicate InWindow(q: Limits, w: nat, a: nat) { w * q.boundary <= a < (w + 1) * q.boundary }

  lemma {:induction false} InWindowIs(q: Limits, w: nat, a: nat)
    requires q.Ok()
    ensures InWindow(q, w, a) <==> Window(q, a) == w
    decreases a
  {
    if q.boundary <= a {
      if w > 0 {
        InWindowIs(q, w - 1, a - q.boundary);
        assert (w - 1) * q.boundary == w * q.boundary - q.boundary
            && (w + 1) * q.boundary == w * q.boundary + q.boundary;
      } else {
        WindowMono(q, 0, a - q.boundary);
      }
    } else if w > 0 {
      assert w * q.boundary >= q.boundary;
    }
  }

  lemma {:induction false} OneWindowIs(q: Limits, a: nat, b: nat)
    requires q.Ok()
    ensures OneWindow(q, a, b) <==> Window(q, a) == Window(q, b)
  {
    WindowMono(q, 0, a);
    WindowMono(q, 0, b);
    InWindowIs(q, Window(q, a), a);
    InWindowIs(q, Window(q, a), b);
    if OneWindow(q, a, b) {
      var w: nat :| InWindow(q, w, a) && InWindow(q, w, b);
      InWindowIs(q, w, a);
      InWindowIs(q, w, b);
    }
  }

  /** The last bytes of b and the first of c are neighbours in memory, in one boundary
      window, and the segments they are in fit into one. */
  ghost predicate EndsMeet(q: Limits, b: Bio, c: Bio)
    requires q.Ok() && Live(b) != [] && Live(c) != []
  {
    var v, w := Live(b)[|Live(b)| - 1], Live(c)[0];
    && q.cluster && b.back + c.front <= q.maxSize && v.addr + v.len == w.addr
    && 0 < w.addr + w.len && OneWindow(q, v.addr, w.addr + w.len - 1)
  }

  /** Count the segments of two requests together; ends that meet share one, and the
      cached sizes of a request with a single segment grow by it. */
  method BondBios(q: Limits, s: seq<Bio>, n: nat, ghost ls: nat, ghost cs: seq<bool>,
                  t: seq<Bio>, m: nat, ghost lt: nat, ghost ds: seq<bool>)
    returns (s': seq<Bio>, t': seq<Bio>, total: nat, ghost es: seq<bool>)
    requires Good(q, s, n, ls, cs) && Good(q, t, m, lt, ds) && Live(s[|s| - 1]) != [] && Live(t[0]) != []
    ensures Good(q, s', n, ls, cs) && Good(q, t', m, lt, ds) && Vecs(s') == Vecs(s) && Vecs(t') == Vecs(t)
    ensures Good(q, s' + t', total, ls + lt, es)
    ensures total + (if EndsMeet(q, s[|s| - 1], t[0]) then 1 else 0) == n + m
  {
    SomeSegments(q, s, n, ls, cs);
    SomeSegments(q, t, m, lt, ds);
    assert Positive(Live(t[0]));
    MeetExactly(q, s[|s| - 1], t[0]);
    var joins := Contiguous(q, s[|s| - 1], t[0]);
    if joins {
      var size := s[|s| - 1].back + t[0].front;
      s', t' := WithFront(s, n == 1, size), WithBack(t, m == 1, size);
      total, es := n + m - 1, cs + ds[0 := false];
      BondGood(q, s, n, ls, cs, t, m, lt, ds, joins, size, s', t', total, es);
    } else {
      s', t', total, es := s, t, n + m, cs + ds;
      AppendGood(q, s', n, ls, cs, t', m, lt, ds, total, es);
    }
  }

  lemma {:induction false} MeetExactly(q: Limits, b: Bio, c: Bio)
    requires q.Ok() && Live(b) != [] && Live(c) != [] && 0 < Live(c)[0].len
    ensures EndsMeet(q, b, c) == Contiguous(q, b, c)
  {
    var v, w := Live(b)[|Live(b)| - 1], Live(c)[0];
    OneWindowIs(q, v.addr, w.addr + w.len - 1);
  }

  lemma {:induction false} SomeSegments(q: Limits, s: seq<Bio>, n: nat, ls: nat, cs: seq<bool>)
    requires Good(q, s, n, ls, cs)
    ensures 1 <= n && cs != []
  {
    FirstCut(q, Vecs(s), cs, |Vecs(s)|);
  }

  lemma {:induction false} AppendGood(q: Limits, s: seq<Bio>, n: nat, ls: nat, cs: seq<bool>, t: seq<Bio>, m: nat,
                                      lt: nat, ds: seq<bool>, total: nat, es: seq<bool>)
    requires Good(q, s, n, ls, cs) && Good(q, t, m, lt, ds) && total == n + m && es == cs + ds
    ensures Good(q, s + t, total, ls + lt, es)
  {
    StandsBeside(q, Vecs(s), n, cs, s[0].front, s[|s| - 1].back, Vecs(t), m, ds, t[0].front, t[|t| - 1].back);
    GoodAppend(q, s, ls, t, lt, total, es);
  }

  /** Two requests that share a segment, with the sizes written: each is still
      good on its own, and so is their concatenation with one segment less. */
  lemma {:induction false} BondGood(q: Limits, s: seq<Bio>, n: nat, ls: nat, cs: seq<bool>, t: seq<Bio>, m: nat,
                                    lt: nat, ds: seq<bool>, joins: bool, size: nat, s': seq<Bio>, t': seq<Bio>,
                                    total: nat, es: seq<bool>)
    requires Good(q, s, n, ls, cs) && Good(q, t, m, lt, ds)
    requires Live(s[|s| - 1]) != [] && Live(t[0]) != [] && joins && joins == Contiguous(q, s[|s| - 1], t[0])
    requires size == s[|s| - 1].back + t[0].front
    requires s' == WithFront(s, n == 1, size) && t' == WithBack(t, m == 1, size)
    requires total + 1 == n + m && ds != [] && es == cs + ds[0 := false]
    ensures Good(q, s', n, ls, cs) && Good(q, t', m, lt, ds) && Vecs(s') == Vecs(s) && Vecs(t') == Vecs(t)
    ensures Good(q, s' + t', total, ls + lt, es)
  {
    FrontGood(q, s, n, ls, cs, size, s');
    BackGood(q, t, m, lt, ds, size, t');
    DataVecs(s);
    DataVecs(t);
    BondWhole(q, s, n, ls, cs, t, m, lt, ds, joins, size, s', t', total, es);
  }

  /** The cached sizes ll_merge_requests_fn writes still bound the segments, also
      when it then refuses the merge. */
  lemma {:induction false} FrontGood(q: Limits, s: seq<Bio>, n: nat, ls: nat, cs: seq<bool>, size: nat, s': seq<Bio>)
    requires Good(q, s, n, ls, cs) && s[|s| - 1].back <= size && s' == WithFront(s, n == 1, size)
    ensures Good(q, s', n, ls, cs) && Vecs(s') == Vecs(s)
  {
    FrontWritten(s, n == 1, size);
    FrontData(s, n == 1, size, ls, s');
    FrontStands(q, Vecs(s), n, cs, s[0].front, s[|s| - 1].back, size);
  }

  lemma {:induction false} BackGood(q: Limits, t: seq<Bio>, m: nat, lt: nat, ds: seq<bool>, size: nat, t': seq<Bio>)
    requires Good(q, t, m, lt, ds) && t[0].front <= size && t' == WithBack(t, m == 1, size)
    ensures Good(q, t', m, lt, ds) && Vecs(t') == Vecs(t)
  {
    BackWritten(t, m == 1, size);
    BackData(t, m == 1, size, lt, t');
    BackStands(q, Vecs(t), m, ds, t[0].front, t[|t| - 1].back, size);
  }

  lemma {:induction false} FrontData(s: seq<Bio>, one: bool, size: nat, ls: nat, s': seq<Bio>)
    requires s != [] && DataOk(s, ls) && s' == WithFront(s, one, size)
    ensures DataOk(s', ls)
  {
    SameDataKeeps(s, s');
  }

  lemma {:induction false} BackData(t: seq<Bio>, one: bool, size: nat, lt: nat, t': seq<Bio>)
    requires t != [] && DataOk(t, lt) && t' == WithBack(t, one, size)
    ensures DataOk(t', lt)
  {
    SameDataKeeps(t, t');
  }

  /** With one segment, a bound on it serves at both ends. */
  lemma {:induction false} FrontStands(q: Limits, vs: seq<Vec>, n: nat, cs: seq<bool>, f: nat, b: nat, size: nat)
    requires q.Ok() && Stands(q, vs, n, cs, f, b) && b <= size
    ensures Stands(q, vs, n, cs, if n == 1 then size else f, b)
  {
    FirstCut(q, vs, cs, |vs|);
  }

  lemma {:induction false} BackStands(q: Limits, vs: seq<Vec>, n: nat, cs: seq<bool>, f: nat, b: nat, size: nat)
    requires q.Ok() && Stands(q, vs, n, cs, f, b) && f <= size
    ensures Stands(q, vs, n, cs, f, if n == 1 then size else b)
  {
    FirstCut(q, vs, cs, |vs|);
  }

  lemma {:induction false} BondWhole(q: Limits, s: seq<Bio>, n: nat, ls: nat, cs: seq<bool>, t: seq<Bio>, m: nat,
                                     lt: nat, ds: seq<bool>, joins: bool, size: nat, s': seq<Bio>, t': seq<Bio>,
                                     total: nat, es: seq<bool>)
    requires q.Ok() && SegOk(q, s, n, cs) && SegOk(q, t, m, ds)
    requires Live(s[0]) != [] && Live(s[|s| - 1]) != [] && Live(t[0]) != [] && Live(t[|t| - 1]) != []
    requires joins && joins == Contiguous(q, s[|s| - 1], t[0]) && size == s[|s| - 1].back + t[0].front
    requires s' == WithFront(s, n == 1, size) && t' == WithBack(t, m == 1, size)
    requires total + 1 == n + m && ds != [] && es == cs + ds[0 := false]
    requires DataOk(s', ls) && DataOk(t', lt)
    ensures Good(q, s' + t', total, ls + lt, es)
  {
    FrontWritten(s, n == 1, size);
    BackWritten(t, m == 1, size);
    Bridged(q, s, n, cs, t, m, ds);
    GoodAppend(q, s', ls, t', lt, total, es);
  }
}
