/** Counting and mapping segments: __blk_recalc_rq_segments and blk_rq_map_sg of
    block/blk-merge.c, as the loops they are. */
module Segments {
  import opened Bios
  import opened Layout

  /** The vectors of a list of bios, in order. */
  function Vecs(bios: seq<Bio>): seq<Vec> {
    if bios == [] then [] else Live(bios[0]) + Vecs(bios[1..])
  }

  lemma {:induction false} VecsAppend(s: seq<Bio>, t: seq<Bio>)
    ensures Vecs(s + t) == Vecs(s) + Vecs(t)
  {
    if s == [] {
      assert s + t == t;
    } else {
      assert (s + t)[1..] == s[1..] + t;
      VecsAppend(s[1..], t);
      assert Live(s[0]) + (Vecs(s[1..]) + Vecs(t)) == Live(s[0]) + Vecs(s[1..]) + Vecs(t);
    }
  }

  /** Only the live vectors of the bios matter. */
  lemma {:induction false} VecsSame(s: seq<Bio>, t: seq<Bio>)
    requires |s| == |t| && forall k :: 0 <= k < |s| ==> Live(s[k]) == Live(t[k])
    ensures Vecs(s) == Vecs(t)
  {
    if s != [] { VecsSame(s[1..], t[1..]); }
  }

  /** Where the vectors of bio i start. */
  function Base(bios: seq<Bio>, i: nat): nat
    requires i <= |bios|
  {
    |Vecs(bios[..i])|
  }

  lemma {:induction false} VecAt(bios: seq<Bio>, i: nat)
    requires i < |bios|
    ensures Base(bios, i + 1) == Base(bios, i) + |Live(bios[i])| <= |Vecs(bios)|
    ensures Vecs(bios)[Base(bios, i)..Base(bios, i + 1)] == Live(bios[i])
  {
    var b := bios[i];
    assert bios[..i + 1] == bios[..i] + [b];
    VecsAppend(bios[..i], [b]);
    assert [b][1..] == [];
    assert Vecs([b]) == Live(b);
    assert bios == bios[..i + 1] + bios[i + 1..];
    VecsAppend(bios[..i + 1], bios[i + 1..]);
  }

  function Max(a: nat, b: nat): nat { if a < b then b else a }

  // ----- counting -----

  /** The variables of the counting loop: the count, the size of the segment
      being built, the last vector, highprv, and the front size found so far. */
  datatype Scan = Scan(nr: nat, size: nat, prev: Vec, highprv: bool, front: nat)

  /** What they mean after k vectors, when the front size started as `front0`. */
  ghost predicate Counting(q: Limits, vs: seq<Vec>, cuts: seq<bool>, k: nat, front0: nat, s: Scan)
    requires q.Ok()
  {
    && k <= |vs| && Greedy(q, vs, cuts, k, true)
    && s.nr == Segs(cuts, k) && s.size == Open(vs, cuts, k)
    && s.highprv == (if k == 0 then true else vs[k - 1].high) && (k > 0 ==> s.prev == vs[k - 1])
    && s.front == (if s.nr <= 1 then front0 else Max(front0, First(vs, cuts, k)))
    && (k == 0 <==> s.nr == 0) && (s.nr == 1 ==> First(vs, cuts, k) == s.size)
  }

  /** Whether __blk_recalc_rq_segments starts a new segment with v. */
  predicate Splits(q: Limits, s: Scan, v: Vec)
    requires q.Ok()
  {
    v.high || s.highprv || !q.cluster || s.size + v.len > q.maxSize || !Glues(q, s.prev, v)
  }

  lemma {:induction false} CountStep(q: Limits, vs: seq<Vec>, cuts: seq<bool>, k: nat, front0: nat, s: Scan)
    requires q.Ok() && k < |vs| && Counting(q, vs, cuts, k, front0, s)
    ensures var v := vs[k]; var c := Splits(q, s, v);
      Counting(q, vs, cuts + [c], k + 1, front0,
               if c then Scan(s.nr + 1, v.len, v, v.high, if s.nr == 1 then Max(s.front, s.size) else s.front)
               else s.(size := s.size + v.len, prev := v))
  {
    GreedyStep(q, vs, cuts, k, true, Splits(q, s, vs[k]));
  }

  /** The vectors of one bio. */
  method ScanBio(q: Limits, live: seq<Vec>, s0: Scan, ghost vs: seq<Vec>, ghost cuts0: seq<bool>, ghost k: nat,
                 ghost front0: nat) returns (s: Scan, ghost cuts: seq<bool>)
    requires q.Ok() && Counting(q, vs, cuts0, k, front0, s0)
    requires k + |live| <= |vs| && vs[k..k + |live|] == live
    ensures Counting(q, vs, cuts, k + |live|, front0, s)
  {
    s, cuts := s0, cuts0;
    var j := 0;
    while j < |live|
      invariant j <= |live| && Counting(q, vs, cuts, k + j, front0, s)
    {
      var v := live[j];
      assert v == vs[k..k + |live|][j];
      CountStep(q, vs, cuts, k + j, front0, s);
      var c := Splits(q, s, v);
      if c {
        var front := if s.nr == 1 && s.size > s.front then s.size else s.front;
        s := Scan(s.nr + 1, v.len, v, v.high, front);
      } else {
        s := s.(size := s.size + v.len, prev := v);
      }
      cuts := cuts + [c];
      j := j + 1;
    }
  }

  /** The front size of the first bio and the back size of the last, raised to
      what was found. */
  function Cached(bios: seq<Bio>, first: nat, last: nat): seq<Bio>
    requires bios != []
  {
    var n := |bios| - 1;
    var t := bios[0 := bios[0].(front := Max(bios[0].front, first))];
    t[n := t[n].(back := Max(t[n].back, last))]
  }

  const NO_VEC: Vec := Vec(0, 0, false)

  lemma {:induction false} CountNone(q: Limits, vs: seq<Vec>, front: nat)
    requires q.Ok()
    ensures Counting(q, vs, [], 0, front, Scan(0, 0, NO_VEC, true, front))
  {
  }

  /** The loops of __blk_recalc_rq_segments. */
  method ScanAll(q: Limits, bios: seq<Bio>, ghost vs: seq<Vec>, front: nat) returns (s: Scan, ghost cuts: seq<bool>)
    requires q.Ok() && bios != [] && vs == Vecs(bios)
    ensures Counting(q, vs, cuts, |vs|, front, s)
  {
    ghost var k := 0;
    var i := 0;
    s, cuts := Scan(0, 0, NO_VEC, true, front), [];
    CountNone(q, vs, front);
    while i < |bios|
      invariant i <= |bios| && k == Base(bios, i) && Counting(q, vs, cuts, k, front, s)
    {
      VecAt(bios, i);
      var live := Live(bios[i]);
      s, cuts := ScanBio(q, live, s, vs, cuts, k, front);
      k := k + |live|;
      i := i + 1;
    }
    assert bios[..|bios|] == bios;
  }

  /** What follows them: the sizes are stored on the first and the last bio. */
  method StoreSizes(bios: seq<Bio>, nr: nat, size: nat, found: nat, ghost first: nat) returns (bios': seq<Bio>)
    requires bios != [] && (if nr == 1 && size > found then size else found) == Max(bios[0].front, first)
    ensures bios' == Cached(bios, first, size)
  {
    var front := if nr == 1 && size > found then size else found;
    bios' := bios[0 := bios[0].(front := front)];
    var last := |bios| - 1;
    if size > bios'[last].back { bios' := bios'[last := bios'[last].(back := size)]; }
  }

  /** __blk_recalc_rq_segments: the count, and the sizes cached on the first and
      the last bio, which are never below the real ones. */
  method Recalc(q: Limits, bios: seq<Bio>) returns (nr: nat, bios': seq<Bio>, ghost cuts: seq<bool>)
    requires q.Ok() && bios != [] && Vecs(bios) != []
    ensures var vs := Vecs(bios);
      && Greedy(q, vs, cuts, |vs|, true) && nr == Segs(cuts, |vs|)
      && bios' == Cached(bios, First(vs, cuts, |vs|), Open(vs, cuts, |vs|))
  {
    var s;
    s, cuts := ScanAll(q, bios, Vecs(bios), bios[0].front);
    nr := s.nr;
    bios' := StoreSizes(bios, s.nr, s.size, s.front, First(Vecs(bios), cuts, |Vecs(bios)|));
  }

  // ----- mapping -----

  /** A scatter-gather entry. */
  datatype Sg = Sg(addr: nat, len: nat)

  /** The entries after k vectors: as many as the greedy cuts make segments. */
  ghost predicate Shaped(q: Limits, vs: seq<Vec>, cuts: seq<bool>, k: nat, sg: seq<Sg>, prev: Vec)
    requires q.Ok()
  {
    && k <= |vs| && Greedy(q, vs, cuts, k, false)
    && |sg| == Segs(cuts, k) && (k > 0 ==> prev == vs[k - 1]) && (k > 0 <==> sg != [])
    && (sg != [] ==> sg[|sg| - 1].len == Open(vs, cuts, k))
  }

  /** They cover the same bytes as the vectors so far. */
  ghost predicate Covers(vs: seq<Vec>, k: nat, sg: seq<Sg>) {
    && k <= |vs| && SgBytes(sg) == VecBytes(vs, k) && (k > 0 <==> sg != [])
    && (k > 0 ==> sg[|sg| - 1].addr + sg[|sg| - 1].len == vs[k - 1].addr + vs[k - 1].len)
  }

  ghost predicate Mapping(q: Limits, vs: seq<Vec>, cuts: seq<bool>, k: nat, sg: seq<Sg>, prev: Vec)
    requires q.Ok()
  {
    Shaped(q, vs, cuts, k, sg, prev) && Covers(vs, k, sg) && Legal(q, vs, k, sg)
  }

  /** The entry obeys the limits: its size, and one boundary window for all of it. */
  predicate Within(q: Limits, e: Sg)
    requires q.Ok()
  {
    e.len <= q.maxSize && Window(q, e.addr) == Window(q, e.addr + e.len - 1)
  }

  ghost predicate IsVec(vs: seq<Vec>, e: Sg) { exists i :: 0 <= i < |vs| && e == Sg(vs[i].addr, vs[i].len) }

  ghost predicate Positive(vs: seq<Vec>) { forall i :: 0 <= i < |vs| ==> 0 < vs[i].len }

  /** An entry of several vectors obeys the limits of the queue. */
  ghost predicate Legal(q: Limits, vs: seq<Vec>, k: nat, sg: seq<Sg>)
    requires q.Ok()
  {
    && k <= |vs| && (k > 0 <==> sg != [])
    && (forall t :: 0 <= t < |sg| ==> Within(q, sg[t]) || IsVec(vs, sg[t]))
    && (k > 0 ==> var e := sg[|sg| - 1];
        Window(q, e.addr) == Window(q, vs[k - 1].addr) && e.addr + e.len == vs[k - 1].addr + vs[k - 1].len)
  }

  lemma {:induction false} SameWindow(q: Limits, v: Vec, w: Vec)
    requires q.Ok() && Glues(q, v, w) && 0 < w.len
    ensures Window(q, w.addr) == Window(q, v.addr)
  {
    WindowMono(q, v.addr, w.addr);
    WindowMono(q, w.addr, w.addr + w.len - 1);
  }

  lemma {:induction false} LegalStep(q: Limits, vs: seq<Vec>, k: nat, sg: seq<Sg>, prev: Vec)
    requires q.Ok() && k < |vs| && Legal(q, vs, k, sg) && Positive(vs) && (k > 0 ==> prev == vs[k - 1])
    ensures if Same(q, sg, prev, vs[k]) then k > 0 && Legal(q, vs, k + 1, Longer(sg, vs[k].len))
            else Legal(q, vs, k + 1, sg + [Sg(vs[k].addr, vs[k].len)])
  {
    var v := vs[k];
    if Same(q, sg, prev, v) {
      SameWindow(q, prev, v);
      var e := Sg(sg[|sg| - 1].addr, sg[|sg| - 1].len + v.len);
      assert Within(q, e);
    } else {
      assert IsVec(vs, Sg(v.addr, v.len));
    }
  }

  function SgBytes(sg: seq<Sg>): seq<nat> {
    if sg == [] then [] else SgBytes(sg[..|sg| - 1]) + Span(sg[|sg| - 1].addr, sg[|sg| - 1].len)
  }

  function VecBytes(vs: seq<Vec>, k: nat): seq<nat>
    requires k <= |vs|
  {
    if k == 0 then [] else VecBytes(vs, k - 1) + Span(vs[k - 1].addr, vs[k - 1].len)
  }

  lemma {:induction false} SgGrow(sg: seq<Sg>, last: Sg, len: nat)
    ensures SgBytes(sg + [Sg(last.addr, last.len + len)]) == SgBytes(sg + [last]) + Span(last.addr + last.len, len)
    ensures SgBytes(sg + [last]) == SgBytes(sg) + Span(last.addr, last.len)
  {
    assert (sg + [last])[..|sg|] == sg;
    var more := Sg(last.addr, last.len + len);
    assert (sg + [more])[..|sg|] == sg;
    assert Span(last.addr, last.len + len) == Span(last.addr, last.len) + Span(last.addr + last.len, len);
    assert SgBytes(sg) + (Span(last.addr, last.len) + Span(last.addr + last.len, len))
        == SgBytes(sg) + Span(last.addr, last.len) + Span(last.addr + last.len, len);
  }

  /** The last entry made longer. */
  function Longer(sg: seq<Sg>, len: nat): seq<Sg>
    requires sg != []
  {
    sg[..|sg| - 1] + [Sg(sg[|sg| - 1].addr, sg[|sg| - 1].len + len)]
  }

  lemma {:induction false} CoverStep(vs: seq<Vec>, k: nat, sg: seq<Sg>)
    requires k < |vs| && Covers(vs, k, sg)
    ensures Covers(vs, k + 1, sg + [Sg(vs[k].addr, vs[k].len)])
    ensures k > 0 && vs[k - 1].addr + vs[k - 1].len == vs[k].addr ==> Covers(vs, k + 1, Longer(sg, vs[k].len))
  {
    SgGrow(sg, Sg(vs[k].addr, vs[k].len), 0);
    if k > 0 {
      assert sg == sg[..|sg| - 1] + [sg[|sg| - 1]];
      SgGrow(sg[..|sg| - 1], sg[|sg| - 1], vs[k].len);
    }
  }

  lemma {:induction false} ShapeStep(q: Limits, vs: seq<Vec>, cuts: seq<bool>, k: nat, sg: seq<Sg>, prev: Vec)
    requires q.Ok() && k < |vs| && Shaped(q, vs, cuts, k, sg, prev)
    ensures var v := vs[k];
      if Same(q, sg, prev, v) then k > 0 && Shaped(q, vs, cuts + [false], k + 1, Longer(sg, v.len), v)
      else Shaped(q, vs, cuts + [true], k + 1, sg + [Sg(v.addr, v.len)], v)
  {
    GreedyStep(q, vs, cuts, k, false, !Same(q, sg, prev, vs[k]));
  }

  /** Whether blk_rq_map_sg lengthens the last entry. */
  predicate Same(q: Limits, sg: seq<Sg>, prev: Vec, v: Vec)
    requires q.Ok()
  {
    sg != [] && q.cluster && sg[|sg| - 1].len + v.len <= q.maxSize && Glues(q, prev, v)
  }

  method MapBio(q: Limits, live: seq<Vec>, sg0: seq<Sg>, prev0: Vec, ghost vs: seq<Vec>, ghost cuts0: seq<bool>,
                ghost k: nat) returns (sg: seq<Sg>, prev: Vec, ghost cuts: seq<bool>)
    requires q.Ok() && Mapping(q, vs, cuts0, k, sg0, prev0)
    requires k + |live| <= |vs| && vs[k..k + |live|] == live && Positive(vs)
    ensures Mapping(q, vs, cuts, k + |live|, sg, prev)
  {
    sg, prev, cuts := sg0, prev0, cuts0;
    var j := 0;
    while j < |live|
      invariant j <= |live| && Mapping(q, vs, cuts, k + j, sg, prev)
    {
      var v := live[j];
      assert v == vs[k..k + |live|][j];
      ShapeStep(q, vs, cuts, k + j, sg, prev);
      CoverStep(vs, k + j, sg);
      LegalStep(q, vs, k + j, sg, prev);
      if Same(q, sg, prev, v) {
        sg, cuts := Longer(sg, v.len), cuts + [false];
      } else {
        sg, cuts := sg + [Sg(v.addr, v.len)], cuts + [true];
      }
      prev, j := v, j + 1;
    }
  }

  lemma {:induction false} MapNone(q: Limits, vs: seq<Vec>)
    requires q.Ok()
    ensures Mapping(q, vs, [], 0, [], NO_VEC)
  {
  }

  /** The loop of blk_rq_map_sg. */
  method MapAll(q: Limits, bios: seq<Bio>, ghost vs: seq<Vec>) returns (sg: seq<Sg>, prev: Vec, ghost g: seq<bool>)
    requires q.Ok() && vs == Vecs(bios) && Positive(vs)
    ensures Mapping(q, vs, g, |vs|, sg, prev)
  {
    ghost var k := 0;
    var i := 0;
    sg, prev, g := [], NO_VEC, [];
    MapNone(q, vs);
    while i < |bios|
      invariant i <= |bios| && k == Base(bios, i) && Mapping(q, vs, g, k, sg, prev)
    {
      ghost var next := Base(bios, i + 1);
      sg, prev, g := MapNth(q, bios, i, sg, prev, vs, g, k, next);
      i, k := i + 1, next;
    }
    assert bios[..|bios|] == bios;
  }

  method MapNth(q: Limits, bios: seq<Bio>, i: nat, sg0: seq<Sg>, prev0: Vec, ghost vs: seq<Vec>, ghost cuts0: seq<bool>,
                ghost k: nat, ghost next: nat) returns (sg: seq<Sg>, prev: Vec, ghost cuts: seq<bool>)
    requires q.Ok() && vs == Vecs(bios) && Positive(vs) && i < |bios| && k == Base(bios, i) && next == Base(bios, i + 1)
    requires Mapping(q, vs, cuts0, k, sg0, prev0)
    ensures Mapping(q, vs, cuts, next, sg, prev)
  {
    VecAt(bios, i);
    sg, prev, cuts := MapBio(q, Live(bios[i]), sg0, prev0, vs, cuts0, k);
  }

  /** blk_rq_map_sg: the entries cover the bytes of the request, in order;
      there are no more of them than any feasible way to cut the request into
      segments needs, and one made of several vectors obeys the queue's limits. */
  method MapSg(q: Limits, bios: seq<Bio>, ghost cuts: seq<bool>) returns (sg: seq<Sg>)
    requires q.Ok() && Feasible(q, Vecs(bios), cuts) && Positive(Vecs(bios))
    ensures SgBytes(sg) == VecBytes(Vecs(bios), |Vecs(bios)|)
    ensures |sg| <= Segs(cuts, |Vecs(bios)|)
    ensures forall t :: 0 <= t < |sg| ==> Within(q, sg[t]) || IsVec(Vecs(bios), sg[t])
  {
    ghost var vs := Vecs(bios);
    var prev;
    ghost var g;
    sg, prev, g := MapAll(q, bios, vs);
    GreedyBest(q, vs, g, cuts, |vs|);
  }
}
