/** How the vectors of a request are cut into hardware segments (block/blk-merge.c).

    A cut list marks, for every vector, whether it starts a new segment. The
    request's segment count stands for some feasible cut list; the scatter-gather
    mapper makes the greedy one, and the greedy one is never longer. */
module Layout {
  import opened Bios

  /** The queue limits that matter; `boundary` is the segment boundary mask plus one. */
  datatype Limits = Limits(cluster: bool, maxSize: nat, boundary: nat, maxSegments: nat, maxSectors: nat) {
    predicate Ok() { 0 < boundary }
  }

  /** Which of the windows that a segment must not leave an address lies in. */
  function Window(q: Limits, a: int): int
    requires q.Ok()
    decreases if a < 0 then 0 else a
  {
    if a < 0 then -1 else if a < q.boundary then 0 else 1 + Window(q, a - q.boundary)
  }

  lemma {:induction false} WindowIs(q: Limits, a: nat)
    requires q.Ok()
    ensures Window(q, a) == a / q.boundary
    decreases a
  {
    if q.boundary <= a {
      WindowIs(q, a - q.boundary);
      LessOne(a, q.boundary);
    }
  }

  lemma {:induction false} LessOne(a: nat, m: nat)
    requires 0 < m <= a
    ensures a / m == (a - m) / m + 1
  {
    var d, r := (a - m) / m, (a - m) % m;
    QuotientIs(a, m, d + 1, r);
  }

  lemma {:induction false} QuotientIs(a: nat, m: nat, d: nat, r: nat)
    requires r < m && a == d * m + r
    ensures a / m == d
  {
    var e := a / m;
    assert a == e * m + a % m;
    if e < d { MulMono(m, e + 1, d); }
    if d < e { MulMono(m, d + 1, e); }
  }

  lemma {:induction false} MulMono(m: nat, a: nat, b: nat)
    requires a <= b
    ensures a * m <= b * m
  {
  }

  lemma {:induction false} WindowMono(q: Limits, a: int, b: int)
    requires q.Ok() && a <= b
    ensures Window(q, a) <= Window(q, b)
    decreases if b < 0 then 0 else b
  {
    if q.boundary <= b { WindowMono(q, a - q.boundary, b - q.boundary); }
  }

  /** BIOVEC_PHYS_MERGEABLE and BIOVEC_SEG_BOUNDARY. */
  predicate Glues(q: Limits, v: Vec, w: Vec)
    requires q.Ok()
  {
    v.addr + v.len == w.addr && Window(q, v.addr) == Window(q, w.addr + w.len - 1)
  }

  // ----- cut lists -----

  /** Number of segments among the first n vectors. */
  function Segs(cuts: seq<bool>, n: nat): nat
    requires n <= |cuts|
  {
    if n == 0 then 0 else Segs(cuts, n - 1) + if cuts[n - 1] then 1 else 0
  }

  /** Size of the last segment of the first n vectors. */
  function Open(vs: seq<Vec>, cuts: seq<bool>, n: nat): nat
    requires n <= |cuts| && n <= |vs|
  {
    if n == 0 then 0 else vs[n - 1].len + if cuts[n - 1] then 0 else Open(vs, cuts, n - 1)
  }

  /** Size of the first segment of the first n vectors. */
  function First(vs: seq<Vec>, cuts: seq<bool>, n: nat): nat
    requires n <= |cuts| && n <= |vs|
  {
    if n == 0 then 0 else First(vs, cuts, n - 1) + if Segs(cuts, n) <= 1 then vs[n - 1].len else 0
  }

  /** Vector i may join the segment before it. */
  predicate Joins(q: Limits, vs: seq<Vec>, cuts: seq<bool>, i: nat)
    requires q.Ok() && i < |vs| && i <= |cuts|
  {
    0 < i && q.cluster && Open(vs, cuts, i) + vs[i].len <= q.maxSize && Glues(q, vs[i - 1], vs[i])
  }

  /** Every segment the cuts make is one the hardware can take. */
  ghost predicate Feasible(q: Limits, vs: seq<Vec>, cuts: seq<bool>)
    requires q.Ok()
  {
    |vs| == |cuts| && forall i :: 0 <= i < |vs| ==> Fits(q, vs, cuts, i)
  }

  predicate Fits(q: Limits, vs: seq<Vec>, cuts: seq<bool>, i: nat)
    requires q.Ok() && i < |vs| && i < |cuts|
  {
    cuts[i] || Joins(q, vs, cuts, i)
  }

  /** With `bounce`, a page above the bounce limit is a segment of its own. */
  predicate Alone(vs: seq<Vec>, i: nat, bounce: bool)
    requires i < |vs|
  {
    bounce && (vs[i].high || (0 < i && vs[i - 1].high))
  }

  /** The cuts of a loop over the first n vectors that starts a new segment only
      when it has to. */
  ghost predicate Greedy(q: Limits, vs: seq<Vec>, cuts: seq<bool>, n: nat, bounce: bool)
    requires q.Ok() && n <= |vs|
  {
    |cuts| == n && forall i :: 0 <= i < n ==> CutOnNeed(q, vs, cuts, i, bounce)
  }

  predicate CutOnNeed(q: Limits, vs: seq<Vec>, cuts: seq<bool>, i: nat, bounce: bool)
    requires q.Ok() && i < |vs| && i < |cuts|
  {
    cuts[i] <==> Alone(vs, i, bounce) || !Joins(q, vs, cuts, i)
  }

  /** The three measures look only at the first n entries. */
  lemma {:induction false} Agree(vs: seq<Vec>, cs: seq<bool>, vs': seq<Vec>, cs': seq<bool>, n: nat)
    requires n <= |vs| && n <= |cs| && n <= |vs'| && n <= |cs'|
    requires forall i :: 0 <= i < n ==> vs[i] == vs'[i] && cs[i] == cs'[i]
    ensures Segs(cs, n) == Segs(cs', n) && Open(vs, cs, n) == Open(vs', cs', n)
      && First(vs, cs, n) == First(vs', cs', n)
  {
    if n > 0 { Agree(vs, cs, vs', cs', n - 1); }
  }

  /** One more round of the greedy loop. */
  lemma {:induction false} GreedyStep(q: Limits, vs: seq<Vec>, cuts: seq<bool>, n: nat, bounce: bool, c: bool)
    requires q.Ok() && n < |vs| && Greedy(q, vs, cuts, n, bounce)
    requires c <==> Alone(vs, n, bounce) || !Joins(q, vs, cuts, n)
    ensures Greedy(q, vs, cuts + [c], n + 1, bounce)
    ensures Segs(cuts + [c], n + 1) == Segs(cuts, n) + if c then 1 else 0
    ensures Open(vs, cuts + [c], n + 1) == vs[n].len + if c then 0 else Open(vs, cuts, n)
    ensures First(vs, cuts + [c], n + 1) == First(vs, cuts, n) + if Segs(cuts + [c], n + 1) <= 1 then vs[n].len else 0
  {
    forall i | 0 <= i <= n
      ensures Open(vs, cuts + [c], i) == Open(vs, cuts, i) && Segs(cuts + [c], i) == Segs(cuts, i)
           && First(vs, cuts + [c], i) == First(vs, cuts, i)
    {
      Agree(vs, cuts + [c], vs, cuts, i);
    }
    forall i | 0 <= i <= n ensures CutOnNeed(q, vs, cuts + [c], i, bounce) {
      if i < n { assert CutOnNeed(q, vs, cuts, i, bounce); }
    }
  }

  /** There is one such list. */
  ghost function GreedyCuts(q: Limits, vs: seq<Vec>, n: nat, bounce: bool): (cuts: seq<bool>)
    requires q.Ok() && n <= |vs|
    ensures |cuts| == n
  {
    if n == 0 then []
    else
      var cuts := GreedyCuts(q, vs, n - 1, bounce);
      cuts + [Alone(vs, n - 1, bounce) || !Joins(q, vs, cuts, n - 1)]
  }

  lemma {:induction false} GreedyOne(q: Limits, vs: seq<Vec>, cuts: seq<bool>, n: nat, bounce: bool)
    requires q.Ok() && n <= |vs| && Greedy(q, vs, cuts, n, bounce)
    ensures cuts == GreedyCuts(q, vs, n, bounce)
  {
    if n > 0 {
      var less := cuts[..n - 1];
      forall i | 0 <= i < n - 1 ensures CutOnNeed(q, vs, less, i, bounce) {
        assert CutOnNeed(q, vs, cuts, i, bounce);
        Agree(vs, less, vs, cuts, i);
      }
      GreedyOne(q, vs, less, n - 1, bounce);
      assert CutOnNeed(q, vs, cuts, n - 1, bounce);
      Agree(vs, less, vs, cuts, n - 1);
      assert cuts == less + [cuts[n - 1]];
    }
  }

  lemma {:induction false} GreedyFeasible(q: Limits, vs: seq<Vec>, cuts: seq<bool>, bounce: bool)
    requires q.Ok() && Greedy(q, vs, cuts, |vs|, bounce)
    ensures Feasible(q, vs, cuts)
  {
    forall i | 0 <= i < |vs| ensures Fits(q, vs, cuts, i) { assert CutOnNeed(q, vs, cuts, i, bounce); }
  }

  /** The greedy cuts are best: no feasible cut list makes fewer segments, and
      none with as few leaves a smaller last segment. */
  lemma {:induction false} GreedyBest(q: Limits, vs: seq<Vec>, g: seq<bool>, cuts: seq<bool>, n: nat)
    requires q.Ok() && Greedy(q, vs, g, |vs|, false) && Feasible(q, vs, cuts) && n <= |vs|
    ensures Segs(g, n) < Segs(cuts, n) || (Segs(g, n) == Segs(cuts, n) && Open(vs, g, n) <= Open(vs, cuts, n))
  {
    if n > 0 {
      GreedyBest(q, vs, g, cuts, n - 1);
      assert Fits(q, vs, cuts, n - 1);
      assert CutOnNeed(q, vs, g, n - 1, false);
    }
  }

  // ----- joining two lists of vectors -----

  /** A feasible cut list starts with a cut; with one segment the first is the last. */
  lemma {:induction false} FirstCut(q: Limits, vs: seq<Vec>, cs: seq<bool>, n: nat)
    requires q.Ok() && Feasible(q, vs, cs) && 0 < n <= |vs|
    ensures cs[0] && 1 <= Segs(cs, n) && (Segs(cs, n) == 1 ==> First(vs, cs, n) == Open(vs, cs, n))
  {
    assert Fits(q, vs, cs, 0);
    if n > 1 { FirstCut(q, vs, cs, n - 1); }
  }

  /** Side by side, no segment shared: the measures j vectors into the second list. */
  lemma {:induction false} BesideAt(q: Limits, vs: seq<Vec>, cs: seq<bool>, ws: seq<Vec>, ds: seq<bool>, j: nat)
    requires q.Ok() && Feasible(q, vs, cs) && Feasible(q, ws, ds) && vs != [] && 0 < j <= |ws|
    ensures Segs(cs + ds, |vs| + j) == Segs(cs, |vs|) + Segs(ds, j)
    ensures Open(vs + ws, cs + ds, |vs| + j) == Open(ws, ds, j)
    ensures First(vs + ws, cs + ds, |vs| + j) == First(vs, cs, |vs|)
  {
    FirstCut(q, vs, cs, |vs|);
    FirstCut(q, ws, ds, j);
    Agree(vs + ws, cs + ds, vs, cs, |vs|);
    if j > 1 { BesideAt(q, vs, cs, ws, ds, j - 1); }
  }

  lemma {:induction false} Beside(q: Limits, vs: seq<Vec>, cs: seq<bool>, ws: seq<Vec>, ds: seq<bool>)
    requires q.Ok() && Feasible(q, vs, cs) && Feasible(q, ws, ds) && vs != []
    ensures Feasible(q, vs + ws, cs + ds)
  {
    forall i | 0 <= i < |vs + ws| ensures Fits(q, vs + ws, cs + ds, i) {
      BesideJoins(q, vs, cs, ws, ds, i);
    }
  }

  lemma {:induction false} BesideJoins(q: Limits, vs: seq<Vec>, cs: seq<bool>, ws: seq<Vec>, ds: seq<bool>, i: nat)
    requires q.Ok() && Feasible(q, vs, cs) && Feasible(q, ws, ds) && vs != [] && i < |vs| + |ws|
    ensures Fits(q, vs + ws, cs + ds, i)
  {
    if i < |vs| {
      PrefixJoins(q, vs, cs, ws, ds, i);
    } else {
      var j := i - |vs|;
      assert Fits(q, ws, ds, j);
      if j > 0 { BesideAt(q, vs, cs, ws, ds, j); }
    }
  }

  lemma {:induction false} PrefixJoins(q: Limits, vs: seq<Vec>, cs: seq<bool>, ws: seq<Vec>, ds: seq<bool>, i: nat)
    requires q.Ok() && Feasible(q, vs, cs) && |ws| == |ds| && i < |vs|
    ensures Fits(q, vs + ws, cs + ds, i)
  {
    Agree(vs + ws, cs + ds, vs, cs, i);
    assert Fits(q, vs, cs, i);
  }

  /** The last segment of the first list runs on into the first of the second. */
  lemma {:induction false} BridgeAt(q: Limits, vs: seq<Vec>, cs: seq<bool>, ws: seq<Vec>, ds: seq<bool>, j: nat)
    requires q.Ok() && Feasible(q, vs, cs) && Feasible(q, ws, ds) && vs != [] && 0 < j <= |ws|
    ensures var es := cs + ds[0 := false];
      && Segs(es, |vs| + j) + 1 == Segs(cs, |vs|) + Segs(ds, j)
      && Open(vs + ws, es, |vs| + j) == Open(ws, ds, j) + (if Segs(ds, j) == 1 then Open(vs, cs, |vs|) else 0)
      && First(vs + ws, es, |vs| + j) == First(vs, cs, |vs|) + (if Segs(cs, |vs|) == 1 then First(ws, ds, j) else 0)
  {
    var es := cs + ds[0 := false];
    FirstCut(q, vs, cs, |vs|);
    FirstCut(q, ws, ds, j);
    Agree(vs + ws, es, vs, cs, |vs|);
    if j > 1 {
      BridgeAt(q, vs, cs, ws, ds, j - 1);
      FirstCut(q, ws, ds, j - 1);
    }
  }

  /** The first segment only grows with more vectors. */
  lemma {:induction false} FirstGrows(vs: seq<Vec>, cs: seq<bool>, i: nat, n: nat)
    requires i <= n <= |vs| && |vs| == |cs|
    ensures First(vs, cs, i) <= First(vs, cs, n)
    decreases n
  {
    if i < n { FirstGrows(vs, cs, i, n - 1); }
  }

  lemma {:induction false} Bridge(q: Limits, vs: seq<Vec>, cs: seq<bool>, ws: seq<Vec>, ds: seq<bool>)
    requires q.Ok() && Feasible(q, vs, cs) && Feasible(q, ws, ds) && vs != [] && ws != []
    requires q.cluster && Open(vs, cs, |vs|) + First(ws, ds, |ws|) <= q.maxSize && Glues(q, vs[|vs| - 1], ws[0])
    ensures Feasible(q, vs + ws, cs + ds[0 := false])
  {
    var es := cs + ds[0 := false];
    forall i | 0 <= i < |vs + ws| ensures Fits(q, vs + ws, es, i) {
      if i < |vs| { PrefixJoins(q, vs, cs, ws, ds[0 := false], i); } else { BridgeJoins(q, vs, cs, ws, ds, i - |vs|); }
    }
  }

  lemma {:induction false} BridgeJoins(q: Limits, vs: seq<Vec>, cs: seq<bool>, ws: seq<Vec>, ds: seq<bool>, j: nat)
    requires q.Ok() && Feasible(q, vs, cs) && Feasible(q, ws, ds) && vs != [] && j < |ws|
    requires q.cluster && Open(vs, cs, |vs|) + First(ws, ds, |ws|) <= q.maxSize && Glues(q, vs[|vs| - 1], ws[0])
    ensures Fits(q, vs + ws, cs + ds[0 := false], |vs| + j)
  {
    FirstGrows(ws, ds, j + 1, |ws|);
    FirstCut(q, ws, ds, j + 1);
    if j == 0 {
      Agree(vs + ws, cs + ds[0 := false], vs, cs, |vs|);
    } else {
      assert Fits(q, ws, ds, j);
      BridgeAt(q, vs, cs, ws, ds, j);
      FirstCut(q, ws, ds, j);
    }
  }
}
