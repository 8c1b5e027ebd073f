/** What a feasible cut list is in terms of addresses and sizes alone, and that the
    segment count, bounce pages apart, is the least such lists allow. */
module SegmentLimits {
  import opened Bios
  import opened Layout
  import opened Segments

  /** Vectors j to i are in one segment. */
  ghost predicate Together(cuts: seq<bool>, j: nat, i: nat) {
    i < |cuts| && forall k :: j < k <= i ==> !cuts[k]
  }

  /** Vectors j to i make a segment that the hardware can take: the bytes follow one
      another, are no more than the limit, and lie in one boundary window. */
  ghost predicate Takes(q: Limits, vs: seq<Vec>, j: nat, i: nat)
    requires q.Ok() && j < i < |vs|
  {
    && q.cluster && vs[i - 1].addr + vs[i - 1].len == vs[i].addr && Bytes(vs[j..i + 1]) <= q.maxSize
    && vs[j].addr / q.boundary == (vs[i].addr + vs[i].len - 1) / q.boundary
  }

  /** Every segment of several vectors is such a one. */
  ghost predicate Obeys(q: Limits, vs: seq<Vec>, cuts: seq<bool>)
    requires q.Ok()
  {
    && |vs| == |cuts| && (vs != [] ==> cuts[0])
    && forall j, i :: 0 <= j < i < |vs| && Together(cuts, j, i) ==> Takes(q, vs, j, i)
  }

  lemma {:induction false} BytesSnoc(vs: seq<Vec>, j: nat, n: nat)
    requires j < n <= |vs|
    ensures Bytes(vs[j..n]) == Bytes(vs[j..n - 1]) + vs[n - 1].len
    decreases n - j
  {
    assert vs[j..n][1..] == vs[j + 1..n];
    if j + 1 == n {
      assert vs[j..n - 1] == [] && vs[j + 1..n] == [];
    } else {
      assert vs[j..n - 1][1..] == vs[j + 1..n - 1];
      BytesSnoc(vs, j + 1, n);
    }
  }

  /** Open is the size of what follows the last cut. */
  lemma {:induction false} OpenIs(vs: seq<Vec>, cuts: seq<bool>, j: nat, n: nat)
    requires j < n <= |vs| == |cuts| && Together(cuts, j, n - 1)
    ensures Bytes(vs[j..n]) <= Open(vs, cuts, n) && (cuts[j] ==> Open(vs, cuts, n) == Bytes(vs[j..n]))
    decreases n
  {
    BytesSnoc(vs, j, n);
    if j + 1 == n {
      assert vs[j..n - 1] == [];
    } else {
      OpenIs(vs, cuts, j, n - 1);
    }
  }

  /** First is the size of what comes before the second cut. */
  lemma {:induction false} FirstIs(vs: seq<Vec>, cuts: seq<bool>, n: nat)
    requires 0 < n <= |vs| == |cuts| && cuts[0] && Together(cuts, 0, n - 1)
    ensures Segs(cuts, n) == 1 && First(vs, cuts, n) == Bytes(vs[..n])
  {
    assert vs[..n] == vs[0..n];
    BytesSnoc(vs, 0, n);
    if n == 1 {
      assert vs[0..0] == [] && Segs(cuts, 0) == 0 && First(vs, cuts, 0) == 0;
    } else {
      assert vs[..n - 1] == vs[0..n - 1];
      FirstIs(vs, cuts, n - 1);
    }
  }

  lemma {:induction false} FirstStays(vs: seq<Vec>, cuts: seq<bool>, m: nat, n: nat)
    requires 0 < m < n <= |vs| == |cuts| && Segs(cuts, m) == 1 && cuts[m]
    ensures Segs(cuts, n) > 1 && First(vs, cuts, n) == First(vs, cuts, m)
    decreases n
  {
    if m + 1 < n { FirstStays(vs, cuts, m, n - 1); }
  }

  /** The vector before the first that is cut off again, or the last. */
  lemma {:induction false} FeasibleTakes(q: Limits, vs: seq<Vec>, cuts: seq<bool>, j: nat, i: nat)
    requires q.Ok() && Feasible(q, vs, cuts) && Positive(vs) && j < i < |vs| && Together(cuts, j, i)
    ensures Takes(q, vs, j, i) && vs[i].addr / q.boundary == vs[j].addr / q.boundary
    decreases i
  {
    assert Fits(q, vs, cuts, i);
    SameWindow(q, vs[i - 1], vs[i]);
    WindowIs(q, vs[i].addr);
    WindowIs(q, vs[i - 1].addr);
    WindowIs(q, vs[i].addr + vs[i].len - 1);
    if j + 1 < i { FeasibleTakes(q, vs, cuts, j, i - 1); }
    OpenIs(vs, cuts, j, i);
    BytesSnoc(vs, j, i + 1);
  }

  lemma {:induction false} LastCut(cuts: seq<bool>, i: nat) returns (j: nat)
    requires i < |cuts| && cuts[0]
    ensures j <= i && cuts[j] && Together(cuts, j, i)
  {
    if cuts[i] { j := i; } else { j := LastCut(cuts, i - 1); }
  }

  lemma {:induction false} ObeysFits(q: Limits, vs: seq<Vec>, cuts: seq<bool>, i: nat)
    requires q.Ok() && Obeys(q, vs, cuts) && Positive(vs) && i < |vs|
    ensures Fits(q, vs, cuts, i)
  {
    if !cuts[i] {
      var j := LastCut(cuts, i - 1);
      assert Together(cuts, j, i) && Together(cuts, i - 1, i);
      assert Takes(q, vs, j, i) && Takes(q, vs, i - 1, i);
      WindowIs(q, vs[i - 1].addr);
      WindowIs(q, vs[i].addr + vs[i].len - 1);
      OpenIs(vs, cuts, j, i);
      BytesSnoc(vs, j, i + 1);
    }
  }

  /** Feasible says exactly that. */
  lemma {:induction false} FeasibleExactly(q: Limits, vs: seq<Vec>, cuts: seq<bool>)
    requires q.Ok() && Positive(vs)
    ensures Feasible(q, vs, cuts) <==> Obeys(q, vs, cuts)
  {
    if Feasible(q, vs, cuts) {
      if vs != [] { assert Fits(q, vs, cuts, 0); }
      forall j, i | 0 <= j < i < |vs| && Together(cuts, j, i) ensures Takes(q, vs, j, i) {
        FeasibleTakes(q, vs, cuts, j, i);
      }
    }
    if Obeys(q, vs, cuts) {
      forall i | 0 <= i < |vs| ensures Fits(q, vs, cuts, i) { ObeysFits(q, vs, cuts, i); }
    }
  }

  /** Vector i, or the one before it, is a page above the bounce limit. */
  predicate ByHigh(vs: seq<Vec>, i: nat)
    requires i < |vs|
  {
    vs[i].high || (0 < i && vs[i - 1].high)
  }

  /** A page above the bounce limit is a segment of its own. */
  ghost predicate HighApart(vs: seq<Vec>, cuts: seq<bool>) {
    |vs| == |cuts| && forall i :: 0 <= i < |vs| && ByHigh(vs, i) ==> cuts[i]
  }

  lemma {:induction false} ApartBest(q: Limits, vs: seq<Vec>, g: seq<bool>, cuts: seq<bool>, n: nat)
    requires q.Ok() && Greedy(q, vs, g, |vs|, true) && Feasible(q, vs, cuts) && HighApart(vs, cuts) && n <= |vs|
    ensures Segs(g, n) < Segs(cuts, n) || (Segs(g, n) == Segs(cuts, n) && Open(vs, g, n) <= Open(vs, cuts, n))
  {
    if n > 0 {
      ApartBest(q, vs, g, cuts, n - 1);
      assert Fits(q, vs, cuts, n - 1);
      assert CutOnNeed(q, vs, g, n - 1, true);
      assert ByHigh(vs, n - 1) ==> cuts[n - 1];
    }
  }

  /** The count of __blk_recalc_rq_segments is the least number of segments that the
      hardware can take and that keep bounce pages apart. */
  lemma {:induction false} CountLeast(q: Limits, vs: seq<Vec>, g: seq<bool>, cuts: seq<bool>)
    requires q.Ok() && Positive(vs) && Greedy(q, vs, g, |vs|, true)
    ensures Obeys(q, vs, g) && HighApart(vs, g)
    ensures Obeys(q, vs, cuts) && HighApart(vs, cuts) ==> Segs(g, |vs|) <= Segs(cuts, |vs|)
  {
    GreedyFeasible(q, vs, g, true);
    FeasibleExactly(q, vs, g);
    FeasibleExactly(q, vs, cuts);
    forall i | 0 <= i < |vs| && ByHigh(vs, i) ensures g[i] { assert CutOnNeed(q, vs, g, i, true); }
    if Obeys(q, vs, cuts) && HighApart(vs, cuts) { ApartBest(q, vs, g, cuts, |vs|); }
  }

  /** The recount stores the size of the first segment on the first bio and of the last on
      the last, where they are larger than what is there, and changes nothing else. */
  lemma {:induction false} CachedExactly(bios: seq<Bio>, first: nat, last: nat, t: seq<Bio>)
    requires bios != [] && t == Cached(bios, first, last)
    ensures |t| == |bios| && forall k :: 0 < k < |t| - 1 ==> t[k] == bios[k]
    ensures t[0] == bios[0].(front := t[0].front, back := t[0].back)
    ensures var n := |t| - 1; t[n] == bios[n].(front := t[n].front, back := t[n].back)
    ensures t[0].front == if first > bios[0].front then first else bios[0].front
    ensures var n := |t| - 1; t[n].back == if last > bios[n].back then last else bios[n].back
    ensures |t| > 1 ==> t[0].back == bios[0].back && t[|t| - 1].front == bios[|t| - 1].front
  {
  }
}
