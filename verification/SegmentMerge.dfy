/** The segment count of a request stays an upper bound through merges of bios
    and requests and through partial completion (block/blk-merge.c, block/blk-core.c). */
module SegmentMerge {
  import opened Bios
  import opened Layout
  import opened Segments
  import opened Completion

  /** A count stands for a feasible cut list whose first and last segments are
      no larger than the sizes given. */
  ghost predicate Stands(q: Limits, vs: seq<Vec>, nr: nat, cuts: seq<bool>, front: nat, back: nat)
    requires q.Ok()
  {
    && vs != [] && Feasible(q, vs, cuts) && Segs(cuts, |vs|) == nr
    && First(vs, cuts, |vs|) <= front && Open(vs, cuts, |vs|) <= back
  }

  /** The count of a request stands, with the cached sizes of its first and last bio. */
  ghost predicate SegOk(q: Limits, bios: seq<Bio>, nr: nat, cuts: seq<bool>)
    requires q.Ok()
  {
    bios != [] && Stands(q, Vecs(bios), nr, cuts, bios[0].front, bios[|bios| - 1].back)
  }

  lemma {:induction false} StandsBeside(q: Limits, vs: seq<Vec>, n: nat, cs: seq<bool>, f: nat, b: nat,
                                        ws: seq<Vec>, m: nat, ds: seq<bool>, f': nat, b': nat)
    requires q.Ok() && Stands(q, vs, n, cs, f, b) && Stands(q, ws, m, ds, f', b')
    ensures Stands(q, vs + ws, n + m, cs + ds, f, b')
  {
    Beside(q, vs, cs, ws, ds);
    BesideAt(q, vs, cs, ws, ds, |ws|);
  }

  lemma {:induction false} StandsBridged(q: Limits, vs: seq<Vec>, n: nat, cs: seq<bool>, f: nat, b: nat,
                                         ws: seq<Vec>, m: nat, ds: seq<bool>, f': nat, b': nat)
    requires q.Ok() && Stands(q, vs, n, cs, f, b) && Stands(q, ws, m, ds, f', b')
    requires q.cluster && b + f' <= q.maxSize && Glues(q, vs[|vs| - 1], ws[0])
    ensures n + m >= 1
    ensures Stands(q, vs + ws, n + m - 1, cs + ds[0 := false],
                   if n == 1 then b + f' else f, if m == 1 then b + f' else b')
  {
    Bridge(q, vs, cs, ws, ds);
    BridgeAt(q, vs, cs, ws, ds, |ws|);
    FirstCut(q, vs, cs, |vs|);
    FirstCut(q, ws, ds, |ws|);
  }

  /** A bio whose cached count is marked valid. */
  ghost predicate CountedOk(q: Limits, b: Bio)
    requires q.Ok()
  {
    b.counted ==> exists cuts :: SegOk(q, [b], b.segs, cuts)
  }

  lemma {:induction false} EndVecs(bios: seq<Bio>)
    requires bios != [] && Live(bios[0]) != [] && Live(bios[|bios| - 1]) != []
    ensures Vecs(bios) != [] && Vecs(bios)[0] == Live(bios[0])[0]
    ensures var l := Live(bios[|bios| - 1]); Vecs(bios)[|Vecs(bios)| - 1] == l[|l| - 1]
  {
    var n := |bios| - 1;
    var b := bios[n];
    assert bios == bios[..n] + [b] && [b][1..] == [];
    VecsAppend(bios[..n], [b]);
    assert Vecs([b]) == Live(b);
  }

  /** blk_phys_contig_segment, for bios that carry data. */
  predicate Contiguous(q: Limits, b: Bio, c: Bio)
    requires q.Ok() && Live(b) != [] && Live(c) != []
  {
    q.cluster && b.back + c.front <= q.maxSize && Glues(q, Live(b)[|Live(b)| - 1], Live(c)[0])
  }

  function WithFront(bios: seq<Bio>, one: bool, size: nat): seq<Bio>
    requires bios != []
  {
    if one then bios[0 := bios[0].(front := size)] else bios
  }

  function WithBack(bios: seq<Bio>, one: bool, size: nat): seq<Bio>
    requires bios != []
  {
    var n := |bios| - 1;
    if one then bios[n := bios[n].(back := size)] else bios
  }

  lemma {:induction false} FrontWritten(s: seq<Bio>, one: bool, size: nat)
    requires s != []
    ensures var t := WithFront(s, one, size);
      && |t| == |s| && Vecs(t) == Vecs(s)
      && t[0].front == (if one then size else s[0].front) && t[|t| - 1].back == s[|s| - 1].back
  {
    VecsSame(s, WithFront(s, one, size));
  }

  lemma {:induction false} BackWritten(s: seq<Bio>, one: bool, size: nat)
    requires s != []
    ensures var t := WithBack(s, one, size);
      && |t| == |s| && Vecs(t) == Vecs(s)
      && t[0].front == s[0].front && t[|t| - 1].back == (if one then size else s[|s| - 1].back)
  {
    VecsSame(s, WithBack(s, one, size));
  }

  /** Requests whose ends are contiguous share a segment: one less. */
  lemma {:induction false} Bridged(q: Limits, s: seq<Bio>, n: nat, cs: seq<bool>, t: seq<Bio>, m: nat, ds: seq<bool>)
    requires q.Ok() && SegOk(q, s, n, cs) && SegOk(q, t, m, ds)
    requires Live(s[0]) != [] && Live(s[|s| - 1]) != [] && Live(t[0]) != [] && Live(t[|t| - 1]) != []
    requires Contiguous(q, s[|s| - 1], t[0])
    ensures var size := s[|s| - 1].back + t[0].front;
      && n + m >= 1
      && Stands(q, Vecs(s) + Vecs(t), n + m - 1, cs + ds[0 := false],
                if n == 1 then size else s[0].front, if m == 1 then size else t[|t| - 1].back)
  {
    assert Glues(q, Vecs(s)[|Vecs(s)| - 1], Vecs(t)[0]) by { EndVecs(s); EndVecs(t); }
    StandsBridged(q, Vecs(s), n, cs, s[0].front, s[|s| - 1].back, Vecs(t), m, ds, t[0].front, t[|t| - 1].back);
  }

  lemma {:induction false} Concatenated(q: Limits, s: seq<Bio>, t: seq<Bio>, nr: nat, cuts: seq<bool>)
    requires q.Ok() && s != [] && t != []
    requires Stands(q, Vecs(s) + Vecs(t), nr, cuts, s[0].front, t[|t| - 1].back)
    ensures SegOk(q, s + t, nr, cuts)
  {
    VecsAppend(s, t);
  }

  /** A fresh count is one the invariant accepts. */
  lemma {:induction false} Fresh(q: Limits, bios: seq<Bio>, cuts: seq<bool>)
    requires q.Ok() && bios != [] && Vecs(bios) != [] && Greedy(q, Vecs(bios), cuts, |Vecs(bios)|, true)
    ensures var vs := Vecs(bios);
      SegOk(q, Cached(bios, First(vs, cuts, |vs|), Open(vs, cuts, |vs|)), Segs(cuts, |vs|), cuts)
  {
    var vs := Vecs(bios);
    GreedyFeasible(q, vs, cuts, true);
    VecsSame(bios, Cached(bios, First(vs, cuts, |vs|), Open(vs, cuts, |vs|)));
  }

  // ----- partial completion -----

  ghost predicate AllPositive(bios: seq<Bio>) {
    forall k {:trigger Positive(Live(bios[k]))} :: 0 <= k < |bios| ==> Positive(Live(bios[k]))
  }

  lemma {:induction false} PositiveVecs(bios: seq<Bio>)
    requires AllPositive(bios)
    ensures Positive(Vecs(bios))
  {
    if bios != [] {
      assert Positive(Live(bios[0]));
      PositiveVecs(bios[1..]);
    }
  }

  lemma {:induction false} DropPositive(vs: seq<Vec>, n: nat)
    requires Positive(vs) && n < Bytes(vs)
    ensures Positive(Drop(vs, n))
  {
    if n == 0 || vs == [] {
    } else if vs[0].len > n {
      assert Positive(Trim(vs, 0, n));
    } else {
      DropPositive(vs[1..], n - vs[0].len);
    }
  }

  /** What a partial completion leaves still has no empty vector. */
  lemma {:induction false} CompletePositive(bios: seq<Bio>, n: nat, err: int, quiet: bool)
    requires BiosOk(bios) && AllPositive(bios)
    ensures AllPositive(Complete(bios, n, err, quiet).bios)
    decreases |bios|
  {
    if bios != [] {
      if n < bios[0].size {
        AdvanceMoved(bios[0], n, err);
        DropPositive(Live(bios[0]), n);
      } else if n > bios[0].size {
        CompletePositive(bios[1..], n - bios[0].size, err, quiet);
      }
    }
  }

  lemma {:induction false} DataVecs(bios: seq<Bio>)
    requires BiosOk(bios) && bios != []
    ensures Vecs(bios) != [] && Live(bios[0]) != [] && Live(bios[|bios| - 1]) != []
  {
    assert BioOk(bios[0]) && BioOk(bios[|bios| - 1]);
  }

  lemma {:induction false} TotalAppend(s: seq<Bio>, t: seq<Bio>)
    ensures TotalSize(s + t) == TotalSize(s) + TotalSize(t)
  {
    if s == [] {
      assert s + t == t;
    } else {
      assert (s + t)[1..] == s[1..] + t;
      TotalAppend(s[1..], t);
    }
  }

  /** Same bytes and vectors, only cached sizes and counts differ. */
  ghost predicate SameData(s: seq<Bio>, t: seq<Bio>) {
    |s| == |t| && forall k :: 0 <= k < |s| ==> s[k].size == t[k].size && s[k].idx == t[k].idx && s[k].vecs == t[k].vecs
  }

  lemma {:induction false} SameDataKeeps(s: seq<Bio>, t: seq<Bio>)
    requires SameData(s, t) && BiosOk(s) && AllPositive(s)
    ensures BiosOk(t) && AllPositive(t) && Vecs(t) == Vecs(s) && TotalSize(t) == TotalSize(s)
  {
    VecsSame(s, t);
    TotalSame(s, t);
    forall k | 0 <= k < |t| ensures BioOk(t[k]) && Positive(Live(t[k])) {
      assert BioOk(s[k]) && Positive(Live(s[k]));
    }
  }

  lemma {:induction false} TotalSame(s: seq<Bio>, t: seq<Bio>)
    requires SameData(s, t)
    ensures TotalSize(t) == TotalSize(s)
  {
    if s != [] { TotalSame(s[1..], t[1..]); }
  }

  // ----- the request -----

  /** The bytes of a request are well formed and all counted. */
  ghost predicate DataOk(bios: seq<Bio>, dataLen: nat) {
    BiosOk(bios) && AllPositive(bios) && dataLen == TotalSize(bios)
  }

  /** Everything about a request that its segment count depends on. */
  ghost predicate Good(q: Limits, bios: seq<Bio>, nr: nat, dataLen: nat, cuts: seq<bool>) {
    q.Ok() && SegOk(q, bios, nr, cuts) && DataOk(bios, dataLen)
  }

  /** A bio that is about to join a request. */
  ghost predicate GoodBio(q: Limits, b: Bio) { q.Ok() && BioOk(b) && Positive(Live(b)) && CountedOk(q, b) }

  lemma {:induction false} DataAppend(s: seq<Bio>, n: nat, t: seq<Bio>, m: nat)
    requires DataOk(s, n) && DataOk(t, m)
    ensures DataOk(s + t, n + m)
  {
    TotalAppend(s, t);
    forall k | 0 <= k < |s + t| ensures BioOk((s + t)[k]) && Positive(Live((s + t)[k])) {
      if k < |s| {
        assert BioOk(s[k]) && Positive(Live(s[k]));
      } else {
        assert BioOk(t[k - |s|]) && Positive(Live(t[k - |s|]));
      }
    }
  }

  /** Concatenating well-formed requests. */
  lemma {:induction false} GoodAppend(q: Limits, s: seq<Bio>, n: nat, t: seq<Bio>, m: nat, nr: nat, cuts: seq<bool>)
    requires q.Ok() && DataOk(s, n) && DataOk(t, m) && s != [] && t != []
    requires Stands(q, Vecs(s) + Vecs(t), nr, cuts, s[0].front, t[|t| - 1].back)
    ensures Good(q, s + t, nr, n + m, cuts)
  {
    Concatenated(q, s, t, nr, cuts);
    DataAppend(s, n, t, m);
  }

  /** The count the bio carries, or else the number of its segments. */
  ghost function BioCount(q: Limits, b: Bio): nat
    requires q.Ok()
  {
    if b.counted then b.segs else Segs(GreedyCuts(q, Live(b), |Live(b)|, true), |Live(b)|)
  }

  /** blk_recount_segments, run only when the cached count is not valid. */
  method PhysSegments(q: Limits, b: Bio) returns (b': Bio, ghost cuts: seq<bool>)
    requires GoodBio(q, b)
    ensures b' == b.(front := b'.front, back := b'.back, segs := b'.segs, counted := true)
    ensures b.front <= b'.front && b.back <= b'.back && (b.counted ==> b' == b)
    ensures SegOk(q, [b'], b'.segs, cuts) && GoodBio(q, b') && b'.segs == BioCount(q, b) && 0 < b'.segs
  {
    if b.counted {
      b' := b;
      cuts :| SegOk(q, [b], b.segs, cuts);
    } else {
      assert BiosOk([b]);
      DataVecs([b]);
      assert Vecs([b]) == Live(b) by { assert [b][1..] == []; }
      var nr, bios;
      nr, bios, cuts := Recalc(q, [b]);
      GreedyOne(q, Live(b), cuts, |Live(b)|, true);
      Fresh(q, [b], cuts);
      b' := bios[0].(segs := nr, counted := true);
      VecsSame(bios, [b']);
      assert Live(b') == Live(b);
      assert SegOk(q, [b'], b'.segs, cuts);
    }
    FirstCut(q, Vecs([b']), cuts, |Vecs([b'])|);
  }
}
