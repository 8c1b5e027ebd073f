/** A request whose segment count is kept incrementally: the merge functions of
    block/blk-merge.c, the bio merges and the partial completion of
    block/blk-core.c that change it, and the mapper that relies on it. */
module SegmentRequest {
  import opened Bios
  import opened Layout
  import opened Segments
  import opened Completion
  import opened CompletionBytes
  import opened SegmentMerge
  import opened SegmentBond

  /** A bio is counted in, and taken exactly if the segments then stay within the limit. */
  ghost predicate Counted(q: Limits, bio: Bio, was: nat, nr: nat, ok: bool)
    requires q.Ok()
  {
    var k := BioCount(q, bio);
    (ok <==> was + k <= q.maxSegments) && nr == if ok then was + k else was
  }

  /** blk_recount_segments on bio n of a request, when its count is not valid. */
  method Recount(q: Limits, bios: seq<Bio>, ghost nr: nat, ghost dataLen: nat, ghost cuts: seq<bool>, n: nat)
    returns (s: seq<Bio>)
    requires Good(q, bios, nr, dataLen, cuts) && n < |bios|
    ensures Good(q, s, nr, dataLen, cuts) && Vecs(s) == Vecs(bios)
    ensures |s| == |bios| && s == bios[n := s[n]] && s[n].counted && s[n].segs == BioCount(q, bios[n])
  {
    s := bios;
    if !bios[n].counted {
      assert BioOk(bios[n]) && Positive(Live(bios[n]));
      var b, _ := PhysSegments(q, bios[n]);
      RecountGood(q, bios, nr, dataLen, cuts, n, b);
      s := bios[n := b];
    }
  }

  /** The rest of ll_back_merge_fn, with ll_new_hw_segment, and the merge. */
  method CountBack(q: Limits, bios: seq<Bio>, nr: nat, ghost dataLen: nat, ghost cuts: seq<bool>, bio: Bio)
    returns (ok: bool, s: seq<Bio>, total: nat, ghost ds: seq<bool>)
    requires Good(q, bios, nr, dataLen, cuts) && GoodBio(q, bio)
    ensures if ok then Good(q, s, total, dataLen + bio.size, ds) && Vecs(s) == Vecs(bios) + Live(bio)
                       && nr < total <= q.maxSegments
            else Good(q, s, total, dataLen, ds) && Vecs(s) == Vecs(bios) && total == nr
    ensures Counted(q, bio, nr, total, ok)
  {
    s := Recount(q, bios, nr, dataLen, cuts, |bios| - 1);
    total, ds := nr, cuts;
    var b, cs := PhysSegments(q, bio);
    ok := nr + b.segs <= q.maxSegments;
    if ok {
      total := nr + b.segs;
      JoinBack(q, s, nr, dataLen, cuts, b, cs, total);
      s, ds := s + [b], cuts + cs;
    }
  }

  /** The rest of ll_front_merge_fn, and the merge. */
  method CountFront(q: Limits, bios: seq<Bio>, nr: nat, ghost dataLen: nat, ghost cuts: seq<bool>, bio: Bio)
    returns (ok: bool, s: seq<Bio>, total: nat, ghost ds: seq<bool>)
    requires Good(q, bios, nr, dataLen, cuts) && GoodBio(q, bio)
    ensures if ok then Good(q, s, total, dataLen + bio.size, ds) && Vecs(s) == Live(bio) + Vecs(bios)
                       && nr < total <= q.maxSegments
            else Good(q, s, total, dataLen, ds) && Vecs(s) == Vecs(bios) && total == nr
    ensures Counted(q, bio, nr, total, ok)
  {
    var b, cs := PhysSegments(q, bio);
    s := Recount(q, bios, nr, dataLen, cuts, 0);
    total, ds := nr, cuts;
    ok := nr + b.segs <= q.maxSegments;
    if ok {
      total := nr + b.segs;
      JoinFront(q, s, nr, dataLen, cuts, b, cs, total);
      s, ds := [b] + s, cs + cuts;
    }
  }

  /** The segments of the bios s and t, counted n and m: one less than their sum if the
      ends meet. */
  ghost function Joined(q: Limits, s: seq<Bio>, n: nat, t: seq<Bio>, m: nat): int {
    var meet := q.Ok() && s != [] && t != [] && Live(s[|s| - 1]) != [] && Live(t[0]) != []
                && EndsMeet(q, s[|s| - 1], t[0]);
    if meet then n + m - 1 else n + m
  }

  class Request {
    const q: Limits
    var bios: seq<Bio>
    var nr: nat
    var dataLen: nat
    var special: bool
    var noMerge: bool
    ghost var cuts: seq<bool>

    ghost predicate Valid()
      reads this
    {
      Good(q, bios, nr, dataLen, cuts)
    }

    /** blk_rq_bio_prep: a request made from one bio. */
    constructor (q: Limits, bio: Bio)
      requires GoodBio(q, bio)
      ensures Valid() && this.q == q && Vecs(bios) == Live(bio) && dataLen == bio.size && !special && !noMerge
    {
      var b, cs := PhysSegments(q, bio);
      this.q, bios, nr, dataLen, special, noMerge := q, [b], b.segs, b.size, false, false;
      cuts := cs;
      new;
      OneBio(b);
      assert BiosOk([b]) && AllPositive([b]);
    }

    /** bio_attempt_back_merge with ll_back_merge_fn. */
    method BackMerge(bio: Bio) returns (ok: bool)
      requires Valid() && GoodBio(q, bio)
      modifies this
      ensures Valid() && special == old(special)
      ensures if ok then Vecs(bios) == old(Vecs(bios)) + Live(bio) && dataLen == old(dataLen) + bio.size
                         && old(nr) < nr <= q.maxSegments
              else Vecs(bios) == old(Vecs(bios)) && dataLen == old(dataLen) && nr == old(nr) && noMerge
      ensures Sectors(old(dataLen)) + Sectors(bio.size) > q.maxSectors ==> !ok
      ensures Sectors(old(dataLen)) + Sectors(bio.size) <= q.maxSectors ==> Counted(q, bio, old(nr), nr, ok)
    {
      if Sectors(dataLen) + Sectors(bio.size) > q.maxSectors {
        noMerge := true;
        return false;
      }
      ok, bios, nr, cuts := CountBack(q, bios, nr, dataLen, cuts, bio);
      if ok { dataLen := dataLen + bio.size; } else { noMerge := true; }
    }

    /** bio_attempt_front_merge with ll_front_merge_fn. */
    method FrontMerge(bio: Bio) returns (ok: bool)
      requires Valid() && GoodBio(q, bio)
      modifies this
      ensures Valid() && special == old(special)
      ensures if ok then Vecs(bios) == Live(bio) + old(Vecs(bios)) && dataLen == old(dataLen) + bio.size
                         && old(nr) < nr <= q.maxSegments
              else Vecs(bios) == old(Vecs(bios)) && dataLen == old(dataLen) && nr == old(nr) && noMerge
      ensures Sectors(old(dataLen)) + Sectors(bio.size) > q.maxSectors ==> !ok
      ensures Sectors(old(dataLen)) + Sectors(bio.size) <= q.maxSectors ==> Counted(q, bio, old(nr), nr, ok)
    {
      if Sectors(dataLen) + Sectors(bio.size) > q.maxSectors {
        noMerge := true;
        return false;
      }
      ok, bios, nr, cuts := CountFront(q, bios, nr, dataLen, cuts, bio);
      if ok { dataLen := dataLen + bio.size; } else { noMerge := true; }
    }

    /** The segments of two requests: one less than their sum if the ends meet. */
    ghost function Together(next: Request): int
      reads this, next
    {
      Joined(q, bios, nr, next.bios, next.nr)
    }

    /** ll_merge_requests_fn: decide, count, and write the cached sizes. */
    method MergeCount(next: Request) returns (ok: bool, ghost cs: seq<bool>)
      requires Valid() && next.Valid() && next != this && next.q == q
      modifies this`bios, this`nr, next`bios
      ensures next.Valid() && Vecs(bios) == old(Vecs(bios)) && Vecs(next.bios) == old(Vecs(next.bios))
      ensures !ok ==> Valid() && nr == old(nr)
      ensures ok ==> Good(q, bios + next.bios, nr, dataLen + next.dataLen, cs)
      ensures ok <==> !special && !next.special && Sectors(dataLen) + Sectors(next.dataLen) <= q.maxSectors
                      && old(Together(next)) <= q.maxSegments
      ensures ok ==> nr == old(Together(next))
    {
      cs := [];
      if special || next.special { return false, cs; }
      if Sectors(dataLen) + Sectors(next.dataLen) > q.maxSectors { return false, cs; }
      var total;
      total, cs := Bond(next);
      if total > q.maxSegments { return false, cs; }
      nr := total;
      return true, cs;
    }

    method Bond(next: Request) returns (total: nat, ghost cs: seq<bool>)
      requires Valid() && next.Valid() && next != this && next.q == q
      modifies this`bios, next`bios
      ensures Valid() && next.Valid() && Vecs(bios) == old(Vecs(bios)) && Vecs(next.bios) == old(Vecs(next.bios))
      ensures Good(q, bios + next.bios, total, dataLen + next.dataLen, cs)
      ensures total == old(Together(next))
    {
      DataVecs(bios);
      DataVecs(next.bios);
      ghost var joined := Together(next);
      var s, t;
      s, t, total, cs := BondBios(q, bios, nr, dataLen, cuts, next.bios, next.nr, next.dataLen, next.cuts);
      assert total == joined;
      bios := s;
      next.bios := t;
    }

    /** attempt_merge: on success the bios of the next request move over. */
    method Absorb(next: Request) returns (ok: bool)
      requires Valid() && next.Valid() && next != this && next.q == q
      modifies this, next
      ensures Valid() && (!ok ==> next.Valid())
      ensures if ok then Vecs(bios) == old(Vecs(bios)) + old(Vecs(next.bios)) && next.bios == []
                         && dataLen == old(dataLen) + old(next.dataLen) && nr == old(Together(next))
              else Vecs(bios) == old(Vecs(bios)) && Vecs(next.bios) == old(Vecs(next.bios)) && nr == old(nr)
      ensures ok <==> old(!special && !next.special && Sectors(dataLen) + Sectors(next.dataLen) <= q.maxSectors
                          && Together(next) <= q.maxSegments)
    {
      ghost var cs;
      ok, cs := MergeCount(next);
      if ok {
        VecsAppend(bios, next.bios);
        bios, dataLen, cuts := bios + next.bios, dataLen + next.dataLen, cs;
        next.bios := [];
      }
    }

    /** blk_update_request: the bytes are taken off and the segments counted anew. */
    method CompletePart(err: int, n: nat, quiet: bool) returns (more: bool)
      requires Valid()
      modifies this
      ensures more <==> n < old(dataLen)
      ensures more ==> Valid() && dataLen == old(dataLen) - n
      ensures more ==> Vecs(bios) == Vecs(Complete(old(bios), n, err, quiet).bios)
      ensures more ==> n <= |old(VecBytes(Vecs(bios), |Vecs(bios)|))|
                       && VecBytes(Vecs(bios), |Vecs(bios)|) == old(VecBytes(Vecs(bios), |Vecs(bios)|))[n..]
      ensures !more ==> bios == []
    {
      PartBytes(bios, n, err, quiet);
      CompleteOk(bios, n, err, quiet);
      CompletePositive(bios, n, err, quiet);
      bios := Complete(bios, n, err, quiet).bios;
      more := bios != [];
      if !more {
        dataLen := 0;
        return;
      }
      dataLen := dataLen - n;
      DataVecs(bios);
      var count, found, cs := Recalc(q, bios);
      FreshGood(q, bios, found, cs);
      nr, bios, cuts := count, found, cs;
    }

    /** blk_rq_map_sg: never more entries than the request's segment count. */
    method Map() returns (sg: seq<Sg>)
      requires Valid()
      ensures |sg| <= nr
      ensures SgBytes(sg) == VecBytes(Vecs(bios), |Vecs(bios)|)
      ensures forall t :: 0 <= t < |sg| ==> Within(q, sg[t]) || IsVec(Vecs(bios), sg[t])
    {
      PositiveVecs(bios);
      sg := MapSg(q, bios, cuts);
    }
  }

  lemma {:induction false} AddrsOfVecs(vs: seq<Vec>, k: nat)
    requires k <= |vs|
    ensures VecBytes(vs, k) == Addrs(vs[..k])
  {
    if k > 0 {
      AddrsOfVecs(vs, k - 1);
      assert vs[..k] == vs[..k - 1] + [vs[k - 1]];
      AddrsAppend(vs[..k - 1], [vs[k - 1]]);
      assert [vs[k - 1]][1..] == [];
    }
  }

  lemma {:induction false} AddrsOfBios(bios: seq<Bio>)
    ensures BioAddrs(bios) == Addrs(Vecs(bios)) == VecBytes(Vecs(bios), |Vecs(bios)|)
  {
    AddrsOfVecs(Vecs(bios), |Vecs(bios)|);
    assert Vecs(bios)[..|Vecs(bios)|] == Vecs(bios);
    if bios != [] {
      AddrsOfBios(bios[1..]);
      AddrsAppend(Live(bios[0]), Vecs(bios[1..]));
    }
  }

  /** The addresses that a partial completion leaves are the old ones less the first n. */
  lemma {:induction false} PartBytes(bios: seq<Bio>, n: nat, err: int, quiet: bool)
    requires BiosOk(bios)
    ensures n < TotalSize(bios) ==>
      var vs, ws := Vecs(bios), Vecs(Complete(bios, n, err, quiet).bios);
      n <= |VecBytes(vs, |vs|)| && VecBytes(ws, |ws|) == VecBytes(vs, |vs|)[n..]
  {
    assert BiosFit(bios) by { forall k | 0 <= k < |bios| ensures BioFits(bios[k]) { assert BioOk(bios[k]); } }
    AddrsOfBios(bios);
    AddrsOfBios(Complete(bios, n, err, quiet).bios);
    if n < TotalSize(bios) { CompleteAddrs(bios, n, err, quiet); }
  }

  lemma {:induction false} FreshGood(q: Limits, bios: seq<Bio>, found: seq<Bio>, cuts: seq<bool>)
    requires q.Ok() && bios != [] && Vecs(bios) != [] && BiosOk(bios) && AllPositive(bios)
    requires Greedy(q, Vecs(bios), cuts, |Vecs(bios)|, true)
    requires found == Cached(bios, First(Vecs(bios), cuts, |Vecs(bios)|), Open(Vecs(bios), cuts, |Vecs(bios)|))
    ensures Good(q, found, Segs(cuts, |Vecs(bios)|), TotalSize(bios), cuts) && Vecs(found) == Vecs(bios)
  {
    Fresh(q, bios, cuts);
    SameDataKeeps(bios, found);
  }

  lemma {:induction false} RecountGood(q: Limits, bios: seq<Bio>, nr: nat, dataLen: nat, cuts: seq<bool>, n: nat,
                                       b: Bio)
    requires Good(q, bios, nr, dataLen, cuts) && n < |bios|
    requires b == bios[n].(front := b.front, back := b.back, segs := b.segs, counted := true)
    requires bios[n].front <= b.front && bios[n].back <= b.back
    ensures Good(q, bios[n := b], nr, dataLen, cuts) && Vecs(bios[n := b]) == Vecs(bios)
  {
    RaisedEnds(bios, n, b);
    SameDataGood(q, bios, bios[n := b], nr, dataLen, cuts);
  }

  lemma {:induction false} SameDataGood(q: Limits, s: seq<Bio>, t: seq<Bio>, nr: nat, dataLen: nat, cuts: seq<bool>)
    requires Good(q, s, nr, dataLen, cuts) && SameData(s, t)
    requires s[0].front <= t[0].front && s[|s| - 1].back <= t[|t| - 1].back
    ensures Good(q, t, nr, dataLen, cuts) && Vecs(t) == Vecs(s)
  {
    SameDataKeeps(s, t);
    RaisedStands(q, Vecs(s), nr, cuts, s[0].front, s[|s| - 1].back, t[0].front, t[|t| - 1].back);
  }

  lemma {:induction false} RaisedEnds(bios: seq<Bio>, n: nat, b: Bio)
    requires n < |bios| && b == bios[n].(front := b.front, back := b.back, segs := b.segs, counted := true)
    requires bios[n].front <= b.front && bios[n].back <= b.back
    ensures var t := bios[n := b];
      SameData(bios, t) && bios[0].front <= t[0].front && bios[|bios| - 1].back <= t[|t| - 1].back
  {
  }

  lemma {:induction false} RaisedStands(q: Limits, vs: seq<Vec>, nr: nat, cuts: seq<bool>, f: nat, b: nat, f': nat,
                                        b': nat)
    requires q.Ok() && Stands(q, vs, nr, cuts, f, b) && f <= f' && b <= b'
    ensures Stands(q, vs, nr, cuts, f', b')
  {
  }

  lemma {:induction false} OneBio(b: Bio)
    ensures Vecs([b]) == Live(b) && TotalSize([b]) == b.size
  {
    assert [b][1..] == [];
  }

  lemma {:induction false} JoinBack(q: Limits, bios: seq<Bio>, nr: nat, dataLen: nat, cuts: seq<bool>, b: Bio,
                                    cs: seq<bool>, total: nat)
    requires Good(q, bios, nr, dataLen, cuts) && GoodBio(q, b) && SegOk(q, [b], b.segs, cs) && total == nr + b.segs
    ensures Good(q, bios + [b], total, dataLen + b.size, cuts + cs)
    ensures Vecs(bios + [b]) == Vecs(bios) + Live(b)
  {
    OneBio(b);
    StandsBeside(q, Vecs(bios), nr, cuts, bios[0].front, bios[|bios| - 1].back, Live(b), b.segs, cs, b.front, b.back);
    GoodAppend(q, bios, dataLen, [b], b.size, total, cuts + cs);
    VecsAppend(bios, [b]);
  }

  lemma {:induction false} JoinFront(q: Limits, bios: seq<Bio>, nr: nat, dataLen: nat, cuts: seq<bool>, b: Bio,
                                     cs: seq<bool>, total: nat)
    requires Good(q, bios, nr, dataLen, cuts) && GoodBio(q, b) && SegOk(q, [b], b.segs, cs) && total == nr + b.segs
    ensures Good(q, [b] + bios, total, dataLen + b.size, cs + cuts)
    ensures Vecs([b] + bios) == Live(b) + Vecs(bios)
  {
    OneBio(b);
    StandsBeside(q, Live(b), b.segs, cs, b.front, b.back, Vecs(bios), nr, cuts, bios[0].front, bios[|bios| - 1].back);
    GoodAppend(q, [b], b.size, bios, dataLen, total, cs + cuts);
    VecsAppend([b], bios);
  }
}
