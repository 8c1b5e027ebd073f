/** Partial completion of a request: blk_update_request and req_bio_endio of
    block/blk-core.c. A request is a list of bios, a bio a list of vectors. */
module Bios {

  /** A `struct bio_vec`: physical address, length, and whether its page lies
      above the bounce limit of the queue. */
  datatype Vec = Vec(addr: nat, len: nat, high: bool)

  /** A `struct bio`. `vecs` is bi_io_vec and `idx` bi_idx; `front`, `back` and
      `segs` are the cached segment sizes and count, valid when `counted`. */
  datatype Bio = Bio(id: nat, sector: nat, size: nat, vecs: seq<Vec>, idx: nat, uptodate: bool,
                     front: nat, back: nat, segs: nat, counted: bool)

  /** The vectors still to transfer. */
  function Live(b: Bio): seq<Vec> {
    if b.idx <= |b.vecs| then b.vecs[b.idx..] else []
  }

  function Bytes(vs: seq<Vec>): nat {
    if vs == [] then 0 else vs[0].len + Bytes(vs[1..])
  }

  function TotalSize(bios: seq<Bio>): nat {
    if bios == [] then 0 else bios[0].size + TotalSize(bios[1..])
  }

  /** The addresses a transfer touches, in order. */
  function Span(addr: nat, len: nat): seq<nat> { seq(len, i requires 0 <= i < len => addr + i) }

  /** bi_size counts exactly the bytes of the live vectors. */
  predicate BioFits(b: Bio) { b.idx <= |b.vecs| && Bytes(Live(b)) == b.size }

  /** And there are some. */
  predicate BioOk(b: Bio) { 0 < b.size && b.idx <= |b.vecs| && Bytes(Live(b)) == b.size }

  ghost predicate BiosFit(bios: seq<Bio>) {
    forall k {:trigger BioFits(bios[k])} :: 0 <= k < |bios| ==> BioFits(bios[k])
  }

  ghost predicate BiosOk(bios: seq<Bio>) { forall k {:trigger BioOk(bios[k])} :: 0 <= k < |bios| ==> BioOk(bios[k]) }

  lemma {:induction false} BytesDrop(vs: seq<Vec>, k: nat)
    requires k < |vs|
    ensures Bytes(vs[k..]) == vs[k].len + Bytes(vs[k + 1..])
  {
    assert vs[k..][1..] == vs[k + 1..];
  }
}

module Completion {
  import opened Bios

  /** A byte count in whole sectors (`>> 9`). */
  function Sectors(bytes: nat): nat { bytes / 512 }

  const EIO: int := 5

  /** One bio_endio call: which bio, with what error, and where it then stood. */
  datatype Ended = Ended(id: nat, error: int, sector: nat)

  /** What a completion leaves of a list of bios, and the bios it ended. */
  datatype Rest = Rest(bios: seq<Bio>, ended: seq<Ended>)

  // ----- the specification -----

  /** How many whole vectors `n` bytes cover, and the bytes left over. */
  function Skip(vs: seq<Vec>, n: nat): (nat, nat) {
    if n == 0 || vs == [] || vs[0].len > n then (0, n)
    else var (k, r) := Skip(vs[1..], n - vs[0].len); (k + 1, r)
  }

  /** The first vector loses its first `r` bytes. */
  function Trim(vs: seq<Vec>, at: nat, r: nat): seq<Vec> {
    if at < |vs| && r <= vs[at].len then vs[at := Vec(vs[at].addr + r, vs[at].len - r, vs[at].high)] else vs
  }

  /** `n` bytes of a bio complete, fewer than it holds. */
  function Advance(b: Bio, n: nat, err: int): Bio
    requires n <= b.size
  {
    if n == 0 then b
    else
      var (k, r) := Skip(Live(b), n);
      b.(size := b.size - n, sector := b.sector + Sectors(n), uptodate := b.uptodate && err == 0,
         idx := b.idx + k, vecs := Trim(b.vecs, b.idx + k, r))
  }

  function EndError(b: Bio, err: int): int { if err != 0 then err else if b.uptodate then 0 else -EIO }

  function EndRecord(b: Bio, err: int): Ended { Ended(b.id, EndError(b, err), b.sector + Sectors(b.size)) }

  /** Completing `n` bytes of a list of bios; `quiet` is REQ_FLUSH_SEQ. */
  function Complete(bios: seq<Bio>, n: nat, err: int, quiet: bool): Rest {
    if bios == [] then Rest([], [])
    else if n < bios[0].size then Rest([Advance(bios[0], n, err)] + bios[1..], [])
    else
      var note := if quiet then [] else [EndRecord(bios[0], err)];
      if n == bios[0].size then Rest(bios[1..], note)
      else
        var more := Complete(bios[1..], n - bios[0].size, err, quiet);
        Rest(more.bios, note + more.ended)
  }

  // ----- skipping vectors -----

  lemma {:induction false} SkipFacts(vs: seq<Vec>, n: nat)
    requires n <= Bytes(vs)
    ensures var (k, r) := Skip(vs, n);
      && k <= |vs| && r <= n && Bytes(vs[k..]) + n == Bytes(vs) + r
      && (k < |vs| ==> r == 0 || r < vs[k].len) && (n < Bytes(vs) ==> k < |vs|) && (k == |vs| ==> r == 0)
  {
    if n == 0 || vs == [] || vs[0].len > n {
      assert vs[0..] == vs;
    } else {
      SkipFacts(vs[1..], n - vs[0].len);
      var (k, r) := Skip(vs[1..], n - vs[0].len);
      assert vs[k + 1..] == vs[1..][k..];
    }
  }

  /** The vectors left after `n` bytes. */
  function Drop(vs: seq<Vec>, n: nat): seq<Vec> {
    if n == 0 || vs == [] then vs
    else if vs[0].len > n then Trim(vs, 0, n)
    else Drop(vs[1..], n - vs[0].len)
  }

  lemma {:induction false} DropIsTrim(vs: seq<Vec>, n: nat)
    requires n < Bytes(vs)
    ensures var (k, r) := Skip(vs, n);
      k < |vs| && r <= vs[k].len && Drop(vs, n) == Trim(vs, k, r)[k..] && Bytes(Drop(vs, n)) + n == Bytes(vs)
  {
    if n == 0 || vs[0].len > n {
      assert Trim(vs, 0, n)[1..] == vs[1..];
      assert vs[0 := Vec(vs[0].addr + 0, vs[0].len - 0, vs[0].high)] == vs;
    } else {
      DropIsTrim(vs[1..], n - vs[0].len);
      var (k, r) := Skip(vs[1..], n - vs[0].len);
      assert Trim(vs, k + 1, r)[k + 1..] == Trim(vs[1..], k, r)[k..];
    }
  }

  /** Skipping a bytes and then c bytes is skipping a + c bytes. */
  lemma {:induction false} DropSplit(vs: seq<Vec>, a: nat, c: nat)
    requires a + c <= Bytes(vs)
    ensures Drop(Drop(vs, a), c) == Drop(vs, a + c)
    ensures Skip(vs, a).0 + Skip(Drop(vs, a), c).0 == Skip(vs, a + c).0
  {
    if a == 0 || vs == [] {
    } else if vs[0].len > a {
      var t := Trim(vs, 0, a);
      assert t[1..] == vs[1..];
      if t[0].len > c {
        assert Trim(t, 0, c) == Trim(vs, 0, a + c);
      }
    } else {
      DropSplit(vs[1..], a - vs[0].len, c);
    }
  }

  // ----- one bio -----

  /** Equal in everything a driver or a later completion can see: all fields, and
      the vectors from bi_idx on. */
  predicate Same(b: Bio, c: Bio) { Live(b) == Live(c) && b.(vecs := []) == c.(vecs := []) }

  /** How `n` bytes change a bio. */
  predicate Moved(b: Bio, c: Bio, n: nat, err: int) {
    && c.size == b.size - n && c.sector == b.sector + Sectors(n)
    && c.uptodate == (b.uptodate && (n == 0 || err == 0))
    && c.idx == b.idx + Skip(Live(b), n).0 && Live(c) == Drop(Live(b), n)
    && c.id == b.id && c.front == b.front && c.back == b.back && c.segs == b.segs && c.counted == b.counted
  }

  lemma {:induction false} AdvanceMoved(b: Bio, n: nat, err: int)
    requires BioOk(b) && n < b.size
    ensures BioOk(Advance(b, n, err)) && Moved(b, Advance(b, n, err), n, err)
  {
    if n != 0 {
      var (k, r) := Skip(Live(b), n);
      DropIsTrim(Live(b), n);
      TrimLive(b.vecs, b.idx, k, r);
      AdvanceIs(b, n, err, k, r, Advance(b, n, err));
    }
  }

  lemma {:induction false} AdvanceIs(b: Bio, n: nat, err: int, k: nat, r: nat, c: Bio)
    requires b.idx + k < |b.vecs| && 0 < n < b.size && Skip(Live(b), n) == (k, r)
    requires Trim(b.vecs, b.idx + k, r)[b.idx + k..] == Drop(Live(b), n) && Bytes(Drop(Live(b), n)) + n == b.size
    requires c == Advance(b, n, err)
    ensures BioOk(c) && Moved(b, c, n, err)
  {
    assert Live(c) == Drop(Live(b), n);
  }

  /** Trimming the list of all vectors trims the live ones. */
  lemma {:induction false} TrimLive(vecs: seq<Vec>, idx: nat, k: nat, r: nat)
    requires idx + k < |vecs| && r <= vecs[idx + k].len
    ensures idx + k < |Trim(vecs, idx + k, r)|
    ensures Trim(vecs, idx + k, r)[idx + k..] == Trim(vecs[idx..], k, r)[k..]
  {
  }

  lemma {:induction false} MovedTwice(b: Bio, b': Bio, two: Bio, one: Bio, a: nat, c: nat, err: int)
    requires BioOk(b) && a + c < b.size && a % 512 == 0
    requires Moved(b, b', a, err) && Moved(b', two, c, err) && Moved(b, one, a + c, err)
    ensures Same(two, one)
  {
    DropSplit(Live(b), a, c);
    WholeFirst(a, c);
  }

  lemma {:induction false} WholeFirst(a: nat, c: nat)
    requires a % 512 == 0
    ensures Sectors(a) + Sectors(c) == Sectors(a + c)
  {
  }

  // ----- lists of bios -----

  ghost predicate SameBios(s: seq<Bio>, t: seq<Bio>) {
    |s| == |t| && forall k :: 0 <= k < |s| ==> Same(s[k], t[k])
  }

  /** Every bio holds whole sectors. */
  ghost predicate WholeSectors(bios: seq<Bio>) { forall k :: 0 <= k < |bios| ==> bios[k].size % 512 == 0 }

  /** n bytes end every bio: they reach past the last but one, and to the end. Only
      with an empty bio at the end is that more than covering the bytes. */
  predicate Covered(bios: seq<Bio>, n: nat) {
    bios == [] || (TotalSize(bios) <= n && (|bios| == 1 || TotalSize(bios[..|bios| - 1]) < n))
  }

  lemma {:induction false} TotalInit(bios: seq<Bio>)
    requires bios != []
    ensures TotalSize(bios) == TotalSize(bios[..|bios| - 1]) + bios[|bios| - 1].size
  {
    var n := |bios| - 1;
    if n == 0 {
      assert bios[1..] == [] && bios[..0] == [];
    } else {
      TotalInit(bios[1..]);
      assert bios[..n][1..] == bios[1..][..n - 1];
    }
  }

  lemma {:induction false} CoveredTail(bios: seq<Bio>, n: nat)
    requires |bios| > 1
    ensures Covered(bios, n) <==> bios[0].size < n && Covered(bios[1..], n - bios[0].size)
  {
    var k := |bios| - 1;
    assert bios[..k][1..] == bios[1..][..k - 1];
    assert TotalSize(bios[..k]) == bios[0].size + TotalSize(bios[1..][..k - 1]);
  }

  /** Without empty bios the bytes are all that counts. */
  lemma {:induction false} CoveredBytes(bios: seq<Bio>, n: nat)
    requires BiosOk(bios)
    ensures Covered(bios, n) <==> TotalSize(bios) <= n
  {
    if bios != [] {
      assert BioOk(bios[|bios| - 1]);
      TotalInit(bios);
    }
  }

  /** The bios left are well formed and hold exactly the bytes not completed. */
  lemma {:induction false} CompleteFits(bios: seq<Bio>, n: nat, err: int, quiet: bool)
    requires BiosFit(bios)
    ensures var r := Complete(bios, n, err, quiet);
      && BiosFit(r.bios)
      && TotalSize(r.bios) == (if n < TotalSize(bios) then TotalSize(bios) - n else 0)
      && (r.bios == [] <==> Covered(bios, n))
    decreases |bios|
  {
    if bios != [] {
      assert BioFits(bios[0]);
      if |bios| > 1 { CoveredTail(bios, n); }
      if n < bios[0].size {
        AdvanceMoved(bios[0], n, err);
        var r := Complete(bios, n, err, quiet);
        assert r.bios[1..] == bios[1..];
      } else if n > bios[0].size {
        CompleteFits(bios[1..], n - bios[0].size, err, quiet);
      } else {
        assert |bios| > 1 ==> bios[1..] != [];
      }
    }
  }

  lemma {:induction false} CompleteHolds(bios: seq<Bio>, n: nat, err: int, quiet: bool)
    requires BiosOk(bios)
    ensures BiosOk(Complete(bios, n, err, quiet).bios)
    decreases |bios|
  {
    if bios != [] {
      if n < bios[0].size {
        assert BioOk(bios[0]);
        AdvanceMoved(bios[0], n, err);
      } else if n > bios[0].size {
        CompleteHolds(bios[1..], n - bios[0].size, err, quiet);
      }
    }
  }

  /** The same for bios that all hold bytes, and then none is left exactly when the bytes are covered. */
  lemma {:induction false} CompleteOk(bios: seq<Bio>, n: nat, err: int, quiet: bool)
    requires BiosOk(bios)
    ensures var r := Complete(bios, n, err, quiet);
      && BiosOk(r.bios)
      && TotalSize(r.bios) == (if n < TotalSize(bios) then TotalSize(bios) - n else 0)
      && (r.bios == [] <==> TotalSize(bios) <= n)
  {
    assert BiosFit(bios) by { forall k | 0 <= k < |bios| ensures BioFits(bios[k]) { assert BioOk(bios[k]); } }
    CompleteFits(bios, n, err, quiet);
    CompleteHolds(bios, n, err, quiet);
    CoveredBytes(bios, n);
  }

  /** a bytes and then c bytes do what a + c bytes do at once. */
  ghost predicate Splits(bios: seq<Bio>, a: nat, c: nat, err: int, quiet: bool) {
    var first := Complete(bios, a, err, quiet);
    var second := Complete(first.bios, c, err, quiet);
    var both := Complete(bios, a + c, err, quiet);
    SameBios(second.bios, both.bios) && first.ended + second.ended == both.ended
  }

  /** The a bytes end with a bio, and the next one is empty. */
  predicate StopsAtEmpty(bios: seq<Bio>, a: nat)
    decreases |bios|
  {
    bios != [] && bios[0].size <= a &&
    if a == bios[0].size then |bios| > 1 && bios[1].size == 0 else StopsAtEmpty(bios[1..], a - bios[0].size)
  }

  /** Then, and only then, the first bio left is empty. */
  lemma {:induction false} EmptyLeft(bios: seq<Bio>, a: nat, err: int, quiet: bool)
    requires BiosFit(bios)
    ensures var left := Complete(bios, a, err, quiet).bios;
      StopsAtEmpty(bios, a) <==> left != [] && left[0].size == 0
    decreases |bios|
  {
    if bios != [] {
      assert BioFits(bios[0]);
      if a < bios[0].size {
        AdvanceMoved(bios[0], a, err);
      } else if a > bios[0].size {
        EmptyLeft(bios[1..], a - bios[0].size, err, quiet);
      }
    }
  }

  /** Completing a bytes and then c bytes leaves the same bios and vectors, and
      ends the same bios with the same errors in the same order, as completing
      a + c bytes at once: exactly if the second call completes something or does
      not find an empty bio, which it would end. */
  lemma {:induction false} CompleteSplit(bios: seq<Bio>, a: nat, c: nat, err: int, quiet: bool)
    requires BiosFit(bios) && WholeSectors(bios) && a % 512 == 0
    ensures Splits(bios, a, c, err, quiet) <==> c > 0 || !StopsAtEmpty(bios, a)
  {
    if c > 0 || !StopsAtEmpty(bios, a) {
      SplitHolds(bios, a, c, err, quiet);
    } else {
      EmptyLeft(bios, a, err, quiet);
    }
  }

  lemma {:induction false} SplitHolds(bios: seq<Bio>, a: nat, c: nat, err: int, quiet: bool)
    requires BiosFit(bios) && WholeSectors(bios) && a % 512 == 0 && (c > 0 || !StopsAtEmpty(bios, a))
    ensures Splits(bios, a, c, err, quiet)
    decreases |bios|
  {
    if bios == [] {
    } else if a < bios[0].size {
      SplitInHead(bios, a, c, err, quiet);
    } else if a == bios[0].size {
      SplitAtHead(bios, a, c, err, quiet);
    } else {
      SplitHolds(bios[1..], a - bios[0].size, c, err, quiet);
      SplitPastHead(bios, a, c, err, quiet);
    }
  }

  lemma {:induction false} SplitAtHead(bios: seq<Bio>, a: nat, c: nat, err: int, quiet: bool)
    requires bios != [] && a == bios[0].size && (c > 0 || |bios| == 1 || bios[1].size > 0)
    ensures Splits(bios, a, c, err, quiet)
  {
    if c == 0 { CompleteNone(bios[1..], err, quiet); }
  }

  lemma {:induction false} SplitPastHead(bios: seq<Bio>, a: nat, c: nat, err: int, quiet: bool)
    requires bios != [] && a > bios[0].size && Splits(bios[1..], a - bios[0].size, c, err, quiet)
    ensures Splits(bios, a, c, err, quiet)
  {
    var more := Complete(bios[1..], a - bios[0].size, err, quiet);
    var last := Complete(more.bios, c, err, quiet).ended;
    var note := if quiet then [] else [EndRecord(bios[0], err)];
    assert note + more.ended + last == note + (more.ended + last);
  }

  lemma {:induction false} CompleteNone(bios: seq<Bio>, err: int, quiet: bool)
    requires bios != [] ==> bios[0].size > 0
    ensures Complete(bios, 0, err, quiet) == Rest(bios, [])
  {
    if bios != [] { assert [bios[0]] + bios[1..] == bios; }
  }

  lemma {:induction false} SplitInHead(bios: seq<Bio>, a: nat, c: nat, err: int, quiet: bool)
    requires BiosFit(bios) && WholeSectors(bios) && a % 512 == 0 && bios != [] && a < bios[0].size
    ensures Splits(bios, a, c, err, quiet)
  {
    if a + c < bios[0].size { HeadStays(bios, a, c, err, quiet); } else { HeadEnds(bios, a, c, err, quiet); }
  }

  lemma {:induction false} AdvanceTwice(b: Bio, a: nat, c: nat, err: int, b': Bio)
    requires BioOk(b) && a % 512 == 0 && a + c < b.size && b' == Advance(b, a, err)
    ensures b'.size == b.size - a && Same(Advance(b', c, err), Advance(b, a + c, err))
  {
    AdvanceMoved(b, a, err);
    AdvanceAgain(b, b', a, c, err);
  }

  lemma {:induction false} AdvanceAgain(b: Bio, b': Bio, a: nat, c: nat, err: int)
    requires BioOk(b) && BioOk(b') && a % 512 == 0 && a + c < b.size && Moved(b, b', a, err)
    ensures Same(Advance(b', c, err), Advance(b, a + c, err))
  {
    AdvanceMoved(b', c, err);
    AdvanceMoved(b, a + c, err);
    MovedTwice(b, b', Advance(b', c, err), Advance(b, a + c, err), a, c, err);
  }

  lemma {:induction false} HeadStays(bios: seq<Bio>, a: nat, c: nat, err: int, quiet: bool)
    requires BiosFit(bios) && a % 512 == 0 && bios != [] && a + c < bios[0].size
    ensures Splits(bios, a, c, err, quiet)
  {
    var b := bios[0];
    assert BioFits(b);
    var b' := Advance(b, a, err);
    AdvanceTwice(b, a, c, err, b');
    SameHead(Advance(b', c, err), Advance(b, a + c, err), bios[1..]);
    var first := [b'] + bios[1..];
    assert first[0] == b' && first[1..] == bios[1..];
  }

  lemma {:induction false} HeadEnds(bios: seq<Bio>, a: nat, c: nat, err: int, quiet: bool)
    requires BiosFit(bios) && WholeSectors(bios) && a % 512 == 0 && bios != [] && a < bios[0].size <= a + c
    ensures Splits(bios, a, c, err, quiet)
  {
    var b := bios[0];
    assert BioFits(b);
    AdvanceMoved(b, a, err);
    var b' := Advance(b, a, err);
    assert EndRecord(b', err) == EndRecord(b, err) by { WholeFirst(a, b.size - a); }
    var first := [b'] + bios[1..];
    assert first[0] == b' && first[1..] == bios[1..];
    assert Complete(bios, a, err, quiet) == Rest(first, []);
    assert Complete(first, c, err, quiet) == Complete(bios, a + c, err, quiet);
  }

  lemma {:induction false} SameHead(b: Bio, c: Bio, rest: seq<Bio>)
    requires Same(b, c)
    ensures SameBios([b] + rest, [c] + rest)
  {
  }

  // ----- the request -----

  /** A request: `fs` is REQ_TYPE_FS, `quiet` REQ_FLUSH_SEQ. */
  datatype Req = Req(bios: seq<Bio>, dataLen: nat, sector: nat, fs: bool, quiet: bool, ended: seq<Ended>)

  /** __data_len is the sum of the remaining bi_size, and each bio's vectors sum to its bi_size. */
  ghost predicate ReqOk(rq: Req) { BiosOk(rq.bios) && rq.dataLen == TotalSize(rq.bios) }

  /** blk_update_request; true while bytes are left. A request that completes
      keeps its sector. */
  function Update(rq: Req, err: int, n: nat): (Req, bool) {
    if rq.bios == [] then (rq, false) else Settle(rq, Complete(rq.bios, n, err, rq.quiet), n)
  }

  /** blk_update_request after its loop. */
  function Settle(rq: Req, r: Rest, n: nat): (Req, bool) {
    if r.bios == [] then (rq.(bios := [], ended := rq.ended + r.ended, dataLen := 0), false)
    else
      (rq.(bios := r.bios, ended := rq.ended + r.ended,
           dataLen := if n <= rq.dataLen then rq.dataLen - n else 0,
           sector := if rq.fs then rq.sector + Sectors(n) else rq.sector), true)
  }

  /** The same, with bios that may be empty. */
  ghost predicate ReqFits(rq: Req) { BiosFit(rq.bios) && rq.dataLen == TotalSize(rq.bios) }

  /** The counts stay consistent, and false is returned exactly when the bytes end every bio. */
  lemma {:induction false} UpdateFits(rq: Req, err: int, n: nat)
    requires ReqFits(rq)
    ensures var (rq', more) := Update(rq, err, n);
      && ReqFits(rq') && (more <==> !Covered(rq.bios, n))
      && (more ==> n <= rq.dataLen && rq'.dataLen == rq.dataLen - n)
  {
    CompleteFits(rq.bios, n, err, rq.quiet);
    if rq.bios != [] && !Covered(rq.bios, n) { UncoveredBytes(rq.bios, n); }
  }

  lemma {:induction false} UncoveredBytes(bios: seq<Bio>, n: nat)
    requires bios != [] && !Covered(bios, n)
    ensures n <= TotalSize(bios)
  {
    TotalInit(bios);
  }

  /** An empty bio at the end outlives the last byte: the call returns true with nothing left to do. */
  lemma EmptyBioStays() returns (rq: Req, n: nat)
    ensures ReqFits(rq) && n == rq.dataLen == 512 && Update(rq, 0, n).1 && Update(rq, 0, n).0.dataLen == 0
    ensures WholeSectors(rq.bios) && StopsAtEmpty(rq.bios, n)
  {
    var full := Bio(0, 0, 512, [Vec(0, 512, false)], 0, true, 0, 0, 0, false);
    var none := Bio(1, 1, 0, [], 0, true, 0, 0, 0, false);
    rq, n := Req([full, none], 512, 0, true, false, []), 512;
    OneVec(full);
    TwoBios(full, none);
    assert BioFits(none) by { assert Live(none) == []; }
    forall k | 0 <= k < |rq.bios| ensures BioFits(rq.bios[k]) { }
    UpdateFits(rq, 0, n);
  }

  lemma {:induction false} OneVec(b: Bio)
    requires b.idx == 0 && |b.vecs| == 1 && b.size == b.vecs[0].len
    ensures BioFits(b)
  {
    assert Live(b) == b.vecs && b.vecs[1..] == [];
    assert Bytes(b.vecs[1..]) == 0;
  }

  lemma {:induction false} TwoBios(b: Bio, c: Bio)
    ensures TotalSize([b, c]) == b.size + c.size && ([b, c][..1] == [b] && TotalSize([b]) == b.size)
  {
    assert [b, c][1..] == [c] && [c][1..] == [] && [b][1..] == [];
    assert TotalSize([c]) == c.size;
  }

  /** The counts stay consistent, and false is returned exactly when the bytes
      cover the request. */
  lemma {:induction false} UpdateOk(rq: Req, err: int, n: nat)
    requires ReqOk(rq)
    ensures var (rq', more) := Update(rq, err, n);
      && ReqOk(rq') && (more <==> n < TotalSize(rq.bios))
      && (more ==> rq'.dataLen == rq.dataLen - n)
  {
    CompleteOk(rq.bios, n, err, rq.quiet);
  }

  /** The second of two completions does not finish a file system request of which
      the first left some bios and completed bytes. */
  predicate SectorAgrees(rq: Req, a: nat, c: nat) {
    !Covered(rq.bios, a + c) || Covered(rq.bios, a) || !rq.fs || a == 0
  }

  /** The same result, bios, vectors, byte count and endings. */
  ghost predicate Agree(two: (Req, bool), one: (Req, bool)) {
    two.1 == one.1 && SameBios(two.0.bios, one.0.bios) && two.0.dataLen == one.0.dataLen && two.0.ended == one.0.ended
  }

  /** Two completions against one of the same bytes: they agree in everything but
      the sector exactly if the second completes something or finds no empty bio,
      and in the sector exactly under its own condition. */
  lemma {:induction false} UpdateSplit(rq: Req, a: nat, c: nat, err: int)
    requires ReqFits(rq) && WholeSectors(rq.bios) && a % 512 == 0
    ensures var two := Update(Update(rq, err, a).0, err, c);
      var one := Update(rq, err, a + c);
      && (Agree(two, one) <==> c > 0 || !StopsAtEmpty(rq.bios, a))
      && (two.0.sector == one.0.sector <==> SectorAgrees(rq, a, c))
  {
    if c > 0 || !StopsAtEmpty(rq.bios, a) {
      UpdateAgrees(rq, a, c, err);
    } else {
      UpdateAgain(rq, a, err);
    }
  }

  lemma {:induction false} UpdateAgrees(rq: Req, a: nat, c: nat, err: int)
    requires ReqFits(rq) && WholeSectors(rq.bios) && a % 512 == 0 && (c > 0 || !StopsAtEmpty(rq.bios, a))
    ensures var two := Update(Update(rq, err, a).0, err, c);
      var one := Update(rq, err, a + c);
      Agree(two, one) && (two.0.sector == one.0.sector <==> SectorAgrees(rq, a, c))
  {
    var q := rq.quiet;
    CompleteSplit(rq.bios, a, c, err, q);
    var r1 := Complete(rq.bios, a, err, q);
    var r := Complete(rq.bios, a + c, err, q);
    CompleteFits(rq.bios, a, err, q);
    CompleteFits(rq.bios, a + c, err, q);
    if r.bios != [] { UncoveredBytes(rq.bios, a + c); }
    SettleSplit(rq, r1, Complete(r1.bios, c, err, q), r, a, c);
  }

  /** A completion of nothing that finds an empty bio ends it. */
  lemma {:induction false} UpdateAgain(rq: Req, a: nat, err: int)
    requires ReqFits(rq) && StopsAtEmpty(rq.bios, a)
    ensures var one := Update(rq, err, a);
      var two := Update(one.0, err, 0);
      !Agree(two, one) && two.0.sector == one.0.sector && !Covered(rq.bios, a)
  {
    EmptyLeft(rq.bios, a, err, rq.quiet);
    CompleteFits(rq.bios, a, err, rq.quiet);
  }

  /** A request of 512 bytes with an empty bio behind them, completed whole and then by nothing. */
  lemma SplitMayDiffer() returns (rq: Req)
    ensures ReqFits(rq) && WholeSectors(rq.bios) && rq.dataLen == 512
    ensures !Splits(rq.bios, 512, 0, 0, false)
    ensures !Agree(Update(Update(rq, 0, 512).0, 0, 0), Update(rq, 0, 512))
  {
    var n;
    rq, n := EmptyBioStays();
    CompleteSplit(rq.bios, 512, 0, 0, false);
    UpdateSplit(rq, 512, 0, 0);
  }

  lemma {:induction false} OkFits(rq: Req)
    requires ReqOk(rq)
    ensures ReqFits(rq)
  {
    forall k | 0 <= k < |rq.bios| ensures BioFits(rq.bios[k]) { assert BioOk(rq.bios[k]); }
  }

  /** A file system request of two sectors, completed one sector at a time: the
      first step moves its sector, the whole at once does not. */
  lemma SectorMayDiffer() returns (rq: Req)
    ensures ReqOk(rq) && WholeSectors(rq.bios) && rq.fs && rq.dataLen == 1024
    ensures Update(Update(rq, 0, 512).0, 0, 512).0.sector == rq.sector + 1
    ensures Update(rq, 0, 1024).0.sector == rq.sector
  {
    var b := Bio(0, 0, 1024, [Vec(0, 1024, false)], 0, true, 0, 0, 0, false);
    rq := Req([b], 1024, 0, true, false, []);
    assert Live(b)[1..] == [] && [b][1..] == [] && BioOk(b);
    UpdateOk(rq, 0, 512);
    UpdateOk(Update(rq, 0, 512).0, 0, 512);
    OkFits(rq);
    UpdateSplit(rq, 512, 512, 0);
  }

  lemma {:induction false} SettleSplit(rq: Req, r1: Rest, r2: Rest, r: Rest, a: nat, c: nat)
    requires a % 512 == 0 && SameBios(r2.bios, r.bios) && r1.ended + r2.ended == r.ended
    requires r1.bios == [] ==> r2 == Rest([], [])
    requires r.bios != [] ==> a + c <= rq.dataLen
    ensures var (first, more1) := Settle(rq, r1, a);
      var (two, more2) := if first.bios == [] then (first, false) else Settle(first, r2, c);
      var (one, more) := Settle(rq, r, a + c);
      && more2 == more && SameBios(two.bios, one.bios) && two.dataLen == one.dataLen && two.ended == one.ended
      && (two.sector == one.sector <==> more || !more1 || !rq.fs || a < 512)
  {
    WholeFirst(a, c);
    assert rq.ended + r1.ended + r2.ended == rq.ended + (r1.ended + r2.ended);
  }
}
