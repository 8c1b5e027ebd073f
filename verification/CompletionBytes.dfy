/** Which bytes a partial completion leaves: their addresses in memory, their place on
    the disk, and what became of the bios that held the others. */
module CompletionBytes {
  import opened Bios
  import opened Completion

  /** The addresses of the vectors' bytes, in order. */
  function Addrs(vs: seq<Vec>): seq<nat> {
    if vs == [] then [] else Span(vs[0].addr, vs[0].len) + Addrs(vs[1..])
  }

  /** The same for the live vectors of a list of bios. */
  function BioAddrs(bios: seq<Bio>): seq<nat> {
    if bios == [] then [] else Addrs(Live(bios[0])) + BioAddrs(bios[1..])
  }

  /** Where on the disk the bytes of the bios are. */
  function DiskBytes(bios: seq<Bio>): seq<nat> {
    if bios == [] then [] else Span(512 * bios[0].sector, bios[0].size) + DiskBytes(bios[1..])
  }

  lemma {:induction false} AddrsLength(vs: seq<Vec>)
    ensures |Addrs(vs)| == Bytes(vs)
  {
    if vs != [] { AddrsLength(vs[1..]); }
  }

  lemma {:induction false} AddrsAppend(vs: seq<Vec>, ws: seq<Vec>)
    ensures Addrs(vs + ws) == Addrs(vs) + Addrs(ws)
  {
    if vs == [] {
      assert vs + ws == ws;
    } else {
      assert (vs + ws)[1..] == vs[1..] + ws;
      AddrsAppend(vs[1..], ws);
      assert Span(vs[0].addr, vs[0].len) + (Addrs(vs[1..]) + Addrs(ws)) ==
             Span(vs[0].addr, vs[0].len) + Addrs(vs[1..]) + Addrs(ws);
    }
  }

  lemma {:induction false} BioAddrsLength(bios: seq<Bio>)
    requires BiosFit(bios)
    ensures |BioAddrs(bios)| == TotalSize(bios)
  {
    if bios != [] {
      assert BioFits(bios[0]);
      AddrsLength(Live(bios[0]));
      BioAddrsLength(bios[1..]);
    }
  }

  lemma {:induction false} DiskLength(bios: seq<Bio>)
    ensures |DiskBytes(bios)| == TotalSize(bios)
  {
    if bios != [] { DiskLength(bios[1..]); }
  }

  lemma {:induction false} SpanDrop(addr: nat, len: nat, n: nat)
    requires n <= len
    ensures Span(addr + n, len - n) == Span(addr, len)[n..]
  {
  }

  /** What is left of a sequence after n of it and another are dropped. */
  lemma {:induction false} DropBoth(a: seq<nat>, b: seq<nat>, n: nat)
    requires n <= |a + b|
    ensures (a + b)[n..] == if n <= |a| then a[n..] + b else b[n - |a|..]
  {
  }

  lemma {:induction false} DropAddrs(vs: seq<Vec>, n: nat)
    requires n <= Bytes(vs)
    ensures |Addrs(vs)| == Bytes(vs) && Addrs(Drop(vs, n)) == Addrs(vs)[n..]
  {
    AddrsLength(vs);
    if n != 0 && vs != [] {
      var v := vs[0];
      DropBoth(Span(v.addr, v.len), Addrs(vs[1..]), n);
      AddrsLength(vs[1..]);
      if v.len > n {
        SpanDrop(v.addr, v.len, n);
        assert Trim(vs, 0, n)[1..] == vs[1..];
      } else {
        DropAddrs(vs[1..], n - v.len);
      }
    }
  }

  /** The addresses left are the old ones less the first n. */
  lemma {:induction false} CompleteAddrs(bios: seq<Bio>, n: nat, err: int, quiet: bool)
    requires BiosFit(bios) && n <= TotalSize(bios)
    ensures |BioAddrs(bios)| == TotalSize(bios)
    ensures BioAddrs(Complete(bios, n, err, quiet).bios) == BioAddrs(bios)[n..]
    decreases |bios|
  {
    BioAddrsLength(bios);
    if bios != [] {
      var b := bios[0];
      assert BioFits(b);
      AddrsLength(Live(b));
      DropBoth(Addrs(Live(b)), BioAddrs(bios[1..]), n);
      if n < b.size {
        AdvanceMoved(b, n, err);
        DropAddrs(Live(b), n);
        assert ([Advance(b, n, err)] + bios[1..])[1..] == bios[1..];
      } else if n > b.size {
        CompleteAddrs(bios[1..], n - b.size, err, quiet);
      }
    }
  }

  /** So are the places on the disk, if n is whole sectors. */
  lemma {:induction false} CompleteDisk(bios: seq<Bio>, n: nat, err: int, quiet: bool)
    requires WholeSectors(bios) && n % 512 == 0 && n <= TotalSize(bios)
    ensures |DiskBytes(bios)| == TotalSize(bios)
    ensures DiskBytes(Complete(bios, n, err, quiet).bios) == DiskBytes(bios)[n..]
    decreases |bios|
  {
    DiskLength(bios);
    if bios != [] {
      var b := bios[0];
      DropBoth(Span(512 * b.sector, b.size), DiskBytes(bios[1..]), n);
      if n < b.size {
        AdvanceDisk(b, n, err, bios[1..]);
      } else if n > b.size {
        WholeTail(bios, n);
        CompleteDisk(bios[1..], n - b.size, err, quiet);
      }
    }
  }

  lemma {:induction false} WholeTail(bios: seq<Bio>, n: nat)
    requires bios != [] && WholeSectors(bios) && n % 512 == 0 && bios[0].size <= n
    ensures WholeSectors(bios[1..]) && (n - bios[0].size) % 512 == 0
  {
    assert bios[0].size % 512 == 0;
  }

  lemma {:induction false} AdvanceDisk(b: Bio, n: nat, err: int, rest: seq<Bio>)
    requires n < b.size && n % 512 == 0
    ensures DiskBytes([Advance(b, n, err)] + rest) == Span(512 * b.sector, b.size)[n..] + DiskBytes(rest)
  {
    var e := Advance(b, n, err);
    assert e.size == b.size - n && 512 * e.sector == 512 * b.sector + n;
    SpanDrop(512 * b.sector, b.size, n);
    assert ([e] + rest)[1..] == rest;
  }

  /** One bio, of which n bytes complete. */
  lemma {:induction false} AdvanceAddrs(b: Bio, n: nat, err: int)
    requires BioFits(b) && 0 < n < b.size
    ensures |Addrs(Live(b))| == b.size && Addrs(Live(Advance(b, n, err))) == Addrs(Live(b))[n..]
  {
    AdvanceMoved(b, n, err);
    DropAddrs(Live(b), n);
  }

  /** What bio_endio is told of a bio that ended at its last sector. */
  predicate EndedRight(b: Bio, e: Ended, err: int) {
    && e.id == b.id && 512 * e.sector <= 512 * b.sector + b.size < 512 * e.sector + 512
    && e.error == if err != 0 then err else if b.uptodate then 0 else -5
  }

  /** The first k bios are over, ended in order unless quiet; the next, if there is one,
      has lost the other bytes and learnt of an error with them, and those behind it
      are as they were. */
  ghost predicate Over(bios: seq<Bio>, r: Rest, k: nat, n: nat, err: int, quiet: bool) {
    && k <= |bios| && |r.bios| == |bios| - k && |r.ended| == (if quiet then 0 else k)
    && (!quiet ==> forall j :: 0 <= j < k ==> EndedRight(bios[j], r.ended[j], err))
    && (k < |bios| ==> r.bios[1..] == bios[k + 1..] && r.bios[0].id == bios[k].id && TotalSize(bios[..k]) <= n)
    && (k < |bios| ==> n - TotalSize(bios[..k]) < bios[k].size || n == TotalSize(bios[..k]))
    && (k < |bios| && n == TotalSize(bios[..k]) ==> r.bios[0] == bios[k])
    && (k < |bios| && n > TotalSize(bios[..k]) ==>
        r.bios[0].uptodate == (bios[k].uptodate && err == 0)
        && r.bios[0].size == bios[k].size - (n - TotalSize(bios[..k])))
  }

  lemma {:induction false} CompleteOver(bios: seq<Bio>, n: nat, err: int, quiet: bool, r: Rest) returns (k: nat)
    requires r == Complete(bios, n, err, quiet)
    ensures Over(bios, r, k, n, err, quiet)
    decreases |bios|
  {
    if bios == [] {
      k := 0;
    } else if n < bios[0].size {
      k := 0;
      assert bios[..0] == [];
    } else if n == bios[0].size {
      k := 1;
      assert bios[..1] == [bios[0]] && [bios[0]][1..] == [];
    } else {
      var more := Complete(bios[1..], n - bios[0].size, err, quiet);
      var j := CompleteOver(bios[1..], n - bios[0].size, err, quiet, more);
      k := j + 1;
      assert bios[..k][1..] == bios[1..][..j];
      OverNext(bios, more, j, n, err, quiet, r);
    }
  }

  lemma {:induction false} OverNext(bios: seq<Bio>, more: Rest, j: nat, n: nat, err: int, quiet: bool, r: Rest)
    requires bios != [] && bios[0].size < n && Over(bios[1..], more, j, n - bios[0].size, err, quiet)
    requires r == Rest(more.bios, (if quiet then [] else [EndRecord(bios[0], err)]) + more.ended)
    ensures Over(bios, r, j + 1, n, err, quiet)
  {
    assert bios[..j + 1][1..] == bios[1..][..j];
    if !quiet {
      forall i | 0 <= i < j + 1 ensures EndedRight(bios[i], r.ended[i], err) {
        if i > 0 { assert EndedRight(bios[1..][i - 1], more.ended[i - 1], err); }
      }
    }
  }

  // ----- the request -----

  /** Bios of whole sectors that follow one another on the disk from a sector on. */
  ghost predicate Follow(bios: seq<Bio>, sector: nat)
    decreases |bios|
  {
    bios == [] || (bios[0].sector == sector && bios[0].size % 512 == 0
                   && Follow(bios[1..], sector + bios[0].size / 512))
  }

  lemma {:induction false} CompleteFollow(bios: seq<Bio>, sector: nat, n: nat, err: int, quiet: bool)
    requires Follow(bios, sector) && n % 512 == 0
    ensures Follow(Complete(bios, n, err, quiet).bios, sector + n / 512)
    decreases |bios|
  {
    if bios != [] {
      var b := bios[0];
      if n < b.size {
        var e := Advance(b, n, err);
        assert e.size == b.size - n && e.sector == b.sector + n / 512;
        assert e.sector + e.size / 512 == b.sector + b.size / 512;
        assert ([e] + bios[1..])[1..] == bios[1..];
      } else if n > b.size {
        CompleteFollow(bios[1..], sector + b.size / 512, n - b.size, err, quiet);
        assert sector + b.size / 512 + (n - b.size) / 512 == sector + n / 512;
      }
    }
  }

  lemma {:induction false} UpdateAddrs(rq: Req, err: int, n: nat)
    requires ReqFits(rq)
    ensures |BioAddrs(rq.bios)| == rq.dataLen
    ensures BioAddrs(Update(rq, err, n).0.bios) == if n <= rq.dataLen then BioAddrs(rq.bios)[n..] else []
  {
    BioAddrsLength(rq.bios);
    if n <= rq.dataLen { CompleteAddrs(rq.bios, n, err, rq.quiet); } else { CompleteAll(rq.bios, n, err, rq.quiet); }
  }

  lemma {:induction false} CompleteAll(bios: seq<Bio>, n: nat, err: int, quiet: bool)
    requires n > TotalSize(bios)
    ensures Complete(bios, n, err, quiet).bios == []
    decreases |bios|
  {
    if bios != [] { CompleteAll(bios[1..], n - bios[0].size, err, quiet); }
  }

  /** A file-system request that starts where its bios do goes on to, as long as whole
      sectors of it complete. */
  lemma {:induction false} UpdateFollows(rq: Req, err: int, n: nat)
    requires rq.fs && Follow(rq.bios, rq.sector) && n % 512 == 0
    ensures Follow(Update(rq, err, n).0.bios, Update(rq, err, n).0.sector)
  {
    CompleteFollow(rq.bios, rq.sector, n, err, rq.quiet);
  }
}
