/** blk_update_request as it runs: one loop over bios and vectors that changes
    the request in place, proved equal to the specification of completion. */
module CompletionLoop {
  import opened Bios
  import opened Completion
  import opened CompletionBytes

  /** Where the loop stands inside the first bio: `nextIdx` of its vectors
      (`done` bytes) are passed and `left` bytes are still to be used. */
  ghost predicate Midway(b: Bio, nextIdx: nat, done: nat, left: nat) {
    && nextIdx <= |Live(b)| && Bytes(Live(b)[nextIdx..]) + done == b.size
    && (done + left < b.size ==>
        Skip(Live(b), done + left) ==
          (nextIdx + Skip(Live(b)[nextIdx..], left).0, Skip(Live(b)[nextIdx..], left).1))
  }

  lemma {:induction false} MidwayStart(b: Bio, left: nat)
    requires BioFits(b)
    ensures Midway(b, 0, 0, left)
  {
    assert Live(b)[0..] == Live(b);
  }

  /** Some vector is left, and passing it whole keeps the account. */
  lemma {:induction false} MidwayStep(b: Bio, nextIdx: nat, done: nat, left: nat)
    requires BioFits(b) && Midway(b, nextIdx, done, left) && done + left < b.size
    ensures nextIdx < |Live(b)|
    ensures Live(b)[nextIdx].len <= left && 0 < left ==>
      Midway(b, nextIdx + 1, done + Live(b)[nextIdx].len, left - Live(b)[nextIdx].len)
    ensures Live(b)[nextIdx].len > left ==> Skip(Live(b), done + left) == (nextIdx, left)
  {
    var vs := Live(b);
    if nextIdx < |vs| {
      BytesDrop(vs, nextIdx);
      assert vs[nextIdx..][1..] == vs[nextIdx + 1..];
    }
  }

  /** What the loop has ended so far, and what the specification still ends, is
      what the whole completion ends. */
  ghost predicate Tracks(whole: Rest, ended0: seq<Ended>, ended: seq<Ended>, rest: Rest) {
    whole.bios == rest.bios && ended0 + whole.ended == ended + rest.ended
  }

  /** The variables of the loop. */
  datatype Cursor = Cursor(nextIdx: nat, bioBytes: nat, left: nat, total: nat)

  /** The loop goes on: the bios left still have `bioBytes + left` bytes to lose. */
  ghost predicate Going(bios: seq<Bio>, c: Cursor, n: nat) {
    && BiosFit(bios) && c.total + c.left == n && (c.nextIdx == 0 ==> c.bioBytes == 0)
    && (bios != [] && 0 < n ==> 0 < c.left)
    && (bios != [] ==> Midway(bios[0], c.nextIdx, c.bioBytes, c.left))
    && (bios != [] && 0 < c.nextIdx ==> c.bioBytes + c.left < bios[0].size && 0 < c.left)
  }

  /** The loop is over with some bytes of the first bio done, or none. */
  ghost predicate Stopped(bios: seq<Bio>, c: Cursor, n: nat) {
    && BiosFit(bios) && bios != [] && c.total == n && (c.bioBytes < bios[0].size || c.bioBytes == 0)
    && (c.bioBytes != 0 ==> Skip(Live(bios[0]), c.bioBytes) == (c.nextIdx, c.left))
  }

  /** A whole bio is done. */
  lemma {:induction false} PopStep(bios: seq<Bio>, c: Cursor, n: nat)
    requires bios != [] && Going(bios, c, n) && c.left >= bios[0].size
    ensures var c' := Cursor(0, 0, c.left - bios[0].size, c.total + bios[0].size);
      if bios[1..] != [] && c'.left == 0 then Stopped(bios[1..], c', n) else Going(bios[1..], c', n)
    ensures c.nextIdx == 0 && c.bioBytes == 0
  {
    if bios[1..] != [] {
      assert bios[1..][0] == bios[1] && BioFits(bios[1]);
      MidwayStart(bios[1], c.left - bios[0].size);
    }
  }

  /** Some vector is left while bytes are, and it may be only partly done. */
  lemma {:induction false} VecThere(bios: seq<Bio>, c: Cursor, n: nat)
    requires bios != [] && Going(bios, c, n) && c.left < bios[0].size
    ensures c.bioBytes + c.left < bios[0].size && bios[0].idx <= |bios[0].vecs| && c.nextIdx < |Live(bios[0])|
    ensures Live(bios[0])[c.nextIdx].len > c.left ==> Skip(Live(bios[0]), c.bioBytes + c.left) == (c.nextIdx, c.left)
  {
    assert BioFits(bios[0]);
    MidwayStep(bios[0], c.nextIdx, c.bioBytes, c.left);
  }

  /** A whole vector is done. */
  lemma {:induction false} VecStep(bios: seq<Bio>, c: Cursor, n: nat, len: nat, c': Cursor)
    requires bios != [] && Going(bios, c, n) && c.left < bios[0].size
    requires c.nextIdx < |Live(bios[0])| && len == Live(bios[0])[c.nextIdx].len <= c.left
    requires c' == Cursor(c.nextIdx + 1, c.bioBytes + len, c.left - len, c.total + len)
    ensures if c'.left == 0 then Stopped(bios, c', n) else Going(bios, c', n)
  {
    assert BioFits(bios[0]);
    MidwayStep(bios[0], c.nextIdx, c.bioBytes, c.left);
    if 0 < c.left { assert Midway(bios[0], c'.nextIdx, c'.bioBytes, c'.left); }
  }

  /** What the specification leaves when k bytes of the first bio are done. */
  function Partly(bios: seq<Bio>, k: nat, err: int): Rest
    requires bios != [] && k <= bios[0].size
  {
    Rest([Advance(bios[0], k, err)] + bios[1..], [])
  }

  lemma {:induction false} PopTracks(whole: Rest, ended0: seq<Ended>, ended: seq<Ended>, bios: seq<Bio>,
                                     left: nat, err: int, quiet: bool)
    requires bios != [] && left >= bios[0].size
    requires Tracks(whole, ended0, ended, Complete(bios, left, err, quiet))
    ensures var ended' := ended + if quiet then [] else [EndRecord(bios[0], err)];
      if bios[1..] != [] && left == bios[0].size
      then Tracks(whole, ended0, ended', Partly(bios[1..], 0, err))
      else Tracks(whole, ended0, ended', Complete(bios[1..], left - bios[0].size, err, quiet))
  {
    var note := if quiet then [] else [EndRecord(bios[0], err)];
    var rest := bios[1..];
    if left == bios[0].size {
      assert rest != [] ==> [rest[0]] + rest[1..] == rest;
      assert ended + note + [] == ended + note;
    } else {
      var more := Complete(rest, left - bios[0].size, err, quiet);
      assert ended + (note + more.ended) == ended + note + more.ended;
    }
  }

  /** The loop invariant of blk_update_request. */
  ghost predicate AtHead(whole: Rest, ended0: seq<Ended>, bios: seq<Bio>, ended: seq<Ended>, c: Cursor,
                         stop: bool, n: nat, err: int, quiet: bool) {
    if stop then Stopped(bios, c, n) && Tracks(whole, ended0, ended, Partly(bios, c.bioBytes, err))
    else Going(bios, c, n) && Tracks(whole, ended0, ended, Complete(bios, c.bioBytes + c.left, err, quiet))
  }

  /** What the loop's outcome says about the specification. */
  lemma {:induction false} Outcome(whole: Rest, ended0: seq<Ended>, bios: seq<Bio>, ended: seq<Ended>, c: Cursor,
                                   stop: bool, n: nat, err: int, quiet: bool)
    requires AtHead(whole, ended0, bios, ended, c, stop, n, err, quiet) && (bios == [] || stop)
    ensures ended == ended0 + whole.ended && (whole.bios == [] <==> bios == [])
    ensures bios != [] ==> c.bioBytes <= bios[0].size && whole.bios == [Advance(bios[0], c.bioBytes, err)] + bios[1..]
  {
    assert ended + [] == ended;
  }

  lemma {:induction false} PopRound(whole: Rest, ended0: seq<Ended>, bios: seq<Bio>, ended: seq<Ended>, c: Cursor,
                                    n: nat, err: int, quiet: bool, rest: seq<Bio>, ended': seq<Ended>, c': Cursor,
                                    stop: bool)
    requires bios != [] && AtHead(whole, ended0, bios, ended, c, false, n, err, quiet) && c.left >= bios[0].size
    requires rest == bios[1..] && ended' == ended + if quiet then [] else [EndRecord(bios[0], err)]
    requires c' == Cursor(0, 0, c.left - bios[0].size, c.total + bios[0].size) && stop == (rest != [] && c'.left == 0)
    ensures AtHead(whole, ended0, rest, ended', c', stop, n, err, quiet)
  {
    PopStep(bios, c, n);
    PopTracks(whole, ended0, ended, bios, c.left, err, quiet);
  }

  /** A vector is passed, or the bytes end in it. */
  predicate Passed(b: Bio, c: Cursor, c': Cursor, stop: bool) {
    && b.idx <= |b.vecs| && c.nextIdx < |Live(b)|
    && var len := Live(b)[c.nextIdx].len;
       if len > c.left
       then stop && c' == Cursor(c.nextIdx, c.bioBytes + c.left, c.left, c.total + c.left)
       else c' == Cursor(c.nextIdx + 1, c.bioBytes + len, c.left - len, c.total + len) && stop == (c.left == len)
  }

  lemma {:induction false} VecRound(whole: Rest, ended0: seq<Ended>, bios: seq<Bio>, ended: seq<Ended>, c: Cursor,
                                    n: nat, err: int, quiet: bool, c': Cursor, stop: bool)
    requires bios != [] && AtHead(whole, ended0, bios, ended, c, false, n, err, quiet) && c.left < bios[0].size
    requires Passed(bios[0], c, c', stop)
    ensures AtHead(whole, ended0, bios, ended, c', stop, n, err, quiet)
    ensures !stop ==> VecsLeft(bios, c') < VecsLeft(bios, c)
  {
    VecThere(bios, c, n);
    var len := Live(bios[0])[c.nextIdx].len;
    if len <= c.left { VecStep(bios, c, n, len, c'); }
  }

  ghost function VecsLeft(bios: seq<Bio>, c: Cursor): int {
    if bios != [] then |Live(bios[0])| - c.nextIdx else 0
  }

  /** req_bio_endio on a bio of which all is done. */
  method EndBio(b: Bio, err: int, quiet: bool, ended: seq<Ended>) returns (ended': seq<Ended>)
    ensures ended' == ended + if quiet then [] else [EndRecord(b, err)]
  {
    var error := err;
    if err == 0 && !b.uptodate { error := -EIO; }
    ended' := ended;
    if !quiet { ended' := ended + [Ended(b.id, error, b.sector + Sectors(b.size))]; }
  }

  method PassVec(b: Bio, c: Cursor) returns (c': Cursor, stop: bool)
    requires b.idx <= |b.vecs| && c.nextIdx < |Live(b)|
    ensures Passed(b, c, c', stop)
  {
    var nbytes := b.vecs[b.idx + c.nextIdx].len;
    if nbytes > c.left {
      c' := Cursor(c.nextIdx, c.bioBytes + c.left, c.left, c.total + c.left);
      stop := true;
    } else {
      c' := Cursor(c.nextIdx + 1, c.bioBytes + nbytes, c.left - nbytes, c.total + nbytes);
      stop := c'.left == 0;
    }
  }

  /** One round of the loop: a whole bio, a whole vector, or part of a vector. */
  method Step(bios: seq<Bio>, ended: seq<Ended>, quiet: bool, err: int, c: Cursor, n: nat,
              ghost whole: Rest, ghost ended0: seq<Ended>)
    returns (bios': seq<Bio>, ended': seq<Ended>, c': Cursor, stop: bool)
    requires bios != [] && AtHead(whole, ended0, bios, ended, c, false, n, err, quiet)
    ensures AtHead(whole, ended0, bios', ended', c', stop, n, err, quiet)
    ensures |bios'| < |bios| || (bios' == bios && (stop || VecsLeft(bios, c') < VecsLeft(bios, c)))
  {
    var b := bios[0];
    if c.left >= b.size {
      ended' := EndBio(b, err, quiet, ended);
      bios' := bios[1..];
      c' := Cursor(0, 0, c.left - b.size, c.total + b.size);
      stop := bios' != [] && c'.left == 0;
      PopRound(whole, ended0, bios, ended, c, n, err, quiet, bios', ended', c', stop);
    } else {
      VecThere(bios, c, n);
      bios', ended' := bios, ended;
      c', stop := PassVec(b, c);
      VecRound(whole, ended0, bios', ended', c, n, err, quiet, c', stop);
    }
  }

  class Request {
    var bios: seq<Bio>
    var dataLen: nat
    var sector: nat
    const fs: bool
    const quiet: bool
    var ended: seq<Ended>

    ghost function View(): Req
      reads this
    {
      Req(bios, dataLen, sector, fs, quiet, ended)
    }

    constructor (bios: seq<Bio>, sector: nat, fs: bool, quiet: bool, dataLen: nat)
      requires BiosFit(bios) && dataLen == TotalSize(bios)
      ensures View() == Req(bios, dataLen, sector, fs, quiet, []) && ReqFits(View())
    {
      this.bios, this.dataLen, this.sector, this.fs, this.quiet, this.ended := bios, dataLen, sector, fs, quiet, [];
    }

    /** The loop of blk_update_request. Returns how many vectors and bytes of the
        first bio left are done, the bytes of a vector only partly done, and all bytes used. */
    method Consume(err: int, n: nat) returns (nextIdx: nat, bioBytes: nat, left: nat, total: nat)
      requires BiosFit(bios)
      modifies this`bios, this`ended
      ensures BiosFit(bios)
      ensures var r := Complete(old(bios), n, err, quiet);
        && ended == old(ended) + r.ended && (r.bios == [] <==> bios == [])
        && (bios != [] ==> (bioBytes < bios[0].size || bioBytes == 0)
                           && r.bios == [Advance(bios[0], bioBytes, err)] + bios[1..]
                           && total == n
                           && (bioBytes != 0 ==> Skip(Live(bios[0]), bioBytes) == (nextIdx, left)))
    {
      ghost var whole := Complete(bios, n, err, quiet);
      var c, stop := Cursor(0, 0, n, 0), false;
      if bios != [] {
        assert BioFits(bios[0]);
        MidwayStart(bios[0], n);
      }
      while bios != [] && !stop
        invariant AtHead(whole, old(ended), bios, ended, c, stop, n, err, quiet)
        decreases |bios|, if stop then 0 else 1, VecsLeft(bios, c)
      {
        bios, ended, c, stop := Step(bios, ended, quiet, err, c, n, whole, old(ended));
      }
      Outcome(whole, old(ended), bios, ended, c, stop, n, err, quiet);
      nextIdx, bioBytes, left, total := c.nextIdx, c.bioBytes, c.left, c.total;
    }

    /** The loop, and the update of the bio it stopped in. */
    method TakeBytes(err: int, n: nat) returns (total: nat)
      requires BiosFit(bios)
      modifies this`bios, this`ended
      ensures var r := Complete(old(bios), n, err, quiet);
        bios == r.bios && ended == old(ended) + r.ended && (bios != [] ==> total == n)
    {
      var nextIdx, bioBytes, left;
      nextIdx, bioBytes, left, total := Consume(err, n);
      if bios != [] {
        if bioBytes == 0 { assert [bios[0]] + bios[1..] == bios; } else {
          assert BioFits(bios[0]);
          Finish(err, bioBytes, nextIdx, left);
        }
      }
    }

    /** blk_update_request. */
    method UpdateRequest(err: int, n: nat) returns (more: bool)
      requires ReqFits(View())
      modifies this
      ensures (View(), more) == Update(old(View()), err, n) && ReqFits(View())
      ensures more <==> !Covered(old(bios), n)
      ensures |old(BioAddrs(bios))| == old(dataLen)
      ensures BioAddrs(bios) == if n <= old(dataLen) then old(BioAddrs(bios))[n..] else []
    {
      UpdateFits(View(), err, n);
      UpdateAddrs(View(), err, n);
      if bios == [] { return false; }
      var total := TakeBytes(err, n);
      if bios == [] {
        dataLen := 0;
        return false;
      }
      dataLen := dataLen - total;
      if fs { sector := sector + Sectors(total); }
      NotBotched(View());
      return true;
    }

    /** req_bio_endio and the vector adjustment for a bio that is partly done. */
    method Finish(err: int, bioBytes: nat, nextIdx: nat, left: nat)
      requires bios != [] && BioFits(bios[0]) && 0 < bioBytes < bios[0].size
      requires Skip(Live(bios[0]), bioBytes) == (nextIdx, left)
      modifies this`bios
      ensures bios == [Advance(old(bios)[0], bioBytes, err)] + old(bios)[1..]
      ensures |Addrs(Live(old(bios)[0]))| == old(bios)[0].size
      ensures Addrs(Live(bios[0])) == Addrs(Live(old(bios)[0]))[bioBytes..]
    {
      AdvanceAddrs(bios[0], bioBytes, err);
      var b := bios[0];
      DropIsTrim(Live(b), bioBytes);
      b := b.(size := b.size - bioBytes, sector := b.sector + Sectors(bioBytes), uptodate := b.uptodate && err == 0);
      var at := b.idx + nextIdx;
      var v := b.vecs[at];
      b := b.(idx := at, vecs := b.vecs[at := Vec(v.addr + left, v.len - left, v.high)]);
      assert b == Advance(bios[0], bioBytes, err);
      bios := [b] + bios[1..];
    }
  }

  /** bio_cur_bytes: the first live vector, or bi_size for a bio without vectors. */
  function CurBytes(b: Bio): nat { if b.idx < |b.vecs| then b.vecs[b.idx].len else b.size }

  /** blk_rq_bytes is never below blk_rq_cur_bytes: the check for a botched request
      never fires. */
  lemma {:induction false} NotBotched(rq: Req)
    requires ReqFits(rq) && rq.bios != []
    ensures CurBytes(rq.bios[0]) <= rq.dataLen
  {
    assert BioFits(rq.bios[0]);
  }
}
