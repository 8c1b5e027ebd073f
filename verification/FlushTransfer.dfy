/** The completion of a request's bytes in the flush model against the one of
    Completion: on a request of at most one bio they are the same. */
module FlushTransfer {

  import Flush = FlushModel
  import Bios
  import Completion

  /** x is what the flush model keeps of rq. */
  predicate Shows(x: Flush.Transfer, rq: Completion.Req) {
    && |rq.bios| <= 1 && x.linked == (rq.bios != [])
    && (x.linked ==> x.size == rq.bios[0].size && x.uptodate == rq.bios[0].uptodate && x.bytes == rq.dataLen)
  }

  /** The error flags of the bio_endio calls since the first k. */
  function Flags(ended: seq<Completion.Ended>, k: nat): seq<bool>
    requires k <= |ended|
    decreases |ended| - k
  {
    if k == |ended| then [] else [ended[k].error != 0] + Flags(ended, k + 1)
  }

  /** The same result, the same view of what is left, and the same bio_endio calls
      with the same outcome. */
  lemma {:induction false} UpdateAgrees(x: Flush.Transfer, rq: Completion.Req, err: int, n: nat)
    requires Shows(x, rq) && Completion.ReqFits(rq)
    ensures var (x', more') := Flush.Update(x, rq.quiet, err != 0, n);
      var (rq', more) := Completion.Update(rq, err, n);
      && more' == more && Shows(x', rq')
      && |rq.ended| <= |rq'.ended| && x'.ended == x.ended + Flags(rq'.ended, |rq.ended|)
  {
    if rq.bios == [] {
      assert x.ended + [] == x.ended;
    } else {
      var b := rq.bios[0];
      assert rq.bios == [b] && [b][1..] == [] && Bios.TotalSize([b]) == b.size;
      var r := Completion.Complete(rq.bios, n, err, rq.quiet);
      if n < b.size {
        assert r.bios == [Completion.Advance(b, n, err)] && rq.ended + [] == rq.ended;
      } else if n > b.size {
        assert Completion.Complete([], n - b.size, err, rq.quiet) == Completion.Rest([], []);
      }
      var rq' := Completion.Update(rq, err, n).0;
      if n >= b.size && !rq.quiet {
        assert rq'.ended == rq.ended + [Completion.EndRecord(b, err)];
        assert Flags(rq'.ended, |rq.ended| + 1) == [];
      }
    }
  }
}
