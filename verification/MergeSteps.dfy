/** What the operations of block/elevator.c do to the sectors of the requests and to
    last_merge: merges join extents end to end, and no sector is lost or doubled. */
module MergeSteps {

  import opened Options
  import opened MergeHash

  /** No request but id changes in anything but its place on the hash. */
  ghost predicate Others(s: State, t: State, id: nat) {
    |t.rqs| == |s.rqs| && forall x :: 0 <= x < |s.rqs| && x != id ==> t.rqs[x] == s.rqs[x]
  }

  lemma {:induction false} BackExtends(c: Config, s: State, id: nat, sectors: nat, t: State)
    requires HashOk(c) && |s.table| == c.buckets && Enabled(s, Back(id, sectors)) && t == Next(c, s, Back(id, sectors))
    ensures Others(s, t, id) && t.rqs[id].held && t.rqs[id].hashed && t.rqs[id].mergeable == s.rqs[id].mergeable
    ensures t.rqs[id].pos == s.rqs[id].pos && t.rqs[id].End() == s.rqs[id].End() + sectors && t.last == Some(id)
  {
  }

  lemma {:induction false} FrontExtends(c: Config, s: State, id: nat, sectors: nat, t: State)
    requires HashOk(c) && |s.table| == c.buckets && Enabled(s, Front(id, sectors))
    requires t == Next(c, s, Front(id, sectors))
    ensures Others(s, t, id) && t.rqs[id].held && t.rqs[id].mergeable == s.rqs[id].mergeable
    ensures t.rqs[id].pos + sectors == s.rqs[id].pos && t.rqs[id].End() == s.rqs[id].End() && t.last == Some(id)
  {
  }

  /** A merge of requests: the one that stays starts where it did and ends where the one
      absorbed ended, which is held no more. */
  lemma {:induction false} MergeJoins(c: Config, s: State, id: nat, next: nat, t: State)
    requires HashOk(c) && |s.table| == c.buckets && Enabled(s, Merge(id, next)) && t == Next(c, s, Merge(id, next))
    ensures |t.rqs| == |s.rqs| && t.rqs[id].held && t.rqs[id].hashed && t.rqs[id].mergeable == s.rqs[id].mergeable
    ensures t.rqs[id].pos == s.rqs[id].pos && t.rqs[id].End() == s.rqs[next].End()
    ensures !t.rqs[next].held && (s.rqs[next].held ==> !t.rqs[next].hashed) && t.last == Some(id)
    ensures forall x :: 0 <= x < |s.rqs| && x != id && x != next ==> t.rqs[x] == s.rqs[x]
  {
  }

  lemma {:induction false} InsertTakes(c: Config, s: State, id: nat, pos: nat, sectors: nat, mergeable: bool, t: State)
    requires HashOk(c) && |s.table| == c.buckets && Enabled(s, Insert(id, pos, sectors, mergeable))
    requires t == Next(c, s, Insert(id, pos, sectors, mergeable))
    ensures Others(s, t, id) && t.rqs[id] == Rq(pos, sectors, mergeable, true, mergeable)
    ensures t.last == if mergeable && s.last.None? then Some(id) else s.last
  {
  }

  lemma {:induction false} DispatchGives(c: Config, s: State, id: nat, t: State)
    requires HashOk(c) && |s.table| == c.buckets && Enabled(s, Dispatch(id)) && t == Next(c, s, Dispatch(id))
    ensures Others(s, t, id) && t.rqs[id] == s.rqs[id].(held := false, hashed := false)
    ensures t.last == if s.last == Some(id) then None else s.last
  {
  }

  lemma {:induction false} NoMergeMarks(c: Config, s: State, id: nat, t: State)
    requires HashOk(c) && |s.table| == c.buckets && Enabled(s, NoMerge(id)) && t == Next(c, s, NoMerge(id))
    ensures Others(s, t, id) && t.rqs[id] == s.rqs[id].(mergeable := false)
    ensures t.last == if s.last == Some(id) then None else s.last
  {
  }

  // ----- no sector is lost -----

  /** The sectors that the elevator holds. */
  function Volume(rqs: seq<Rq>): nat {
    if rqs == [] then 0 else (if rqs[0].held then rqs[0].sectors else 0) + Volume(rqs[1..])
  }

  function Share(rq: Rq): nat { if rq.held then rq.sectors else 0 }

  lemma {:induction false} VolumeAt(rqs: seq<Rq>, id: nat, rq: Rq)
    requires id < |rqs|
    ensures Volume(rqs[id := rq]) + Share(rqs[id]) == Volume(rqs) + Share(rq)
  {
    if id == 0 {
      assert rqs[0 := rq][1..] == rqs[1..];
    } else {
      assert rqs[id := rq][1..] == rqs[1..][id - 1 := rq];
      VolumeAt(rqs[1..], id - 1, rq);
    }
  }

  /** What a step brings into the elevator, in sectors, and what it takes out. */
  function Brought(s: State, e: Event): nat
    requires Enabled(s, e)
  {
    match e
    case Insert(_, _, sectors, _) => sectors
    case Back(_, sectors) => sectors
    case Front(_, sectors) => sectors
    case Merge(_, next) => if s.rqs[next].held then 0 else s.rqs[next].sectors
    case _ => 0
  }

  function TakenOut(s: State, e: Event): nat
    requires Enabled(s, e)
  {
    if e.Dispatch? then s.rqs[e.id].sectors else 0
  }

  lemma {:induction false} SameVolume(a: seq<Rq>, b: seq<Rq>)
    requires |a| == |b| && forall k :: 0 <= k < |a| ==> Share(a[k]) == Share(b[k])
    ensures Volume(a) == Volume(b)
  {
    if a != [] { SameVolume(a[1..], b[1..]); }
  }

  lemma {:induction false} OneChanged(s: State, t: State, id: nat)
    requires id < |s.rqs| && Others(s, t, id)
    ensures Volume(t.rqs) + Share(s.rqs[id]) == Volume(s.rqs) + Share(t.rqs[id])
  {
    assert t.rqs == s.rqs[id := t.rqs[id]];
    VolumeAt(s.rqs, id, t.rqs[id]);
  }

  lemma {:induction false} MergeVolume(c: Config, s: State, id: nat, next: nat, t: State)
    requires HashOk(c) && |s.table| == c.buckets && Enabled(s, Merge(id, next)) && t == Next(c, s, Merge(id, next))
    ensures Volume(t.rqs) == Volume(s.rqs) + if s.rqs[next].held then 0 else s.rqs[next].sectors
  {
    MergeJoins(c, s, id, next, t);
    var mid := s.rqs[id := t.rqs[id]];
    VolumeAt(s.rqs, id, t.rqs[id]);
    VolumeAt(mid, next, t.rqs[next]);
    assert t.rqs == mid[next := t.rqs[next]];
  }

  /** Every step: what is held afterwards is what was held and came in, less what went. */
  lemma {:induction false} NextVolume(c: Config, s: State, e: Event, t: State)
    requires HashOk(c) && Ok(c, s) && Enabled(s, e) && t == Next(c, s, e)
    ensures Volume(t.rqs) + TakenOut(s, e) == Volume(s.rqs) + Brought(s, e)
  {
    match e
    case Insert(id, pos, sectors, mergeable) =>
      InsertTakes(c, s, id, pos, sectors, mergeable, t);
      OneChanged(s, t, id);
    case Back(id, sectors) =>
      BackExtends(c, s, id, sectors, t);
      OneChanged(s, t, id);
    case Front(id, sectors) =>
      FrontExtends(c, s, id, sectors, t);
      OneChanged(s, t, id);
    case Merge(id, next) => MergeVolume(c, s, id, next, t);
    case Dispatch(id) =>
      DispatchGives(c, s, id, t);
      OneChanged(s, t, id);
    case NoMerge(id) =>
      NoMergeMarks(c, s, id, t);
      OneChanged(s, t, id);
    case Lookup(offset) =>
      FindAgrees(c, s, offset);
      SameVolume(s.rqs, t.rqs);
  }

  /** All that a run brings in and takes out. */
  ghost function Balance(c: Config, s: State, es: seq<Event>, t: State): int
    requires HashOk(c) && Leads(c, s, es, t)
    decreases |es|
  {
    if es == [] then 0
    else Brought(s, es[0]) - TakenOut(s, es[0]) + Balance(c, Next(c, s, es[0]), es[1..], t)
  }

  /** Over any run. */
  lemma {:induction false} RunVolume(c: Config, s: State, es: seq<Event>, t: State)
    requires HashOk(c) && Ok(c, s) && Leads(c, s, es, t)
    ensures Volume(t.rqs) == Volume(s.rqs) + Balance(c, s, es, t)
    decreases |es|
  {
    if es != [] {
      NextOk(c, s, es[0], Next(c, s, es[0]));
      NextVolume(c, s, es[0], Next(c, s, es[0]));
      RunVolume(c, Next(c, s, es[0]), es[1..], t);
    }
  }
}
