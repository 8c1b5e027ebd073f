/** The hash by end sector that finds back merges (block/elevator.c), with its lazy
    removal, and last_merge. */
module MergeHash {

  import opened ListOps
  import opened Options

  /** A request: its sectors, rq_mergeable, whether the elevator holds it and
      whether it is on the hash. */
  datatype Rq = Rq(pos: nat, sectors: nat, mergeable: bool, held: bool, hashed: bool) {
    function End(): nat { pos + sectors }
  }

  /** The number of buckets and ELV_HASH_FN; any function into the buckets will do. */
  datatype Config = Config(buckets: nat, fn: nat -> nat)

  ghost predicate HashOk(c: Config) { forall sector: nat :: c.fn(sector) < c.buckets }

  datatype State = State(rqs: seq<Rq>, table: seq<seq<nat>>, last: Option<nat>) {
    function With(id: nat, rq: Rq): State
      requires id < |rqs|
    {
      this.(rqs := rqs[id := rq])
    }
  }

  // ----- the invariant -----

  /** Request id belongs in bucket b. */
  predicate Belongs(c: Config, rqs: seq<Rq>, b: nat, id: nat) {
    id < |rqs| && rqs[id].hashed && c.fn(rqs[id].End()) == b
  }

  ghost predicate CountAt(c: Config, rqs: seq<Rq>, table: seq<seq<nat>>, b: nat, id: nat)
    requires b < |table|
  {
    multiset(table[b])[id] == if Belongs(c, rqs, b, id) then 1 else 0
  }

  /** Every hashed request is once in the bucket of its end sector, and nowhere else. */
  ghost predicate TableOk(c: Config, rqs: seq<Rq>, table: seq<seq<nat>>) {
    |table| == c.buckets && forall b: nat, id: nat :: b < |table| ==> CountAt(c, rqs, table, b, id)
  }

  predicate FlagsOk(rq: Rq) { (rq.hashed ==> rq.held) && (rq.held && rq.mergeable ==> rq.hashed) }

  predicate RqsOk(rqs: seq<Rq>) { forall id {:trigger FlagsOk(rqs[id])} :: 0 <= id < |rqs| ==> FlagsOk(rqs[id]) }

  /** Besides, what is hashed is held, what is held and mergeable is hashed, and
      last_merge is null or held. */
  ghost predicate Ok(c: Config, s: State) {
    TableOk(c, s.rqs, s.table) && RqsOk(s.rqs) && (s.last.Some? ==> s.last.value < |s.rqs| && s.rqs[s.last.value].held)
  }

  // ----- on and off the hash -----

  /** __elv_rqhash_del unlinks the request from whatever bucket it is in. */
  function Unlink(table: seq<seq<nat>>, id: nat): (r: seq<seq<nat>>)
    ensures |r| == |table| && forall b :: 0 <= b < |r| ==> r[b] == Without(table[b], id)
  {
    seq(|table|, b requires 0 <= b < |table| => Without(table[b], id))
  }

  function Del(s: State, id: nat): State
    requires id < |s.rqs|
  {
    s.(table := Unlink(s.table, id), rqs := s.rqs[id := s.rqs[id].(hashed := false)])
  }

  /** elv_rqhash_add. */
  function Add(c: Config, s: State, id: nat): State
    requires id < |s.rqs| && c.fn(s.rqs[id].End()) < |s.table|
  {
    var b := c.fn(s.rqs[id].End());
    s.(table := s.table[b := [id] + s.table[b]], rqs := s.rqs[id := s.rqs[id].(hashed := true)])
  }

  /** Off the table, whatever the request looks like then. */
  lemma {:induction false} DelTable(c: Config, s: State, id: nat, rq: Rq, t: State)
    requires TableOk(c, s.rqs, s.table) && id < |s.rqs| && !rq.hashed
    requires t == s.(table := Unlink(s.table, id), rqs := s.rqs[id := rq])
    ensures TableOk(c, t.rqs, t.table)
  {
    forall b: nat, x: nat | b < |t.table| ensures CountAt(c, t.rqs, t.table, b, x) {
      assert CountAt(c, s.rqs, s.table, b, x);
      WithoutOnce(s.table[b], id, x);
    }
  }

  lemma {:induction false} WithoutOnce(l: seq<nat>, id: nat, x: nat)
    requires multiset(l)[x] <= 1
    ensures multiset(Without(l, id))[x] == if x == id then 0 else multiset(l)[x]
  {
    WithoutCount(l, id, x);
    InCount(l, id);
  }

  lemma {:induction false} AddTable(c: Config, s: State, id: nat, t: State)
    requires HashOk(c) && TableOk(c, s.rqs, s.table) && id < |s.rqs| && !s.rqs[id].hashed && t == Add(c, s, id)
    ensures TableOk(c, t.rqs, t.table)
  {
    var h := c.fn(s.rqs[id].End());
    forall b: nat, x: nat | b < |t.table| ensures CountAt(c, t.rqs, t.table, b, x) {
      assert CountAt(c, s.rqs, s.table, b, x);
      assert multiset([id] + s.table[h])[x] == multiset([id])[x] + multiset(s.table[h])[x];
    }
  }

  /** A change that keeps a request's end sector and flag keeps the table. */
  lemma {:induction false} SameTable(c: Config, s: State, id: nat, rq: Rq, t: State)
    requires TableOk(c, s.rqs, s.table) && id < |s.rqs| && rq.End() == s.rqs[id].End() && rq.hashed == s.rqs[id].hashed
    requires t.table == s.table && t.rqs == s.rqs[id := rq]
    ensures TableOk(c, t.rqs, t.table)
  {
    forall b: nat, x: nat | b < |t.table| ensures CountAt(c, t.rqs, t.table, b, x) {
      assert CountAt(c, s.rqs, s.table, b, x);
    }
  }

  lemma {:induction false} PutRq(rqs: seq<Rq>, id: nat, rq: Rq)
    requires RqsOk(rqs) && id < |rqs| && FlagsOk(rq)
    ensures RqsOk(rqs[id := rq])
  {
    var r := rqs[id := rq];
    forall k | 0 <= k < |r| ensures FlagsOk(r[k]) { assert FlagsOk(rqs[k]); }
  }

  // ----- lookup -----

  /** The walk over a bucket from entry k: entries that cannot be merged come off. */
  function FindFrom(s: State, b: nat, k: nat, offset: nat): (State, Option<nat>)
    requires b < |s.table| && k <= |s.table[b]|
    decreases |s.table[b]| - k
  {
    if k == |s.table[b]| then (s, None)
    else
      var id := s.table[b][k];
      if id >= |s.rqs| then (s, None)
      else if !s.rqs[id].mergeable then
        WithoutShrinks(s.table[b], id, k);
        FindFrom(Del(s, id), b, k, offset)
      else if s.rqs[id].End() == offset then (s, Some(id))
      else FindFrom(s, b, k + 1, offset)
  }

  lemma {:induction false} WithoutShrinks(l: seq<nat>, id: nat, k: nat)
    requires k < |l| && l[k] == id
    ensures |Without(l, id)| == |l| - 1
  {
    if l[0] != id { WithoutShrinks(l[1..], id, k - 1); }
  }

  /** elv_rqhash_find. */
  function Find(c: Config, s: State, offset: nat): (State, Option<nat>)
    requires c.fn(offset) < |s.table|
  {
    FindFrom(s, c.fn(offset), 0, offset)
  }

  /** A request a bio at `offset` can be appended to: what a scan of all requests
      the elevator holds looks for. */
  predicate Matches(rqs: seq<Rq>, offset: nat, id: nat) {
    id < |rqs| && rqs[id].held && rqs[id].mergeable && rqs[id].End() == offset
  }

  ghost predicate Passed(s: State, b: nat, k: nat, offset: nat)
    requires b < |s.table| && k <= |s.table[b]|
  {
    forall i :: 0 <= i < k ==> s.table[b][i] < |s.rqs| && s.rqs[s.table[b][i]].mergeable
                               && s.rqs[s.table[b][i]].End() != offset
  }

  /** Nothing but the hash flag of requests that cannot be merged has changed. */
  ghost predicate OnlyDropped(a: seq<Rq>, b: seq<Rq>) {
    |a| == |b| && forall id :: 0 <= id < |a| ==>
      b[id] == a[id] || (!a[id].mergeable && b[id] == a[id].(hashed := false))
  }

  lemma {:induction false} InBucket(c: Config, s: State, b: nat, id: nat)
    requires TableOk(c, s.rqs, s.table) && b < |s.table|
    ensures id in s.table[b] <==> Belongs(c, s.rqs, b, id)
  {
    assert CountAt(c, s.rqs, s.table, b, id);
    InCount(s.table[b], id);
  }

  lemma {:induction false} DropOk(c: Config, s: State, id: nat)
    requires Ok(c, s) && id < |s.rqs| && !s.rqs[id].mergeable
    ensures Ok(c, Del(s, id)) && OnlyDropped(s.rqs, Del(s, id).rqs)
  {
    DelTable(c, s, id, s.rqs[id].(hashed := false), Del(s, id));
    assert FlagsOk(s.rqs[id]);
    PutRq(s.rqs, id, s.rqs[id].(hashed := false));
  }

  lemma {:induction false} NoneLeft(c: Config, s: State, b: nat, offset: nat, id: nat)
    requires Ok(c, s) && b == c.fn(offset) < |s.table| && Passed(s, b, |s.table[b]|, offset)
    ensures !Matches(s.rqs, offset, id)
  {
    if id < |s.rqs| { assert FlagsOk(s.rqs[id]); }
    InBucket(c, s, b, id);
  }

  lemma {:induction false} PassedDrop(s: State, b: nat, k: nat, offset: nat, id: nat)
    requires b < |s.table| && k < |s.table[b]| && Passed(s, b, k, offset)
    requires id == s.table[b][k] < |s.rqs| && !s.rqs[id].mergeable
    ensures k <= |Del(s, id).table[b]| == |s.table[b]| - 1 && Passed(Del(s, id), b, k, offset)
  {
    WithoutAt(s.table[b], id, k);
  }

  /** What a lookup from entry k returns and leaves. */
  ghost predicate Found(c: Config, s: State, offset: nat, t: State, r: Option<nat>) {
    && Ok(c, t) && t.last == s.last && OnlyDropped(s.rqs, t.rqs)
    && (r.Some? ==> Matches(s.rqs, offset, r.value))
    && (r.None? ==> forall id: nat :: !Matches(s.rqs, offset, id))
  }

  lemma {:induction false} FoundFrom(c: Config, s: State, u: State, offset: nat, t: State, r: Option<nat>)
    requires OnlyDropped(s.rqs, u.rqs) && u.last == s.last && Found(c, u, offset, t, r)
    ensures Found(c, s, offset, t, r)
  {
    forall id: nat ensures Matches(u.rqs, offset, id) <==> Matches(s.rqs, offset, id) {
    }
  }

  lemma {:induction false} FindFromOk(c: Config, s: State, b: nat, k: nat, offset: nat)
    requires Ok(c, s) && b == c.fn(offset) < |s.table| && k <= |s.table[b]| && Passed(s, b, k, offset)
    ensures Found(c, s, offset, FindFrom(s, b, k, offset).0, FindFrom(s, b, k, offset).1)
    decreases |s.table[b]| - k
  {
    if k == |s.table[b]| {
      forall id: nat ensures !Matches(s.rqs, offset, id) { NoneLeft(c, s, b, offset, id); }
    } else {
      var id := s.table[b][k];
      InBucket(c, s, b, id);
      assert FlagsOk(s.rqs[id]);
      if !s.rqs[id].mergeable {
        DropOk(c, s, id);
        PassedDrop(s, b, k, offset, id);
        FindFromOk(c, Del(s, id), b, k, offset);
        FoundFrom(c, s, Del(s, id), offset, FindFrom(s, b, k, offset).0, FindFrom(s, b, k, offset).1);
      } else if s.rqs[id].End() != offset {
        FindFromOk(c, s, b, k + 1, offset);
      }
    }
  }

  /** The hash agrees with a scan of everything the elevator holds: a lookup
      succeeds exactly when some mergeable request ends at the offset, and it
      changes nothing that a later lookup could see. */
  lemma {:induction false} FindAgrees(c: Config, s: State, offset: nat)
    requires HashOk(c) && Ok(c, s)
    ensures Found(c, s, offset, Find(c, s, offset).0, Find(c, s, offset).1)
    ensures Find(c, s, offset).1.Some? <==> exists id: nat :: Matches(s.rqs, offset, id)
  {
    FindFromOk(c, s, c.fn(offset), 0, offset);
  }

  // ----- the operations under the queue lock -----

  datatype Event =
    | Insert(id: nat, pos: nat, sectors: nat, mergeable: bool)
    | Back(id: nat, sectors: nat)
    | Front(id: nat, sectors: nat)
    | Merge(id: nat, next: nat)
    | Dispatch(id: nat)
    | NoMerge(id: nat)
    | Lookup(offset: nat)

  predicate Held(s: State, id: nat) { id < |s.rqs| && s.rqs[id].held }

  predicate Enabled(s: State, e: Event) {
    match e
    case Insert(id, pos, sectors, mergeable) => id < |s.rqs| && !s.rqs[id].held
    case Back(id, sectors) => Held(s, id)
    case Front(id, sectors) => Held(s, id) && sectors <= s.rqs[id].pos
    case Merge(id, next) => Held(s, id) && next < |s.rqs| && id != next && s.rqs[id].End() == s.rqs[next].pos
    case Dispatch(id) => Held(s, id)
    case NoMerge(id) => Held(s, id)
    case Lookup(offset) => true
  }

  function Forget(last: Option<nat>, id: nat): Option<nat> { if last == Some(id) then None else last }

  /** __elv_add_request, the sorted part: the request is new to the elevator. */
  function Inserted(c: Config, s: State, id: nat, pos: nat, sectors: nat, mergeable: bool): State
    requires id < |s.rqs| && |s.table| == c.buckets && c.fn(pos + sectors) < c.buckets
  {
    var t := s.With(id, Rq(pos, sectors, mergeable, true, false));
    if mergeable then Add(c, t, id).(last := if s.last.None? then Some(id) else s.last) else t
  }

  /** elv_rqhash_reposition of a request that has grown at its end. */
  function Grown(c: Config, s: State, id: nat, sectors: nat): State
    requires id < |s.rqs| && |s.table| == c.buckets && c.fn(s.rqs[id].End() + sectors) < c.buckets
  {
    var rq := s.rqs[id];
    Add(c, Del(s.With(id, rq.(sectors := rq.sectors + sectors)), id), id).(last := Some(id))
  }

  /** Off the hash and out of the elevator. */
  function Gone(s: State, id: nat): State
    requires id < |s.rqs|
  {
    var t := Del(s, id);
    t.(rqs := t.rqs[id := t.rqs[id].(held := false)], last := Forget(s.last, id))
  }

  function Next(c: Config, s: State, e: Event): State
    requires HashOk(c) && |s.table| == c.buckets && Enabled(s, e)
  {
    match e
    case Insert(id, pos, sectors, mergeable) => Inserted(c, s, id, pos, sectors, mergeable)
    case Back(id, sectors) => Grown(c, s, id, sectors)
    case Front(id, sectors) =>
      var rq := s.rqs[id];
      s.With(id, rq.(pos := rq.pos - sectors, sectors := rq.sectors + sectors)).(last := Some(id))
    case Merge(id, next) =>
      var t := Grown(c, s, id, s.rqs[next].sectors);
      if s.rqs[next].held then Gone(t, next) else t
    case Dispatch(id) => Gone(s, id)
    case NoMerge(id) => s.With(id, s.rqs[id].(mergeable := false)).(last := Forget(s.last, id))
    case Lookup(offset) => Find(c, s, offset).0
  }

  lemma {:induction false} InsertedOk(c: Config, s: State, id: nat, pos: nat, sectors: nat, mergeable: bool, t: State)
    requires HashOk(c) && Ok(c, s) && id < |s.rqs| && !s.rqs[id].held
    requires t == Inserted(c, s, id, pos, sectors, mergeable)
    ensures Ok(c, t)
  {
    var u := s.With(id, Rq(pos, sectors, mergeable, true, false));
    assert FlagsOk(s.rqs[id]);
    UnhashedTable(c, s, id, u.rqs[id], u);
    if mergeable { AddTable(c, u, id, Add(c, u, id)); }
    PutRq(s.rqs, id, t.rqs[id]);
    assert t.rqs == s.rqs[id := t.rqs[id]];
  }

  /** A request that is not hashed may change in any way. */
  lemma {:induction false} UnhashedTable(c: Config, s: State, id: nat, rq: Rq, t: State)
    requires TableOk(c, s.rqs, s.table) && id < |s.rqs| && !s.rqs[id].hashed && !rq.hashed
    requires t.table == s.table && t.rqs == s.rqs[id := rq]
    ensures TableOk(c, t.rqs, t.table)
  {
    forall b: nat, x: nat | b < |t.table| ensures CountAt(c, t.rqs, t.table, b, x) {
      assert CountAt(c, s.rqs, s.table, b, x);
    }
  }

  lemma {:induction false} GrownTable(c: Config, s: State, id: nat, sectors: nat, t: State)
    requires HashOk(c) && TableOk(c, s.rqs, s.table) && id < |s.rqs| && t == Grown(c, s, id, sectors)
    ensures TableOk(c, t.rqs, t.table)
  {
    var rq := s.rqs[id];
    var u := Del(s.With(id, rq.(sectors := rq.sectors + sectors)), id);
    assert u.rqs == s.rqs[id := u.rqs[id]];
    DelTable(c, s, id, u.rqs[id], u);
    AddTable(c, u, id, Add(c, u, id));
  }

  lemma {:induction false} GrownOk(c: Config, s: State, id: nat, sectors: nat, t: State)
    requires HashOk(c) && Ok(c, s) && Held(s, id) && t == Grown(c, s, id, sectors)
    ensures Ok(c, t) && |t.rqs| == |s.rqs|
    ensures forall x: nat :: x < |s.rqs| && x != id ==> t.rqs[x] == s.rqs[x]
  {
    GrownTable(c, s, id, sectors, t);
    var rq := s.rqs[id].(sectors := s.rqs[id].sectors + sectors, hashed := true);
    assert t.rqs == s.rqs[id := rq];
    PutRq(s.rqs, id, rq);
  }

  lemma {:induction false} GoneOk(c: Config, s: State, id: nat, t: State)
    requires Ok(c, s) && id < |s.rqs| && t == Gone(s, id)
    ensures Ok(c, t) && !Held(t, id)
  {
    var rq := s.rqs[id].(hashed := false, held := false);
    assert t.rqs == s.rqs[id := rq];
    DelTable(c, s, id, rq, t.(last := s.last));
    PutRq(s.rqs, id, rq);
  }

  lemma {:induction false} FrontOk(c: Config, s: State, id: nat, sectors: nat, t: State)
    requires HashOk(c) && Ok(c, s) && Enabled(s, Front(id, sectors)) && t == Next(c, s, Front(id, sectors))
    ensures Ok(c, t)
  {
    assert FlagsOk(s.rqs[id]);
    SameTable(c, s, id, t.rqs[id], t);
    PutRq(s.rqs, id, t.rqs[id]);
  }

  lemma {:induction false} NoMergeOk(c: Config, s: State, id: nat, t: State)
    requires HashOk(c) && Ok(c, s) && Held(s, id) && t == Next(c, s, NoMerge(id))
    ensures Ok(c, t)
  {
    assert FlagsOk(s.rqs[id]);
    SameTable(c, s, id, t.rqs[id], t);
    PutRq(s.rqs, id, t.rqs[id]);
  }

  /** Every operation keeps the hash, the flags and last_merge in step. */
  lemma {:induction false} NextOk(c: Config, s: State, e: Event, t: State)
    requires HashOk(c) && Ok(c, s) && Enabled(s, e) && t == Next(c, s, e)
    ensures Ok(c, t)
  {
    match e
    case Insert(id, pos, sectors, mergeable) => InsertedOk(c, s, id, pos, sectors, mergeable, t);
    case Back(id, sectors) => GrownOk(c, s, id, sectors, t);
    case Front(id, sectors) => FrontOk(c, s, id, sectors, t);
    case Merge(id, next) =>
      var u := Grown(c, s, id, s.rqs[next].sectors);
      GrownOk(c, s, id, s.rqs[next].sectors, u);
      if s.rqs[next].held { GoneOk(c, u, next, t); }
    case Dispatch(id) => GoneOk(c, s, id, t);
    case NoMerge(id) => NoMergeOk(c, s, id, t);
    case Lookup(offset) => FindAgrees(c, s, offset);
  }

  /** Nothing on the hash, nothing held. */
  predicate Fresh(c: Config, s: State) {
    && |s.table| == c.buckets && (forall b :: 0 <= b < |s.table| ==> s.table[b] == [])
    && (forall id :: 0 <= id < |s.rqs| ==> !s.rqs[id].held && !s.rqs[id].hashed) && s.last.None?
  }

  lemma {:induction false} FreshOk(c: Config, s: State)
    requires Fresh(c, s)
    ensures Ok(c, s)
  {
    forall b: nat, id: nat | b < |s.table| ensures CountAt(c, s.rqs, s.table, b, id) {
      assert s.table[b] == [];
    }
  }

  /** es is a run from s that ends in t. */
  ghost predicate Leads(c: Config, s: State, es: seq<Event>, t: State)
    requires HashOk(c)
    decreases |es|
  {
    if es == [] then s == t
    else |s.table| == c.buckets && Enabled(s, es[0]) && Leads(c, Next(c, s, es[0]), es[1..], t)
  }

  /** After any run a lookup agrees with the scan, and last_merge is null or held. */
  lemma {:induction false} RunAgrees(c: Config, s: State, es: seq<Event>, t: State, offset: nat)
    requires HashOk(c) && Ok(c, s) && Leads(c, s, es, t)
    ensures Ok(c, t) && (t.last.Some? ==> Held(t, t.last.value))
    ensures Find(c, t, offset).1.Some? <==> exists id: nat :: Matches(t.rqs, offset, id)
    ensures Find(c, t, offset).1.Some? ==> Matches(t.rqs, offset, Find(c, t, offset).1.value)
    decreases |es|
  {
    if es == [] {
      FindAgrees(c, s, offset);
    } else {
      NextOk(c, s, es[0], Next(c, s, es[0]));
      RunAgrees(c, Next(c, s, es[0]), es[1..], t, offset);
    }
  }

  /** The hash and last_merge of a request queue, changed in place. */
  class Elevator {
    const c: Config
    var rqs: seq<Rq>
    var table: seq<seq<nat>>
    var last: Option<nat>

    constructor (c: Config, n: nat)
      requires HashOk(c)
      ensures this.c == c && |rqs| == n && Fresh(c, View()) && Ok(c, View())
    {
      this.c := c;
      rqs := seq(n, k => Rq(0, 0, false, false, false));
      table := seq(c.buckets, b => []);
      last := None;
      new;
      FreshOk(c, View());
    }

    function View(): State reads this { State(rqs, table, last) }

    ghost predicate Valid() reads this { HashOk(c) && Ok(c, View()) }

    /** elv_rqhash_del. */
    method HashDel(id: nat)
      requires id < |rqs|
      modifies this`rqs, this`table
      ensures View() == Del(old(View()), id)
    {
      table := Unlink(table, id);
      rqs := rqs[id := rqs[id].(hashed := false)];
    }

    /** elv_rqhash_add; its check holds. */
    method HashAdd(id: nat)
      requires id < |rqs| && c.fn(rqs[id].End()) < |table| && !rqs[id].hashed
      modifies this`rqs, this`table
      ensures View() == Add(c, old(View()), id)
    {
      var b := c.fn(rqs[id].End());
      table := table[b := [id] + table[b]];
      rqs := rqs[id := rqs[id].(hashed := true)];
    }

    /** elv_rqhash_find. */
    method HashFind(offset: nat) returns (found: Option<nat>)
      requires Valid()
      modifies this`rqs, this`table
      ensures Valid() && View() == Next(c, old(View()), Lookup(offset))
      ensures found.Some? <==> exists id: nat :: Matches(old(rqs), offset, id)
      ensures found.Some? ==> Matches(old(rqs), offset, found.value)
    {
      FindAgrees(c, View(), offset);
      var b, k := c.fn(offset), 0;
      while k < |table[b]|
        invariant b < |table| && k <= |table[b]| && Ok(c, View())
        invariant FindFrom(View(), b, k, offset) == FindFrom(old(View()), b, 0, offset)
        decreases |table[b]| - k
      {
        var id := table[b][k];
        InBucket(c, View(), b, id);
        assert rqs[id].hashed;
        if !rqs[id].mergeable {
          WithoutShrinks(table[b], id, k);
          DropOk(c, View(), id);
          HashDel(id);
        } else if rqs[id].End() == offset {
          return Some(id);
        } else {
          k := k + 1;
        }
      }
      found := None;
    }

    /** The sorted part of __elv_add_request. */
    method AddRequest(id: nat, pos: nat, sectors: nat, mergeable: bool)
      requires Valid() && Enabled(View(), Insert(id, pos, sectors, mergeable))
      modifies this
      ensures Valid() && View() == Next(c, old(View()), Insert(id, pos, sectors, mergeable))
    {
      NextOk(c, View(), Insert(id, pos, sectors, mergeable), Next(c, View(), Insert(id, pos, sectors, mergeable)));
      rqs := rqs[id := Rq(pos, sectors, mergeable, true, false)];
      if mergeable {
        HashAdd(id);
        if last.None? { last := Some(id); }
      }
    }

    /** A request grows at its end, and elv_rqhash_reposition. */
    method Reposition(id: nat, sectors: nat)
      requires id < |rqs| && |table| == c.buckets && c.fn(rqs[id].End() + sectors) < c.buckets
      modifies this
      ensures View() == Grown(c, old(View()), id, sectors)
    {
      rqs := rqs[id := rqs[id].(sectors := rqs[id].sectors + sectors)];
      HashDel(id);
      HashAdd(id);
      last := Some(id);
    }

    /** A request goes off the hash and out of the elevator. */
    method Drop(id: nat)
      requires id < |rqs|
      modifies this
      ensures View() == Gone(old(View()), id)
    {
      if last == Some(id) { last := None; }
      HashDel(id);
      rqs := rqs[id := rqs[id].(held := false)];
    }

    /** The end of a back merge: the request grew and elv_merged_request moves it. */
    method MergedBack(id: nat, sectors: nat)
      requires Valid() && Held(View(), id)
      modifies this
      ensures Valid() && View() == Next(c, old(View()), Back(id, sectors))
    {
      NextOk(c, View(), Back(id, sectors), Next(c, View(), Back(id, sectors)));
      Reposition(id, sectors);
    }

    /** The end of a front merge: the end sector, and so the bucket, is the same. */
    method MergedFront(id: nat, sectors: nat)
      requires Valid() && Enabled(View(), Front(id, sectors))
      modifies this
      ensures Valid() && View() == Next(c, old(View()), Front(id, sectors))
    {
      NextOk(c, View(), Front(id, sectors), Next(c, View(), Front(id, sectors)));
      var rq := rqs[id];
      rqs := rqs[id := rq.(pos := rq.pos - sectors, sectors := rq.sectors + sectors)];
      last := Some(id);
    }

    /** elv_merge_requests: next is absorbed, be it sorted or, as in
        elv_attempt_insert_merge, about to be inserted. */
    method MergeRequests(id: nat, next: nat)
      requires Valid() && Enabled(View(), Merge(id, next))
      modifies this
      ensures Valid() && View() == Next(c, old(View()), Merge(id, next))
    {
      NextOk(c, View(), Merge(id, next), Next(c, View(), Merge(id, next)));
      var sorted := rqs[next].held;
      Reposition(id, rqs[next].sectors);
      if sorted { Drop(next); }
    }

    /** The start of elv_dispatch_sort and elv_dispatch_add_tail. */
    method Leave(id: nat)
      requires Valid() && Held(View(), id)
      modifies this
      ensures Valid() && View() == Next(c, old(View()), Dispatch(id))
    {
      NextOk(c, View(), Dispatch(id), Next(c, View(), Dispatch(id)));
      Drop(id);
    }

    /** A request that grew too large: it stays on the hash until a lookup meets it. */
    method SetNoMerge(id: nat)
      requires Valid() && Held(View(), id)
      modifies this
      ensures Valid() && View() == Next(c, old(View()), NoMerge(id))
    {
      NextOk(c, View(), NoMerge(id), Next(c, View(), NoMerge(id)));
      rqs := rqs[id := rqs[id].(mergeable := false)];
      if last == Some(id) { last := None; }
    }
  }
}
